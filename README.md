# Duplex RPC call/response protocol, modelled in Dafny

This project models the call/response layer of the duplex RPC framework, `duplex/rpc/rpc.go`, and proves its conventions. The layer has four parts:

- **The responder.** It is the server side. It turns a handler's result list into a `ResponseHeader`, then the reply values, then an optional close of the call's channel.
- **The call context.** It holds the selector and decodes the handler's arguments.
- **The response handle.** It is the client side. It gives access to the header, to `Err` and `Continue`, and to `Send`/`Receive`/`Close`/`CloseWrite` on a continued channel.
- **`ReceiveNotify`.** It drains a continued response into a typed Go channel.

Files and modules:

- `wrappers.dfy` (`Wrappers`): `Option` stands for Go's nil-able pointers and `error`. `Result` stands for a step that yields a value or fails.
- `messages.dfy` (`Messages`): the data on the wire.
  - Go's `any` values are `Value = Nil | ErrorValue(message) | Datum(repr)`.
  - `error` is modelled by its message.
  - It also holds `CallHeader`, `ResponseHeader(e, c)`, and the messages that are encoded one at a time (`Header` or `Payload`).
- `mux.dfy` (`Mux`): the transport boundary the protocol is written against. A `Channel` class has:
  - `sent`: the messages encoded onto it;
  - `inbox`: what the peer encoded towards us, each entry already codec-decoded or undecodable;
  - the `closed` and `writeClosed` flags;
  - an injected failure budget. `budget` writes still succeed; every later write fails with `writeFailure`. `Close` and `CloseWrite` answer with fixed results.

  `Receive` on an empty inbox reports `EOF`. Twostate predicates (`WroteOne`, `ConsumedOne`, `Stored`, `ClosedOnce`, `HalfClosedOnce`) state each primitive's effect once.
- `rpc.dfy` (`Rpc`), the protocol itself:
  - **The specification of `respond`.** These are functions of the handler's values:
    - `HeaderFor`: the header after `respond`.
    - `Replies`: the values after the header.
    - `ResponseWire`: everything a fully successful `respond` writes.
  - **What the calling side decodes.** `ObserveResponse` reads one header and then only values. It is the partner against which the wire format is proved.
  - **Classes.** `Call`, `Response` and `Responder` are classes over a `Channel`.
  - **`Respond`.** It is split along the three phases of the Go function:
    - `Prepare`: sets `responded`, sets `C` and collapses a single error;
    - `SendResponse` / `SendReplies`: the header write and the reply loop;
    - the conditional close.

    `Respond`'s contract is the twostate predicate `Responded`. It says:
    - the new header;
    - how much of `ResponseWire` was written under the channel's budget;
    - that the channel is closed exactly when every write succeeded and the call was not continued;
    - the error returned, which is the first write failure or, for `Return`, the result of the close.
  - **`ReceiveNotify`.** It is a loop proved against the recursive specification `Drain`. The context is an oracle `done(i)`, consulted once per iteration between the convert step and the delivery step. `mapstructure.Decode` is a parameter `convert: Value -> Result<T, Error>`.

`responded` is written (duplex/rpc/rpc.go:143) but never read, so nothing rejects a second response, and the model adds no such guard: a second `Return`/`Continue` writes a second complete response (`RespondTwice`). `E` is never cleared: a later response without a single error keeps the message a previous one set.

## Model

| member | source | states |
|---|---|---|
| `Rpc.Call.Selector` | duplex/rpc/rpc.go:46-48 | the selector is the one in the decoded call header |
| `Rpc.Call.Receive` | duplex/rpc/rpc.go:50-59 | decodes exactly one incoming value, even into a nil target, where the value is discarded; the error is EOF, the decode failure or none; a non-nil target receives the decoded value and is otherwise left alone |
| `Rpc.Response.Err` | duplex/rpc/rpc.go:79-84 | nil exactly when the header has no error message; otherwise an error whose message equals `E` |
| `Rpc.Response.Continue` | duplex/rpc/rpc.go:86-88 | the header's continue flag; reads nothing else and changes nothing |
| `Rpc.Response.Send` | duplex/rpc/rpc.go:90-93 | encodes one payload on the response's channel, or fails without writing |
| `Rpc.Response.Receive` | duplex/rpc/rpc.go:95-98 | consumes exactly one incoming value into the target, or reports EOF or the decode failure |
| `Rpc.Response.Close` | duplex/rpc/rpc.go:100-102 | closes the channel and returns the transport's answer; nothing else changes |
| `Rpc.Response.CloseWrite` | duplex/rpc/rpc.go:104-106 | half-closes the channel and returns the transport's answer |
| `Rpc.RemoteErrorMessage` | duplex/rpc/rpc.go:79-84 | a response whose header came from a single returned error gives `Err()` with that message and `Continue()` with the flag respond was given |
| `Rpc.Responder.Send` | duplex/rpc/rpc.go:130-132 | encodes one message directly on the channel; it is not a response and changes no header |
| `Rpc.Responder.Return` | duplex/rpc/rpc.go:134-136 | respond with continue false; the channel is closed iff every write succeeded, and the result is then the close's result |
| `Rpc.Responder.Continue` | duplex/rpc/rpc.go:138-140 | respond with continue true; never closes; hands back the responder's channel even when respond failed |
| `Rpc.Responder.Prepare` | duplex/rpc/rpc.go:142-158 | sets `responded` whatever it was; `C` becomes the argument; for a single error, `E` becomes its message and the values become `[nil]`; otherwise `E` and the values are untouched |
| `Rpc.Responder.SendReplies` | duplex/rpc/rpc.go:169-173 | writes the values in order until the first failed write, which is returned; later values stay unwritten |
| `Rpc.Responder.SendResponse` | duplex/rpc/rpc.go:160-173 | writes the header first; a failed header write returns that error and writes nothing more; then the replies, `[nil]` for an empty list, up to the first failure |
| `Rpc.Responder.Respond` | duplex/rpc/rpc.go:142-180 | new header as `HeaderFor`; the channel gets the longest prefix of header-then-replies that the transport accepts; the first failed write is returned; closed iff not continued and all writes succeeded, returning the close's result |
| `Rpc.RespondTwice` | duplex/rpc/rpc.go:142-144 | nothing guards against a second response: Continue and then Return write two complete responses back to back, and the second header starts from the first one's |
| `Rpc.RepliesConvention` | duplex/rpc/rpc.go:164-168 | at least one reply always follows the header; an empty list and a single error both become `[nil]`; any other list goes out unchanged |
| `Rpc.ErrorInHeader` | duplex/rpc/rpc.go:146-158 | `C` equals the continue argument; a single error puts its message in `E`; in every other case `E` keeps its previous contents, including an error among two or more values, which is sent as an ordinary value |
| `Rpc.PayloadsAt` | duplex/rpc/rpc.go:169-173 | the i-th reply message is the i-th value, so order is kept |
| `Rpc.ResponseWireShape` | duplex/rpc/rpc.go:160-173 | a full response is one header with the updated `E`/`C`, followed by exactly the replies in order: 1 + number of replies messages, at least two |
| `Rpc.CallerObservesResponse` | duplex/rpc/rpc.go:160-173 | a caller reading a full response sees exactly one header, then the replies; at least one reply; for a single error, its message in `E` and a nil reply |
| `Rpc.Drain` | duplex/rpc/rpc.go:188-203 | the drain loop consumes at most the values that arrive and forwards at most one per value consumed |
| `Rpc.DrainStopsAtFirstFailure` | duplex/rpc/rpc.go:188-203 | the output is the converted values of the first incoming values, in order, none seen while cancelled; the loop stops at the first decode or convert error, which it returns, at cancellation, dropping the value in hand and returning nil, or at the end of the stream with EOF |
| `Rpc.DrainNilMeansCancelled` | duplex/rpc/rpc.go:197-199 | the drain returns nil if and only if it stopped because cancellation was observed |
| `Rpc.ReceiveNotify` | duplex/rpc/rpc.go:185-204 | the output channel receives exactly what `Drain` forwards and the result is `Drain`'s error; the response's channel has consumed exactly what `Drain` consumed; both the response and the output channel are closed on every exit; nothing is written and the half-close state is unchanged |
| `Rpc.Chan.Send` | duplex/rpc/rpc.go:201 | a delivery appends one value to the Go channel; it requires an open channel because sending on a closed one panics |
| `Rpc.Chan.Close` | duplex/rpc/rpc.go:186 | closes the Go channel and keeps what was delivered; it requires an open channel because closing twice panics |

## Left out

- `Caller` and `Caller.Call`: only the interface is in the source. The client-side call sequence is not modelled beyond the `Response` accessors and `ObserveResponse`, the caller's reading of the wire.
- The codec (JSON or another) and `mapstructure.Decode`: foreign libraries. Decoding is modelled by the `inbox` entries, each already decoded or undecodable. Conversion is the `convert` parameter.
- Rpc.Call.Receive: decoding into the throwaway `[]byte` is modelled as always accepting the value. A codec that rejects some values for that target type is not modelled.
- Encode failures of the codec and write failures of the transport: these are not told apart. Both are the channel's budget and `writeFailure`. What the multiplexed channel does with a write after `Close` is not modelled: the budget decides, as for any other write.
- `context.Context`: cancellation is an oracle consulted once per loop iteration. Blocking receives and blocking sends on the Go channel are not modelled, and neither is concurrency between goroutines.
- Go's typed-nil errors: a non-nil `any` holding a nil error pointer would reach `e.Error()`. The model's `Value` has no such value.
- `Call.Caller` and `Call.Context`: rpc.go never reads them. The example services call back through `Call.Caller`, which is the `Caller.Call` left out above. `Call.Context` is unused everywhere.
- duplex/interop/service.go, duplex/talk/peer_test.go and duplex/mux/frame/encoder.go are not part of this model. They are example services, an end-to-end test over concurrently running peers, and a mutex-guarded frame writer.
