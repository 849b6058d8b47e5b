/**
 * The call/response protocol: the server-side call context, the client-side
 * response handle, the responder that writes a handler's result onto the
 * call's channel, and the adapter that drains a continued response into a
 * typed stream.
 */
module Rpc {
  import opened Wrappers
  import opened Messages
  import opened Mux

  // ----------------------------------------------------------------------
  // What respond writes, as functions of the handler's values
  // ----------------------------------------------------------------------

  /** The handler returned exactly one value, and it is an error. */
  predicate SingleError(values: seq<Value>)
  {
    |values| == 1 && values[0].ErrorValue?
  }

  /** The header after respond: `C` is the continue argument; a single error sets `E`, nothing else touches it. */
  function HeaderFor(h: ResponseHeader, values: seq<Value>, cont: bool): ResponseHeader
  {
    ResponseHeader(if SingleError(values) then Some(values[0].message) else h.e, cont)
  }

  /** The reply values respond sends after the header. */
  function Replies(values: seq<Value>): seq<Value>
  {
    var collapsed := if SingleError(values) then [Nil] else values;
    if collapsed == [] then [Nil] else collapsed
  }

  /** Each value wrapped as one encoded payload message, in order. */
  function Payloads(vs: seq<Value>): (r: seq<Msg>)
    ensures |r| == |vs|
  {
    if vs == [] then [] else [Payload(vs[0])] + Payloads(vs[1..])
  }

  /** Everything a fully successful respond encodes: the header, then the replies. */
  function ResponseWire(h: ResponseHeader, values: seq<Value>, cont: bool): seq<Msg>
  {
    [Header(HeaderFor(h, values, cont))] + Payloads(Replies(values))
  }

  /** How many of `want` writes go through when `budget` writes still succeed. */
  function Delivered(budget: nat, want: nat): nat
  {
    if budget < want then budget else want
  }

  // ----------------------------------------------------------------------
  // Properties of the response conventions
  // ----------------------------------------------------------------------

  lemma {:induction false} PayloadsAt(vs: seq<Value>, i: nat)
    requires i < |vs|
    ensures Payloads(vs)[i] == Payload(vs[i])
  {
    if i > 0 {
      PayloadsAt(vs[1..], i - 1);
    }
  }

  /** At least one reply always follows; a single error collapses to nil; anything else goes out unchanged. */
  lemma RepliesConvention(values: seq<Value>)
    ensures |Replies(values)| >= 1
    ensures values == [] ==> Replies(values) == [Nil]
    ensures SingleError(values) ==> Replies(values) == [Nil]
    ensures values != [] && !SingleError(values) ==> Replies(values) == values
  {
  }

  /**
   * Error in header: a single error leaves only its message, in `E`; in
   * every other case `E` keeps its previous contents, even when an error
   * sits among two or more values and is sent as an ordinary value.
   */
  lemma ErrorInHeader(h: ResponseHeader, values: seq<Value>, cont: bool)
    ensures HeaderFor(h, values, cont).c == cont
    ensures SingleError(values) ==> HeaderFor(h, values, cont).e == Some(values[0].message)
    ensures !SingleError(values) ==> HeaderFor(h, values, cont).e == h.e
    ensures |values| >= 2 ==> Replies(values) == values
  {
  }

  /** The full response: one header first, then exactly the replies in order; at least two messages. */
  lemma {:induction false} ResponseWireShape(h: ResponseHeader, values: seq<Value>, cont: bool)
    ensures |ResponseWire(h, values, cont)| == 1 + |Replies(values)| >= 2
    ensures ResponseWire(h, values, cont)[0] == Header(HeaderFor(h, values, cont))
    ensures forall i :: 0 <= i < |Replies(values)| ==>
      ResponseWire(h, values, cont)[1 + i] == Payload(Replies(values)[i])
  {
    RepliesConvention(values);
    var w := ResponseWire(h, values, cont);
    forall i | 0 <= i < |Replies(values)|
      ensures w[1 + i] == Payload(Replies(values)[i])
    {
      PayloadsAt(Replies(values), i);
    }
  }

  // ----------------------------------------------------------------------
  // The caller's view of a response
  // ----------------------------------------------------------------------

  /** A response as a caller decodes it: one header and the values after it. */
  datatype Observed = Observed(header: ResponseHeader, replies: seq<Value>)

  /** The payload values of `msgs`, or None if a second header appears among them. */
  function PayloadValues(msgs: seq<Msg>): Option<seq<Value>>
  {
    if msgs == [] then Some([])
    else if msgs[0].Header? then None
    else match PayloadValues(msgs[1..])
      case None => None
      case Some(rest) => Some([msgs[0].value] + rest)
  }

  /** Reads a message stream the way the calling side does: a header first, then only values. */
  function ObserveResponse(msgs: seq<Msg>): Option<Observed>
  {
    if msgs == [] || !msgs[0].Header? then None
    else match PayloadValues(msgs[1..])
      case None => None
      case Some(vs) => Some(Observed(msgs[0].header, vs))
  }

  lemma {:induction false} PayloadValuesOfPayloads(vs: seq<Value>)
    ensures PayloadValues(Payloads(vs)) == Some(vs)
  {
    if vs != [] {
      PayloadValuesOfPayloads(vs[1..]);
      assert Payloads(vs)[0] == Payload(vs[0]);
      assert Payloads(vs)[1..] == Payloads(vs[1..]);
      assert [vs[0]] + vs[1..] == vs;
    }
  }

  /**
   * What a respond that wrote everything means to the caller: exactly one
   * header, carrying the continue flag and the error message, followed by at
   * least one reply, which is nil for a single error.
   */
  lemma {:induction false} CallerObservesResponse(h: ResponseHeader, values: seq<Value>, cont: bool)
    ensures ObserveResponse(ResponseWire(h, values, cont)) == Some(Observed(HeaderFor(h, values, cont), Replies(values)))
    ensures |Replies(values)| >= 1
    ensures SingleError(values) ==> HeaderFor(h, values, cont).e == Some(values[0].message) && Replies(values) == [Nil]
  {
    var w := ResponseWire(h, values, cont);
    PayloadValuesOfPayloads(Replies(values));
    assert w[1..] == Payloads(Replies(values));
  }

  // ----------------------------------------------------------------------
  // Server side: the call context
  // ----------------------------------------------------------------------

  /** Call: the decoded call header and the channel its decoder reads from. */
  class Call {
    const header: CallHeader
    const ch: Channel

    constructor (header: CallHeader, ch: Channel)
      ensures this.header == header && this.ch == ch
    {
      this.header := header;
      this.ch := ch;
    }

    function Selector(): (s: string)
      ensures s == header.s
    {
      header.s
    }

    /**
     * Decodes the next argument into `target`; with a null target the value
     * is decoded into a throwaway place, so the stream stays aligned.
     */
    method Receive(target: Target?) returns (err: Option<Error>)
      modifies ch, target
      ensures ConsumedOne(ch, err)
      ensures target != null ==> Stored(ch, target)
    {
      var into := target;
      if into == null {
        into := new Target(Nil);
      }
      err := ch.Receive(into);
    }
  }

  // ----------------------------------------------------------------------
  // Client side: the response handle
  // ----------------------------------------------------------------------

  /** Response: the decoded header, the first reply value and the channel. */
  class Response {
    const header: ResponseHeader
    const value: Value
    const channel: Channel

    constructor (header: ResponseHeader, value: Value, channel: Channel)
      ensures this.header == header && this.value == value && this.channel == channel
    {
      this.header := header;
      this.value := value;
      this.channel := channel;
    }

    /** Err: nil exactly when no error message arrived, else an error with that message. */
    function Err(): (err: Option<Error>)
      ensures err.None? <==> header.e.None?
      ensures err.Some? ==> err.value.message == header.e.value
    {
      if header.e.None? then None else Some(Error(header.e.value))
    }

    function Continue(): (c: bool)
      ensures c == header.c
    {
      header.c
    }

    method Send(v: Value) returns (err: Option<Error>)
      modifies channel
      ensures WroteOne(channel, Payload(v), err)
    {
      err := channel.Write(Payload(v));
    }

    method Receive(target: Target) returns (err: Option<Error>)
      modifies channel, target
      ensures ConsumedOne(channel, err) && Stored(channel, target)
    {
      err := channel.Receive(target);
    }

    method Close() returns (err: Option<Error>)
      modifies channel
      ensures ClosedOnce(channel, err)
    {
      err := channel.Close();
    }

    method CloseWrite() returns (err: Option<Error>)
      modifies channel
      ensures HalfClosedOnce(channel, err)
    {
      err := channel.CloseWrite();
    }
  }

  /** A single error returned by the handler reaches the caller as Err() with the same message. */
  lemma RemoteErrorMessage(resp: Response, h: ResponseHeader, msg: string, cont: bool)
    requires resp.header == HeaderFor(h, [ErrorValue(msg)], cont)
    ensures resp.Err() == Some(Error(msg)) && resp.Continue() == cont
  {
  }

  // ----------------------------------------------------------------------
  // Server side: the responder
  // ----------------------------------------------------------------------

  /** responder: the response header being built and the channel it is written to. */
  class Responder {
    var responded: bool
    var header: ResponseHeader
    const ch: Channel

    constructor (header: ResponseHeader, ch: Channel)
      ensures !responded && this.header == header && this.ch == ch
    {
      this.responded := false;
      this.header := header;
      this.ch := ch;
    }

    /**
     * The effect of respond(values, cont): the header is updated, then as much
     * of the header-and-replies sequence is written as the channel accepts;
     * the first failed write ends it with that error; when every write went
     * through, the channel is closed unless continued.
     */
    twostate predicate Responded(values: seq<Value>, cont: bool, new err: Option<Error>)
      reads this, ch
    {
      var wire := ResponseWire(old(header), values, cont);
      var n := Delivered(old(ch.budget), |wire|);
      && responded
      && header == HeaderFor(old(header), values, cont)
      && ch.sent == old(ch.sent) + wire[..n]
      && ch.budget == old(ch.budget) - n
      && ch.closed == (old(ch.closed) || (n == |wire| && !cont))
      && err == (if n < |wire| then Some(ch.writeFailure) else if cont then None else ch.closeFailure)
      && ch.inbox == old(ch.inbox) && ch.writeClosed == old(ch.writeClosed)
    }

    /** Send: encodes one message directly on the channel. */
    method Send(m: Msg) returns (err: Option<Error>)
      modifies ch
      ensures WroteOne(ch, m, err)
    {
      err := ch.Write(m);
    }

    method Return(values: seq<Value>) returns (err: Option<Error>)
      modifies this, ch
      ensures Responded(values, false, err)
    {
      err := Respond(values, false);
    }

    /** Continue hands the channel back whether or not respond succeeded. */
    method Continue(values: seq<Value>) returns (c: Channel, err: Option<Error>)
      modifies this, ch
      ensures c == ch && Responded(values, true, err)
    {
      c := ch;
      err := Respond(values, true);
    }

    /**
     * The first half of respond: marks the responder as responded, sets the
     * continue flag, and moves a single error's message into the header.
     */
    method Prepare(values: seq<Value>, cont: bool) returns (vs: seq<Value>)
      modifies this
      ensures responded && header == HeaderFor(old(header), values, cont)
      ensures vs == if SingleError(values) then [Nil] else values
    {
      responded := true;
      header := header.(c := cont);

      vs := values;
      if |vs| == 1 {
        if vs[0].ErrorValue? {
          var e := vs[0];
          vs := [Nil];
          header := header.(e := Some(e.message));
        }
      }
    }

    /** The reply loop of respond: sends each value in order, stopping at the first failed write. */
    method SendReplies(vs: seq<Value>) returns (err: Option<Error>)
      modifies ch
      ensures var n := Delivered(old(ch.budget), |vs|);
        && ch.sent == old(ch.sent) + Payloads(vs)[..n]
        && ch.budget == old(ch.budget) - n
        && err == (if n < |vs| then Some(ch.writeFailure) else None)
      ensures ch.closed == old(ch.closed) && ch.inbox == old(ch.inbox)
      ensures ch.writeClosed == old(ch.writeClosed)
    {
      ghost var p := Payloads(vs);
      var i := 0;
      while i < |vs|
        invariant 0 <= i <= |vs| <= |p|
        invariant ch.sent == old(ch.sent) + p[..i]
        invariant ch.budget == old(ch.budget) - i
        invariant ch.closed == old(ch.closed) && ch.inbox == old(ch.inbox)
        invariant ch.writeClosed == old(ch.writeClosed)
      {
        err := Send(Payload(vs[i]));
        if err.Some? {
          return;
        }
        PayloadsAt(vs, i);
        assert p[..i + 1] == p[..i] + [p[i]];
        i := i + 1;
      }
      assert p[..i] == p;
      err := None;
    }

    /**
     * The writing half of respond: the header, then the replies (a lone nil
     * when there are none), stopping at the first failed write.
     */
    method SendResponse(vs: seq<Value>) returns (err: Option<Error>)
      modifies ch
      ensures var wire := [Header(header)] + Payloads(if vs == [] then [Nil] else vs);
        var n := Delivered(old(ch.budget), |wire|);
        && ch.sent == old(ch.sent) + wire[..n]
        && ch.budget == old(ch.budget) - n
        && err == (if n < |wire| then Some(ch.writeFailure) else None)
      ensures ch.closed == old(ch.closed) && ch.inbox == old(ch.inbox)
      ensures ch.writeClosed == old(ch.writeClosed)
    {
      ghost var b0 := ch.budget;
      err := Send(Header(header));
      if err.Some? {
        return;
      }
      ghost var b1 := ch.budget;
      var replies := vs;
      if |replies| == 0 {
        replies := [Nil];
      }
      err := SendReplies(replies);
      ghost var wire := [Header(header)] + Payloads(replies);
      ghost var k := Delivered(b1, |replies|);
      assert Delivered(b0, |wire|) == 1 + k;
      assert wire[1..] == Payloads(replies);
      assert wire[..1 + k] == [Header(header)] + Payloads(replies)[..k];
    }

    /** respond: never consults `responded`, so a second call writes a second response. */
    method Respond(values: seq<Value>, cont: bool) returns (err: Option<Error>)
      modifies this, ch
      ensures Responded(values, cont, err)
    {
      var vs := Prepare(values, cont);
      assert (if vs == [] then [Nil] else vs) == Replies(values);
      err := SendResponse(vs);
      if err.Some? {
        return;
      }
      if !cont {
        err := ch.Close();
        return;
      }
    }
  }

  /**
   * There is no double-response guard: a Continue followed by a Return on
   * the same responder writes two complete responses, one after the other.
   */
  method RespondTwice(r: Responder, first: seq<Value>, second: seq<Value>)
      returns (err1: Option<Error>, err2: Option<Error>)
    requires r.ch.budget >= |ResponseWire(r.header, first, true)|
                          + |ResponseWire(HeaderFor(r.header, first, true), second, false)|
    modifies r, r.ch
    ensures r.ch.sent == old(r.ch.sent) + ResponseWire(old(r.header), first, true)
                         + ResponseWire(HeaderFor(old(r.header), first, true), second, false)
    ensures err1 == None && err2 == r.ch.closeFailure && r.ch.closed
    ensures r.responded && r.header == HeaderFor(HeaderFor(old(r.header), first, true), second, false)
  {
    var c;
    c, err1 := r.Continue(first);
    err2 := r.Return(second);
  }

  // ----------------------------------------------------------------------
  // Client side: draining a continued response
  // ----------------------------------------------------------------------

  /** A Go `chan T`: what was delivered on it, and whether it was closed. */
  class Chan<T> {
    var items: seq<T>
    var closed: bool

    constructor ()
      ensures items == [] && !closed
    {
      items := [];
      closed := false;
    }

    /** Sending on a closed Go channel panics, so callers must not. */
    method Send(x: T)
      requires !closed
      modifies this
      ensures items == old(items) + [x] && !closed
    {
      items := items + [x];
    }

    /** Closing a closed Go channel panics, so callers must not. */
    method Close()
      requires !closed
      modifies this
      ensures closed && items == old(items)
    {
      closed := true;
    }
  }

  /** The result of draining: values forwarded, incoming values consumed, the returned error. */
  datatype Drained<T> = Drained(forwarded: seq<T>, consumed: nat, err: Option<Error>)

  /**
   * The drain loop, iteration `step` onwards, over the values still to
   * arrive: receive, convert, then forward unless cancellation is observed.
   */
  function Drain<T>(inbox: seq<Incoming>, convert: Value -> Result<T, Error>, done: nat -> bool, step: nat): (r: Drained<T>)
    ensures r.consumed <= |inbox|
    ensures |r.forwarded| <= r.consumed
    decreases |inbox|
  {
    if inbox == [] then Drained([], 0, Some(EOF))
    else match inbox[0]
      case Undecodable(e) => Drained([], 1, Some(e))
      case Decoded(v) =>
        match convert(v)
        case Failure(e) => Drained([], 1, Some(e))
        case Success(x) =>
          if done(step) then Drained([], 1, None)
          else
            var rest := Drain(inbox[1..], convert, done, step + 1);
            Drained([x] + rest.forwarded, 1 + rest.consumed, rest.err)
  }

  /** How the loop stops on `next`: a decode error, a convert error, or cancellation (which returns nil). */
  predicate StopsOn<T>(next: Incoming, convert: Value -> Result<T, Error>, cancelled: bool, err: Option<Error>)
  {
    match next
    case Undecodable(e) => err == Some(e)
    case Decoded(v) =>
      match convert(v)
      case Failure(e) => err == Some(e)
      case Success(_) => cancelled && err == None
  }

  /**
   * The forwarded values are exactly the converted values of the first
   * incoming values, in order, none of them seen while cancelled; the loop
   * ends at the first decode or convert error, at the first cancellation
   * (the value in hand is dropped), or with EOF when the stream ends.
   */
  lemma {:induction false} DrainStopsAtFirstFailure<T>(inbox: seq<Incoming>, convert: Value -> Result<T, Error>, done: nat -> bool, step: nat)
    ensures var r := Drain(inbox, convert, done, step);
      forall j :: 0 <= j < |r.forwarded| ==>
        inbox[j].Decoded? && convert(inbox[j].value) == Success(r.forwarded[j]) && !done(step + j)
    ensures var r := Drain(inbox, convert, done, step);
      var k := |r.forwarded|;
      || (k == |inbox| && r.consumed == k && r.err == Some(EOF))
      || (k < |inbox| && r.consumed == k + 1 && StopsOn(inbox[k], convert, done(step + k), r.err))
  {
    if inbox != [] && inbox[0].Decoded? && convert(inbox[0].value).Success? && !done(step) {
      var r := Drain(inbox, convert, done, step);
      var rest := Drain(inbox[1..], convert, done, step + 1);
      DrainStopsAtFirstFailure(inbox[1..], convert, done, step + 1);
      assert r.forwarded == [convert(inbox[0].value).value] + rest.forwarded;
      forall j | 0 <= j < |r.forwarded|
        ensures inbox[j].Decoded? && convert(inbox[j].value) == Success(r.forwarded[j]) && !done(step + j)
      {
        if j > 0 {
          assert inbox[j] == inbox[1..][j - 1];
          assert r.forwarded[j] == rest.forwarded[j - 1];
        }
      }
    }
  }

  /** Cancellation is the only way the loop returns nil. */
  lemma {:induction false} DrainNilMeansCancelled<T>(inbox: seq<Incoming>, convert: Value -> Result<T, Error>, done: nat -> bool, step: nat)
    ensures var r := Drain(inbox, convert, done, step);
      var k := |r.forwarded|;
      r.err == None <==>
        k < |inbox| && inbox[k].Decoded? && convert(inbox[k].value).Success? && done(step + k)
  {
    DrainStopsAtFirstFailure(inbox, convert, done, step);
  }

  /**
   * ReceiveNotify: forwards converted values from a continued response to
   * `out` until a receive or convert error or cancellation; the response and
   * `out` are closed on every exit. `done` stands for the context: it says
   * whether cancellation is observed in a given iteration.
   */
  method ReceiveNotify<T>(done: nat -> bool, resp: Response, out: Chan<T>, convert: Value -> Result<T, Error>)
      returns (err: Option<Error>)
    requires !out.closed
    modifies resp.channel, out
    ensures var d := Drain(old(resp.channel.inbox), convert, done, 0);
      && err == d.err
      && out.items == old(out.items) + d.forwarded
      && resp.channel.inbox == old(resp.channel.inbox)[d.consumed..]
    ensures out.closed && resp.channel.closed
    ensures resp.channel.sent == old(resp.channel.sent) && resp.channel.budget == old(resp.channel.budget)
    ensures resp.channel.writeClosed == old(resp.channel.writeClosed)
  {
    ghost var orig := resp.channel.inbox;
    ghost var fwd: seq<T> := [];
    var i: nat := 0;
    while true
      invariant i <= |orig| && resp.channel.inbox == orig[i..]
      invariant !out.closed && out.items == old(out.items) + fwd
      invariant var d := Drain(orig[i..], convert, done, i);
        Drain(orig, convert, done, 0) == Drained(fwd + d.forwarded, i + d.consumed, d.err)
      invariant resp.channel.sent == old(resp.channel.sent) && resp.channel.budget == old(resp.channel.budget)
      invariant resp.channel.writeClosed == old(resp.channel.writeClosed)
      decreases |resp.channel.inbox|
    {
      ghost var d := Drain(orig[i..], convert, done, i);
      var v := new Target(Nil);
      var rerr := resp.Receive(v);
      if rerr.Some? {
        assert d == Drained([], if i == |orig| then 0 else 1, rerr);
        err := rerr;
        break;
      }
      assert orig[i..][0] == orig[i] == Decoded(v.value);
      var converted := convert(v.value);
      if converted.Failure? {
        assert d == Drained([], 1, Some(converted.error));
        err := Some(converted.error);
        break;
      }
      if done(i) {
        assert d == Drained([], 1, None);
        err := None;
        break;
      }
      out.Send(converted.value);
      assert orig[i..][1..] == orig[i + 1..];
      ghost var rest := Drain(orig[i + 1..], convert, done, i + 1);
      assert d == Drained([converted.value] + rest.forwarded, 1 + rest.consumed, rest.err);
      assert (fwd + [converted.value]) + rest.forwarded == fwd + d.forwarded;
      fwd := fwd + [converted.value];
      i := i + 1;
    }
    var _ := resp.Close();
    out.Close();
  }
}
