/**
 * The transport boundary the protocol is written against: one multiplexed
 * channel together with the codec's encoder and decoder bound to it.
 *
 * The channel is a log of what was encoded onto it (`sent`), the values the
 * peer has encoded towards us (`inbox`), and its close state. Failures of the
 * transport or the codec are injected: `budget` writes still succeed, after
 * which every write fails with `writeFailure`; `Close` and `CloseWrite`
 * answer with fixed results.
 */
module Mux {
  import opened Wrappers
  import opened Messages

  /** The error a decoder reports once the peer has nothing more to send. */
  const EOF := Error("EOF")

  /** A place a decoded value is stored into (Go's pointer argument to Decode). */
  class Target {
    var value: Value

    constructor (initial: Value)
      ensures value == initial
    {
      value := initial;
    }
  }

  /** The effect of one encode on `c`: appended when the budget allows, else the write failure. */
  twostate predicate WroteOne(c: Channel, m: Msg, new err: Option<Error>)
    reads c
  {
    && (old(c.budget) > 0 ==> err == None && c.sent == old(c.sent) + [m] && c.budget == old(c.budget) - 1)
    && (old(c.budget) == 0 ==> err == Some(c.writeFailure) && c.sent == old(c.sent) && c.budget == 0)
    && c.inbox == old(c.inbox) && c.closed == old(c.closed) && c.writeClosed == old(c.writeClosed)
  }

  /**
   * The effect of one decode on `c`'s side: exactly one incoming value is
   * consumed when there is one, and the error is EOF, the decode failure, or none.
   */
  twostate predicate ConsumedOne(c: Channel, new err: Option<Error>)
    reads c
  {
    && (old(c.inbox) == [] ==> err == Some(EOF) && c.inbox == [])
    && (old(c.inbox) != [] ==> c.inbox == old(c.inbox)[1..])
    && (old(c.inbox) != [] && old(c.inbox)[0].Decoded? ==> err == None)
    && (old(c.inbox) != [] && old(c.inbox)[0].Undecodable? ==> err == Some(old(c.inbox)[0].failure))
    && c.sent == old(c.sent) && c.budget == old(c.budget)
    && c.closed == old(c.closed) && c.writeClosed == old(c.writeClosed)
  }

  /** What a decode leaves in its target: the decoded value, or the old contents. */
  twostate predicate Stored(c: Channel, target: Target)
    reads c, target
  {
    if old(c.inbox) != [] && old(c.inbox)[0].Decoded?
    then target.value == old(c.inbox)[0].value
    else target.value == old(target.value)
  }

  /** The effect of a full close on `c`. */
  twostate predicate ClosedOnce(c: Channel, new err: Option<Error>)
    reads c
  {
    && c.closed && err == c.closeFailure
    && c.sent == old(c.sent) && c.inbox == old(c.inbox) && c.budget == old(c.budget)
    && c.writeClosed == old(c.writeClosed)
  }

  /** The effect of a half close on `c`. */
  twostate predicate HalfClosedOnce(c: Channel, new err: Option<Error>)
    reads c
  {
    && c.writeClosed && err == c.closeWriteFailure
    && c.sent == old(c.sent) && c.inbox == old(c.inbox) && c.budget == old(c.budget)
    && c.closed == old(c.closed)
  }

  class Channel {
    var sent: seq<Msg>
    var inbox: seq<Incoming>
    var budget: nat
    var closed: bool
    var writeClosed: bool
    const writeFailure: Error
    const closeFailure: Option<Error>
    const closeWriteFailure: Option<Error>

    constructor (inbox: seq<Incoming>, budget: nat, writeFailure: Error,
                 closeFailure: Option<Error>, closeWriteFailure: Option<Error>)
      ensures this.sent == [] && this.inbox == inbox && this.budget == budget
      ensures !this.closed && !this.writeClosed
      ensures this.writeFailure == writeFailure && this.closeFailure == closeFailure
      ensures this.closeWriteFailure == closeWriteFailure
    {
      this.sent := [];
      this.inbox := inbox;
      this.budget := budget;
      this.closed := false;
      this.writeClosed := false;
      this.writeFailure := writeFailure;
      this.closeFailure := closeFailure;
      this.closeWriteFailure := closeWriteFailure;
    }

    /** Encoder.Encode: appends one message, or fails once the budget is spent. */
    method Write(m: Msg) returns (err: Option<Error>)
      modifies this
      ensures WroteOne(this, m, err)
    {
      if budget > 0 {
        sent := sent + [m];
        budget := budget - 1;
        err := None;
      } else {
        err := Some(writeFailure);
      }
    }

    /**
     * Decoder.Decode: consumes the next incoming value and stores it into
     * `target`; a decode failure consumes the value too and leaves `target`
     * alone; with nothing left to read it reports EOF.
     */
    method Receive(target: Target) returns (err: Option<Error>)
      modifies this, target
      ensures ConsumedOne(this, err) && Stored(this, target)
    {
      if inbox == [] {
        err := Some(EOF);
      } else {
        var next := inbox[0];
        inbox := inbox[1..];
        match next
        case Decoded(v) =>
          target.value := v;
          err := None;
        case Undecodable(e) =>
          err := Some(e);
      }
    }

    /** Channel.Close: closes both directions and reports the transport's answer. */
    method Close() returns (err: Option<Error>)
      modifies this
      ensures ClosedOnce(this, err)
    {
      closed := true;
      err := closeFailure;
    }

    /** Channel.CloseWrite: half-closes the sending direction. */
    method CloseWrite() returns (err: Option<Error>)
      modifies this
      ensures HalfClosedOnce(this, err)
    {
      writeClosed := true;
      err := closeWriteFailure;
    }
  }
}
