/** Control messages, results and the producer-side actor handle
    (src/actors/mod.rs). */
module Actors {
  import opened Mailbox

  datatype Option<T> = None | Some(value: T)

  /** Why a cue or a script failed: the target's receiver is gone (a send
      error), or a script declared itself done through `CurtainCall`. */
  datatype ActorError = Unreachable | ActorFinished

  /** `Result<(), Box<Error>>`: continue, or stop with a reason. */
  datatype ActorResult = Ok | Err(error: ActorError)

  /** A control message for a mailbox-backed driver.  `Start` and `Pause` are
      the ones the drivers consume besides `Cue` and `Cut`. */
  datatype Message<M> = Cue(data: M) | Start | Pause | Cut {

    /** The `Into<Option<M>>` conversion: the payload of a cue, nothing
        otherwise. */
    function Into(): (o: Option<M>)
      ensures o.Some? <==> Cue?
      ensures o.Some? ==> o.value == data
    {
      match this
      case Cue(d) => Some(d)
      case _ => None
    }
  }

  /** What a script returns to ask its driver to stop. */
  function CurtainCall(): (r: ActorResult)
    ensures r.Err? && r.error == ActorFinished
  {
    Err(ActorFinished)
  }

  /** The payloads carried by the cues of a message sequence, in order. */
  function Payloads<M>(msgs: seq<Message<M>>): seq<M>
  {
    if msgs == [] then []
    else
      match msgs[0].Into()
      case Some(d) => [d] + Payloads(msgs[1..])
      case None => Payloads(msgs[1..])
  }

  /** Each payload wrapped in a cue. */
  function CueMessages<M>(xs: seq<M>): (ms: seq<Message<M>>)
    ensures |ms| == |xs|
    ensures forall i :: 0 <= i < |xs| ==> ms[i] == Cue(xs[i])
  {
    seq(|xs|, i requires 0 <= i < |xs| => Cue(xs[i]))
  }

  lemma {:induction false} PayloadsAppend<M>(a: seq<Message<M>>, b: seq<Message<M>>)
    ensures Payloads(a + b) == Payloads(a) + Payloads(b)
    decreases |a|
  {
    if a != [] {
      assert (a + b)[0] == a[0] && (a + b)[1..] == a[1..] + b;
      PayloadsAppend(a[1..], b);
    } else {
      assert a + b == b;
    }
  }

  /** Wrapping payloads in cues and reading the payloads back is the identity:
      what `CueAll` enqueues carries exactly the items it was given. */
  lemma {:induction false} PayloadsOfCueMessages<M>(xs: seq<M>)
    ensures Payloads(CueMessages(xs)) == xs
    decreases |xs|
  {
    if xs != [] {
      assert CueMessages(xs)[1..] == CueMessages(xs[1..]);
      PayloadsOfCueMessages(xs[1..]);
    }
  }

  /** A handle: the sending end of one mailbox, tagged with the kind of actor
      behind it.  Drivers receive control messages; an understudy receives
      raw payloads. */
  datatype Actor<M> =
    | Actor(tx: Channel<Message<M>>)
    | ActorMut(tx: Channel<Message<M>>)
    | Understudy(sink: Channel<M>)
  {
    /** The mailbox this handle sends to. */
    function Target(): set<object>
    {
      if Understudy? then {sink} else {tx}
    }

    /** Whether that mailbox no longer has a receiver. */
    function IsClosed(): bool
      reads Target()
    {
      if Understudy? then sink.closed else tx.closed
    }

    /** Sends one payload: wrapped in a cue for a driver, raw for an
        understudy.  Fails exactly when the receiver is gone. */
    method Cue(msg: M) returns (r: ActorResult)
      modifies Target()
      ensures r.Err? <==> old(IsClosed())
      ensures r.Err? ==> r.error == Unreachable
      ensures Understudy? ==>
        sink.queue == (if r.Ok? then old(sink.queue) + [msg] else old(sink.queue)) &&
        sink.closed == old(sink.closed) && sink.hungUp == old(sink.hungUp)
      ensures !Understudy? ==>
        tx.queue == (if r.Ok? then old(tx.queue) + [Message.Cue(msg)] else old(tx.queue)) &&
        tx.closed == old(tx.closed) && tx.hungUp == old(tx.hungUp)
    {
      var ok: bool;
      match this {
        case Actor(c) =>
          ok := c.Send(Message.Cue(msg));
        case ActorMut(c) =>
          ok := c.Send(Message.Cue(msg));
        case Understudy(c) =>
          ok := c.Send(msg);
      }
      r := if ok then Ok else Err(Unreachable);
    }

    /** Cues every item in order, giving up at the first failed cue: on
        failure nothing after the failing item is sent. */
    method CueAll(msgs: seq<M>) returns (r: ActorResult)
      modifies Target()
      ensures r.Ok? <==> msgs == [] || !old(IsClosed())
      ensures r.Err? ==> r.error == Unreachable
      ensures Understudy? ==>
        sink.queue == (if r.Ok? then old(sink.queue) + msgs else old(sink.queue)) &&
        sink.closed == old(sink.closed) && sink.hungUp == old(sink.hungUp)
      ensures !Understudy? ==>
        tx.queue == (if r.Ok? then old(tx.queue) + CueMessages(msgs) else old(tx.queue)) &&
        tx.closed == old(tx.closed) && tx.hungUp == old(tx.hungUp)
    {
      var i := 0;
      while i < |msgs|
        invariant 0 <= i <= |msgs|
        invariant i > 0 ==> !old(IsClosed())
        invariant Understudy? ==>
          sink.queue == old(sink.queue) + msgs[..i] &&
          sink.closed == old(sink.closed) && sink.hungUp == old(sink.hungUp)
        invariant !Understudy? ==>
          tx.queue == old(tx.queue) + CueMessages(msgs[..i]) &&
          tx.closed == old(tx.closed) && tx.hungUp == old(tx.hungUp)
      {
        r := Cue(msgs[i]);
        if r.Err? {
          return;
        }
        assert msgs[..i + 1] == msgs[..i] + [msgs[i]];
        i := i + 1;
      }
      assert msgs[..i] == msgs;
      r := Ok;
    }

    /** Asks a driver to drain and stop; an understudy has no driver, so this
        is a successful no-op for it. */
    method Cut() returns (r: ActorResult)
      modifies Target()
      ensures Understudy? ==> r == Ok && unchanged(sink)
      ensures !Understudy? ==>
        (r.Err? <==> old(tx.closed)) && (r.Err? ==> r.error == Unreachable) &&
        tx.queue == (if r.Ok? then old(tx.queue) + [Message.Cut] else old(tx.queue)) &&
        tx.closed == old(tx.closed) && tx.hungUp == old(tx.hungUp)
    {
      match this
      case Actor(c) =>
        var ok := c.Send(Message.Cut);
        r := if ok then Ok else Err(Unreachable);
      case ActorMut(c) =>
        var ok := c.Send(Message.Cut);
        r := if ok then Ok else Err(Unreachable);
      case Understudy(_) =>
        r := Ok;
    }

    /** A second handle to the same mailbox, of the same kind; refused for a
        mutable actor so that its mailbox has a single producer handle. */
    function Duplicate(): (r: Option<Actor<M>>)
      ensures r.None? <==> ActorMut?
      ensures r.Some? ==>
        r.value.Target() == Target() &&
        r.value.Actor? == Actor? && r.value.Understudy? == Understudy?
    {
      match this
      case Actor(c) => Some(Actor(c))
      case ActorMut(_) => None
      case Understudy(c) => Some(Understudy(c))
    }
  }
}
