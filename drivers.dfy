/** The mailbox-backed drivers built by the `actor` and `actor_mut` arms of
    `actor_expand!` (src/macros.rs:40-102): a single consumer that receives
    control messages one at a time, buffers cues while inactive, hands them to
    the script while active, and leaves its `'receiving` loop on `Cut`, on a
    rejected payload or when its mailbox disconnects. */
module Drivers {
  import opened Actors
  import opened Mailbox
  import opened Delivery

  /** Everything the driver's thread keeps: the captured private state
      (`bound`), the `active` flag, the `messages` buffer, whether it is still
      inside `'receiving`, and the log of payloads handed to the script. */
  datatype DriverState<S, M> =
    DriverState(bound: S, active: bool, messages: seq<M>, live: bool, log: seq<M>)

  /** A freshly spawned driver: inactive, nothing buffered, nothing handed. */
  function Init<S, M>(bound: S): DriverState<S, M>
  {
    DriverState(bound, false, [], true, [])
  }

  /** Runs the `for data in messages` loop over the buffer; the driver leaves
      `'receiving` if the script rejects a payload. */
  function Flushed<S, M>(script: Script<S, M>, d: DriverState<S, M>): (f: DriverState<S, M>)
    ensures f.active == d.active && f.messages == d.messages
    ensures d.log <= f.log <= d.log + d.messages
    ensures f.live ==> f.log == d.log + d.messages
  {
    var r := Deliver(script, d.bound, d.messages);
    d.(bound := r.state, log := d.log + d.messages[..r.handed], live := r.ok)
  }

  /** One arm of `match (msg, active)`.  Only `Start` activates a driver and
      only `Pause` deactivates a running one; `Cut` always stops it; a cue
      reaches the script only through an active driver, and the buffer only
      reaches it on `Start` or `Cut`. */
  function Step<S, M>(script: Script<S, M>, d: DriverState<S, M>, msg: Message<M>): (r: DriverState<S, M>)
    requires d.live
    ensures r.active && !d.active ==> msg.Start?
    ensures d.active && !r.active && r.live ==> msg.Pause?
    ensures msg.Cut? ==> !r.live
    ensures d.log <= r.log
    ensures r.log != d.log ==> msg.Start? || msg.Cut? || (msg.Cue? && d.active)
  {
    match (msg, d.active)
    case (Cue(data), false) => d.(messages := d.messages + [data])
    case (Cue(data), true) =>
      var (s, r) := script(d.bound, data);
      d.(bound := s, log := d.log + [data], live := r.Ok?)
    case (Start, false) =>
      var f := Flushed(script, d);
      if f.live then f.(messages := [], active := true) else f
    case (Pause, true) => d.(active := false)
    case (Cut, _) => Flushed(script, d).(live := false)
    case _ => d
  }

  /** `Start` to an inactive driver whose script accepts the whole buffer
      hands it every buffered payload in buffer order, then empties the buffer
      and becomes active. */
  lemma StartFlushes<S, M>(script: Script<S, M>, d: DriverState<S, M>)
    requires d.live && !d.active && NoFailure(script, d.bound, d.messages)
    ensures Step(script, d, Start) ==
      d.(bound := Fold(script, d.bound, d.messages), log := d.log + d.messages, messages := [], active := true)
  {
    DeliverAll(script, d.bound, d.messages);
    assert d.messages[..|d.messages|] == d.messages;
  }

  /** `Pause` to a running driver only clears the flag: the buffer, the
      handed payloads and the private state stay as they were.  `Start` to an
      active driver and `Pause` to an inactive one fall into `_ => ()` and
      change nothing. */
  lemma PauseAndIgnored<S, M>(script: Script<S, M>, d: DriverState<S, M>)
    requires d.live
    ensures d.active ==> Step(script, d, Pause) == d.(active := false)
    ensures d.active ==> Step(script, d, Start) == d
    ensures !d.active ==> Step(script, d, Pause) == d
  {
  }

  /** If the script rejects the `k`-th buffered payload of a `Start` flush
      and none before it, the driver leaves `'receiving` right there: the
      payloads after it are never handed over and it stays inactive. */
  lemma StartFlushStopsAt<S, M>(script: Script<S, M>, d: DriverState<S, M>, k: nat)
    requires d.live && !d.active && k < |d.messages|
    requires FailsAt(script, d.bound, d.messages, k)
    requires forall j :: 0 <= j < k ==> !FailsAt(script, d.bound, d.messages, j)
    ensures var d' := Step(script, d, Start);
      !d'.live && !d'.active && d'.log == d.log + d.messages[..k + 1] &&
      d'.bound == Fold(script, d.bound, d.messages[..k + 1])
  {
    DeliverSpec(script, d.bound, d.messages);
  }

  /** The result of feeding messages to a driver: its new state and how many
      messages it received before leaving `'receiving`. */
  datatype Fed<S, M> = Fed(driver: DriverState<S, M>, taken: nat)

  /** `while let Ok(msg) = rx.recv()` over the messages waiting in the
      mailbox: receives them in order until the driver leaves the loop. */
  function Feed<S, M>(script: Script<S, M>, d: DriverState<S, M>, msgs: seq<Message<M>>): (f: Fed<S, M>)
    ensures f.taken <= |msgs|
    ensures f.driver.live ==> f.taken == |msgs|
    decreases |msgs|
  {
    if !d.live || msgs == [] then Fed(d, 0)
    else
      var f := Feed(script, Step(script, d, msgs[0]), msgs[1..]);
      Fed(f.driver, f.taken + 1)
  }

  /** What holds of a driver that started with private state `s0` and has
      received `consumed`:
      - an active driver has nothing buffered;
      - the private state is what the handed payloads lead to;
      - the handed payloads are the first cued ones, in cue order, and while
        the driver runs they and the buffer are all the cued ones;
      - the script accepted every handed payload but possibly the last, and
        all of them while the driver runs. */
  ghost predicate Consistent<S, M>(script: Script<S, M>, s0: S, d: DriverState<S, M>, consumed: seq<Message<M>>)
  {
    (d.active ==> d.messages == []) &&
    d.bound == Fold(script, s0, d.log) &&
    d.log <= Payloads(consumed) &&
    (d.live ==> d.log + d.messages == Payloads(consumed) && NoFailure(script, s0, d.log)) &&
    (forall k :: 0 <= k < |d.log| - 1 ==> !FailsAt(script, s0, d.log, k))
  }

  /** Failures along `a + b` are failures along `a`, then failures along `b`
      from the state `a` leads to. */
  lemma FailsAtAppend<S, M>(script: Script<S, M>, s: S, a: seq<M>, b: seq<M>, k: nat)
    requires k < |a| + |b|
    ensures FailsAt(script, s, a + b, k) ==
      if k < |a| then FailsAt(script, s, a, k) else FailsAt(script, Fold(script, s, a), b, k - |a|)
  {
    if k < |a| {
      assert (a + b)[..k] == a[..k];
    } else {
      assert (a + b)[..k] == a + b[..k - |a|];
      FoldAppend(script, s, a, b[..k - |a|]);
    }
  }

  /** Failures along a prefix are failures along the whole sequence. */
  lemma FailsAtPrefix<S, M>(script: Script<S, M>, s: S, ds: seq<M>, h: nat, k: nat)
    requires k < h <= |ds|
    ensures FailsAt(script, s, ds[..h], k) == FailsAt(script, s, ds, k)
  {
    assert ds[..h][..k] == ds[..k];
  }

  /** Flushing the buffer of a running, consistent driver hands the script a
      prefix of the buffer and keeps the state and failure facts. */
  lemma FlushedConsistent<S, M>(script: Script<S, M>, s0: S, d: DriverState<S, M>, consumed: seq<Message<M>>)
    requires d.live && Consistent(script, s0, d, consumed)
    ensures var f := Flushed(script, d);
      f.active == d.active && f.messages == d.messages &&
      f.bound == Fold(script, s0, f.log) &&
      f.log <= d.log + d.messages &&
      (f.live ==> f.log == d.log + d.messages && NoFailure(script, s0, f.log)) &&
      (forall k :: 0 <= k < |f.log| - 1 ==> !FailsAt(script, s0, f.log, k))
  {
    var r := Deliver(script, d.bound, d.messages);
    DeliverSpec(script, d.bound, d.messages);
    var h := d.messages[..r.handed];
    var f := Flushed(script, d);
    assert f.log == d.log + h;
    FoldAppend(script, s0, d.log, h);
    assert d.log + d.messages == f.log + d.messages[r.handed..];
    if r.ok {
      assert h == d.messages;
    }
    forall k | 0 <= k < |f.log| - (if f.live then 0 else 1)
      ensures !FailsAt(script, s0, f.log, k)
    {
      FailsAtAppend(script, s0, d.log, h, k);
      if k >= |d.log| {
        FailsAtPrefix(script, d.bound, d.messages, r.handed, k - |d.log|);
      }
    }
  }

  /** One received message keeps a running driver consistent. */
  lemma StepConsistent<S, M>(script: Script<S, M>, s0: S, d: DriverState<S, M>, consumed: seq<Message<M>>, msg: Message<M>)
    requires d.live && Consistent(script, s0, d, consumed)
    ensures Consistent(script, s0, Step(script, d, msg), consumed + [msg])
  {
    PayloadsAppend(consumed, [msg]);
    assert Payloads([msg]) == if msg.Cue? then [msg.data] else [] by {
      assert [msg][1..] == [];
    }
    var d' := Step(script, d, msg);
    match (msg, d.active)
    case (Cue(data), false) =>
    case (Cue(data), true) =>
      FoldAppend(script, s0, d.log, [data]);
      assert [data][1..] == [];
      forall k | 0 <= k < |d'.log| - (if d'.live then 0 else 1)
        ensures !FailsAt(script, s0, d'.log, k)
      {
        FailsAtAppend(script, s0, d.log, [data], k);
      }
    case (Start, false) =>
      FlushedConsistent(script, s0, d, consumed);
    case (Pause, true) =>
    case (Cut, _) =>
      FlushedConsistent(script, s0, d, consumed);
    case _ =>
  }

  /** Receiving a sequence of messages keeps a driver consistent. */
  lemma {:induction false} FeedConsistent<S, M>(script: Script<S, M>, s0: S, d: DriverState<S, M>, consumed: seq<Message<M>>, msgs: seq<Message<M>>)
    requires Consistent(script, s0, d, consumed)
    ensures var f := Feed(script, d, msgs);
      Consistent(script, s0, f.driver, consumed + msgs[..f.taken])
    decreases |msgs|
  {
    if d.live && msgs != [] {
      StepConsistent(script, s0, d, consumed, msgs[0]);
      FeedConsistent(script, s0, Step(script, d, msgs[0]), consumed + [msgs[0]], msgs[1..]);
      var f := Feed(script, Step(script, d, msgs[0]), msgs[1..]);
      assert consumed + [msgs[0]] + msgs[1..][..f.taken] == consumed + msgs[..f.taken + 1];
    } else {
      assert consumed + msgs[..0] == consumed;
    }
  }

  /** The driver's guarantees over any sequence of received messages, from
      spawning on:
      - the script is handed the cued payloads in the order they were cued,
        with nothing skipped or repeated, across any number of pauses and
        starts, and the driver's private state is what they lead to;
      - while the driver runs, every payload cued so far has been handed to
        the script or is still buffered, and an active driver buffers nothing;
      - once the script rejects a payload it is handed nothing more. */
  lemma Delivers<S, M>(script: Script<S, M>, s0: S, msgs: seq<Message<M>>)
    ensures var f := Feed(script, Init(s0), msgs);
      f.driver.log <= Payloads(msgs[..f.taken]) &&
      f.driver.bound == Fold(script, s0, f.driver.log) &&
      (f.driver.active ==> f.driver.messages == []) &&
      (f.driver.live ==> f.driver.log + f.driver.messages == Payloads(msgs)) &&
      (forall k :: 0 <= k < |f.driver.log| - 1 ==> !FailsAt(script, s0, f.driver.log, k))
  {
    assert Consistent(script, s0, Init<S, M>(s0), []);
    FeedConsistent(script, s0, Init(s0), [], msgs);
    var f := Feed(script, Init(s0), msgs);
    assert [] + msgs[..f.taken] == msgs[..f.taken];
    if f.driver.live {
      assert msgs[..f.taken] == msgs;
    }
  }

  /** Feeding in two parts is feeding the whole, while the driver runs. */
  lemma {:induction false} FeedAppend<S, M>(script: Script<S, M>, d: DriverState<S, M>, a: seq<Message<M>>, b: seq<Message<M>>)
    requires Feed(script, d, a).driver.live
    ensures Feed(script, d, a + b) ==
      var g := Feed(script, Feed(script, d, a).driver, b); Fed(g.driver, |a| + g.taken)
    decreases |a|
  {
    if a == [] {
      assert a + b == b;
    } else {
      assert (a + b)[0] == a[0] && (a + b)[1..] == a[1..] + b;
      FeedAppend(script, Step(script, d, a[0]), a[1..], b);
    }
  }

  /** `Cut` drains: a running driver whose script accepts the payloads cued
      so far hands all of them to the script, in cue order, whether they were
      buffered or not, and then stops receiving; messages behind the `Cut`
      stay in the mailbox. */
  lemma CutDrains<S, M>(script: Script<S, M>, s0: S, pre: seq<Message<M>>, post: seq<Message<M>>)
    requires Feed(script, Init(s0), pre).driver.live
    requires NoFailure(script, s0, Payloads(pre))
    ensures var f := Feed(script, Init(s0), pre + [Cut] + post);
      !f.driver.live && f.taken == |pre| + 1 &&
      f.driver.log == Payloads(pre) && f.driver.bound == Fold(script, s0, Payloads(pre))
  {
    var d := Feed(script, Init(s0), pre).driver;
    Delivers(script, s0, pre);
    assert pre + [Cut] + post == pre + ([Cut] + post);
    FeedAppend(script, Init(s0), pre, [Cut] + post);
    forall k | 0 <= k < |d.messages|
      ensures !FailsAt(script, d.bound, d.messages, k)
    {
      FailsAtAppend(script, s0, d.log, d.messages, |d.log| + k);
    }
    DeliverAll(script, d.bound, d.messages);
    assert d.messages[..|d.messages|] == d.messages;
    FoldAppend(script, s0, d.log, d.messages);
    assert ([Cut] + post)[0] == Cut;
  }

  /** A script that rejects a payload stops the driver at once: a running
      driver that hands `x` to its script and gets an error back receives no
      further message, even one already waiting. */
  lemma RejectionStops<S, M>(script: Script<S, M>, s0: S, pre: seq<Message<M>>, x: M, post: seq<Message<M>>)
    requires Feed(script, Init(s0), pre).driver.live
    requires Feed(script, Init(s0), pre).driver.active
    requires script(Feed(script, Init(s0), pre).driver.bound, x).1.Err?
    ensures var f := Feed(script, Init(s0), pre + [Cue(x)] + post);
      !f.driver.live && f.taken == |pre| + 1 &&
      f.driver.log == Payloads(pre) + [x]
  {
    Delivers(script, s0, pre);
    assert pre + [Cue(x)] + post == pre + ([Cue(x)] + post);
    FeedAppend(script, Init(s0), pre, [Cue(x)] + post);
    assert ([Cue(x)] + post)[0] == Cue(x);
  }

  /** A script that never rejects anything. */
  ghost predicate AcceptsAll<S(!new), M(!new)>(script: Script<S, M>)
  {
    forall s: S, m: M :: script(s, m).1 == Ok
  }

  /** With such a script the driver only stops at a `Cut`, and by then it has
      handed over every payload cued before it. */
  lemma OnlyCutStops<S(!new), M(!new)>(script: Script<S, M>, s0: S, msgs: seq<Message<M>>)
    requires AcceptsAll(script)
    ensures var f := Feed(script, Init(s0), msgs);
      !f.driver.live ==> f.taken > 0 && msgs[f.taken - 1] == Cut && f.driver.log == Payloads(msgs[..f.taken - 1])
  {
    var f := Feed(script, Init(s0), msgs);
    if !f.driver.live {
      var n := FirstStop(script, Init(s0), msgs);
      assert msgs[..n] + [msgs[n]] + msgs[n + 1..] == msgs;
      assert msgs[n] == Cut by {
        StopIsCut(script, Init(s0), msgs);
      }
      forall k | 0 <= k < |Payloads(msgs[..n])|
        ensures !FailsAt(script, s0, Payloads(msgs[..n]), k)
      {
      }
      CutDrains(script, s0, msgs[..n], msgs[n + 1..]);
      assert msgs[..n + 1][..n] == msgs[..n];
    }
  }

  /** The index of the message a driver stops on. */
  function FirstStop<S, M>(script: Script<S, M>, d: DriverState<S, M>, msgs: seq<Message<M>>): (n: nat)
    requires d.live && !Feed(script, d, msgs).driver.live
    ensures n < |msgs| && n + 1 == Feed(script, d, msgs).taken
    ensures Feed(script, d, msgs[..n]).driver.live
    decreases |msgs|
  {
    if !Step(script, d, msgs[0]).live then
      assert msgs[..0] == [];
      0
    else
      var n := FirstStop(script, Step(script, d, msgs[0]), msgs[1..]);
      assert msgs[..n + 1][0] == msgs[0] && msgs[..n + 1][1..] == msgs[1..][..n];
      n + 1
  }

  /** With a script that accepts everything, the message a driver stops on
      is a `Cut`. */
  lemma {:induction false} StopIsCut<S(!new), M(!new)>(script: Script<S, M>, d: DriverState<S, M>, msgs: seq<Message<M>>)
    requires AcceptsAll(script)
    requires d.live && !Feed(script, d, msgs).driver.live
    ensures msgs[FirstStop(script, d, msgs)] == Cut
    decreases |msgs|
  {
    var d' := Step(script, d, msgs[0]);
    if d'.live {
      StopIsCut(script, d', msgs[1..]);
    } else {
      var r := Deliver(script, d.bound, d.messages);
      DeliverSpec(script, d.bound, d.messages);
    }
  }

  /** What a script works on: the values the macro captured for it, and
      what it has cued so far through the handles among them. */
  datatype Captured<C, O> = Captured(values: C, sent: seq<O>)

  /** An `actor` script borrows the captured values: it can cue through the
      handles among them but cannot change them. */
  function Borrowing<C, O, M>(f: (C, M) -> (seq<O>, ActorResult)): Script<Captured<C, O>, M>
  {
    (w: Captured<C, O>, m: M) =>
      var (out, r) := f(w.values, m);
      (Captured(w.values, w.sent + out), r)
  }

  /** An `actor_mut` script borrows the captured values mutably. */
  function Mutating<C, O, M>(f: (C, M) -> (C, seq<O>, ActorResult)): Script<Captured<C, O>, M>
  {
    (w: Captured<C, O>, m: M) =>
      var (c, out, r) := f(w.values, m);
      (Captured(c, w.sent + out), r)
  }

  /** A borrowing script keeps the captured values and appends what it cues. */
  lemma BorrowingCall<C, O, M>(f: (C, M) -> (seq<O>, ActorResult), w: Captured<C, O>, m: M)
    ensures Borrowing(f)(w, m).0.values == w.values
    ensures Borrowing(f)(w, m) == (Captured(w.values, w.sent + f(w.values, m).0), f(w.values, m).1)
  {
  }

  /** A mutating script replaces the captured values and appends what it
      cues. */
  lemma MutatingCall<C, O, M>(f: (C, M) -> (C, seq<O>, ActorResult), w: Captured<C, O>, m: M)
    ensures w.sent <= Mutating(f)(w, m).0.sent
    ensures Mutating(f)(w, m) == (Captured(f(w.values, m).0, w.sent + f(w.values, m).1), f(w.values, m).2)
  {
  }

  /** Everything a borrowing script cues when handed `ds` in order. */
  function Emitted<C, O, M>(f: (C, M) -> (seq<O>, ActorResult), c: C, ds: seq<M>): seq<O>
    decreases |ds|
  {
    if ds == [] then [] else f(c, ds[0]).0 + Emitted(f, c, ds[1..])
  }

  lemma {:induction false} FoldBorrowing<C, O, M>(f: (C, M) -> (seq<O>, ActorResult), c: C, out: seq<O>, ds: seq<M>)
    ensures Fold(Borrowing(f), Captured(c, out), ds) == Captured(c, out + Emitted(f, c, ds))
    decreases |ds|
  {
    if ds == [] {
      assert out + [] == out;
    } else {
      var o := f(c, ds[0]).0;
      assert Borrowing(f)(Captured(c, out), ds[0]).0 == Captured(c, out + o);
      FoldBorrowing(f, c, out + o, ds[1..]);
      assert out + o + Emitted(f, c, ds[1..]) == out + (o + Emitted(f, c, ds[1..]));
    }
  }

  /** An `actor` driver keeps the values it was spawned with, whatever it
      receives, and has cued exactly what its script emitted for each payload
      it was handed, in order. */
  lemma ActorKeepsBound<C, O, M>(f: (C, M) -> (seq<O>, ActorResult), args: C, msgs: seq<Message<M>>)
    ensures var d := Feed(Borrowing(f), Init(Captured(args, [])), msgs).driver;
      d.bound == Captured(args, Emitted(f, args, d.log))
  {
    Delivers(Borrowing(f), Captured(args, []), msgs);
    var d := Feed(Borrowing(f), Init(Captured(args, [])), msgs).driver;
    FoldBorrowing(f, args, [], d.log);
    assert [] + Emitted(f, args, d.log) == Emitted(f, args, d.log);
  }

  /** The driver thread of `actor` or `actor_mut`, which owns the receiving
      end `rx` of its mailbox. */
  class ScriptDriver<C, O, M> {
    const script: Script<Captured<C, O>, M>
    const rx: Channel<Message<M>>
    var bound: Captured<C, O>
    var active: bool
    var messages: seq<M>
    var live: bool
    /** The payloads handed to the script so far. */
    ghost var log: seq<M>
    /** The control messages received so far. */
    ghost var consumed: seq<Message<M>>
    /** What the driver was spawned with. */
    ghost const initial: Captured<C, O>

    ghost function Snapshot(): DriverState<Captured<C, O>, M>
      reads this
    {
      DriverState(bound, active, messages, live, log)
    }

    ghost predicate Valid()
      reads this
    {
      Consistent(script, initial, Snapshot(), consumed)
    }

    /** The thread of `actor!(script, args...)`: the script only borrows
        `args`. */
    constructor Actor(f: (C, M) -> (seq<O>, ActorResult), args: C, rx: Channel<Message<M>>)
      ensures Valid() && Snapshot() == Init(Captured(args, [])) && consumed == []
      ensures script == Borrowing(f) && this.rx == rx
    {
      script, this.rx := Borrowing(f), rx;
      initial := Captured(args, []);
      bound, active, messages, live := Captured(args, []), false, [], true;
      log, consumed := [], [];
    }

    /** The thread of `actor_mut!(script, args...)`: the script borrows
        `args` mutably. */
    constructor ActorMut(f: (C, M) -> (C, seq<O>, ActorResult), args: C, rx: Channel<Message<M>>)
      ensures Valid() && Snapshot() == Init(Captured(args, [])) && consumed == []
      ensures script == Mutating(f) && this.rx == rx
    {
      script, this.rx := Mutating(f), rx;
      initial := Captured(args, []);
      bound, active, messages, live := Captured(args, []), false, [], true;
      log, consumed := [], [];
    }

    /** `for data in messages { if script(data, ...).is_err() { break 'receiving; } }` */
    method Flush()
      requires live
      modifies this
      ensures Snapshot() == Flushed(script, old(Snapshot()))
      ensures consumed == old(consumed)
    {
      var i := 0;
      while i < |messages|
        invariant 0 <= i <= |messages|
        invariant live && messages == old(messages) && active == old(active) && consumed == old(consumed)
        invariant log == old(log) + messages[..i]
        invariant var rest := Deliver(script, bound, messages[i..]);
          Deliver(script, old(bound), messages) == Delivered(rest.state, rest.handed + i, rest.ok)
      {
        var (s, r) := script(bound, messages[i]);
        assert messages[i..][0] == messages[i] && messages[i..][1..] == messages[i + 1..];
        assert messages[..i + 1] == messages[..i] + [messages[i]];
        bound := s;
        log := log + [messages[i]];
        if r.Err? {
          live := false;
          return;
        }
        i := i + 1;
      }
      assert messages[..i] == messages;
    }

    /** One pass of `match (msg, active)`. */
    method Receive(msg: Message<M>)
      requires live && Valid()
      modifies this
      ensures Valid()
      ensures Snapshot() == Step(script, old(Snapshot()), msg)
      ensures consumed == old(consumed) + [msg]
    {
      StepConsistent(script, initial, Snapshot(), consumed, msg);
      match (msg, active) {
        case (Cue(data), false) =>
          messages := messages + [data];
        case (Cue(data), true) =>
          var (s, r) := script(bound, data);
          bound := s;
          log := log + [data];
          if r.Err? {
            live := false;
          }
        case (Start, false) =>
          Flush();
          if live {
            messages := [];
            active := true;
          }
        case (Pause, true) =>
          active := false;
        case (Cut, _) =>
          Flush();
          live := false;
        case _ =>
      }
      consumed := consumed + [msg];
    }

    /** The thread body: receives what is waiting in the mailbox until the
        driver leaves `'receiving`.  On an empty mailbox it returns while still
        running if a sender remains (the thread would block in `recv`), and
        leaves the loop otherwise, dropping whatever it still buffers.  Once
        it has left, its receiving end is dropped, so later sends fail. */
    method Run()
      requires Valid()
      modifies this, rx
      ensures Valid()
      ensures var f := Feed(script, old(Snapshot()), old(rx.queue));
        rx.queue == old(rx.queue)[f.taken..] &&
        consumed == old(consumed) + old(rx.queue)[..f.taken] &&
        Snapshot() == if f.driver.live && rx.hungUp then f.driver.(live := false) else f.driver
      ensures rx.closed == (old(rx.closed) || !live) && rx.hungUp == old(rx.hungUp)
    {
      ghost var q0 := rx.queue;
      ghost var n := 0;
      while live
        invariant Valid()
        invariant 0 <= n <= |q0| && rx.queue == q0[n..]
        invariant consumed == old(consumed) + q0[..n]
        invariant Feed(script, old(Snapshot()), q0).driver == Feed(script, Snapshot(), rx.queue).driver
        invariant Feed(script, old(Snapshot()), q0).taken == n + Feed(script, Snapshot(), rx.queue).taken
        invariant rx.closed == old(rx.closed) && rx.hungUp == old(rx.hungUp)
        decreases |rx.queue|
      {
        var r := rx.TryRecv();
        match r {
          case Got(msg) =>
            assert q0[..n + 1] == q0[..n] + [msg];
            Receive(msg);
            n := n + 1;
          case Empty =>
            break;
          case Disconnected =>
            live := false;
            break;
        }
      }
      if !live {
        rx.CloseReceiver();
      }
    }
  }
  /** `actor!(script, args...)`: a fresh mailbox, a driver thread owning its
      receiving end, and an `Actor` handle on its sending end. */
  method SpawnActor<C, O, M>(f: (C, M) -> (seq<O>, ActorResult), args: C)
    returns (driver: ScriptDriver<C, O, M>, mailbox: Channel<Message<M>>, handle: Actor<M>)
    ensures fresh(driver) && fresh(mailbox)
    ensures mailbox.queue == [] && !mailbox.closed && !mailbox.hungUp
    ensures handle == Actor.Actor(mailbox)
    ensures driver.Valid() && driver.Snapshot() == Init(Captured(args, [])) && driver.consumed == []
    ensures driver.script == Borrowing(f) && driver.rx == mailbox
  {
    mailbox := new Channel<Message<M>>();
    driver := new ScriptDriver.Actor(f, args, mailbox);
    handle := Actor.Actor(mailbox);
  }

  /** `actor_mut!(script, args...)`: as `SpawnActor`, but the handle is an
      `ActorMut`, which refuses to be duplicated, so the mutable actor's
      mailbox has a single producer handle. */
  method SpawnActorMut<C, O, M>(f: (C, M) -> (C, seq<O>, ActorResult), args: C)
    returns (driver: ScriptDriver<C, O, M>, mailbox: Channel<Message<M>>, handle: Actor<M>)
    ensures fresh(driver) && fresh(mailbox)
    ensures mailbox.queue == [] && !mailbox.closed && !mailbox.hungUp
    ensures handle == Actor.ActorMut(mailbox) && handle.Duplicate() == None
    ensures driver.Valid() && driver.Snapshot() == Init(Captured(args, [])) && driver.consumed == []
    ensures driver.script == Mutating(f) && driver.rx == mailbox
  {
    mailbox := new Channel<Message<M>>();
    driver := new ScriptDriver.ActorMut(f, args, mailbox);
    handle := Actor.ActorMut(mailbox);
  }
}
