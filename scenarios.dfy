/** The test `actors_can_be_cued_all` and the stages of `actors_work` in
    src/actors/mod.rs:100-134, and the general facts they are instances of.
    What a script cues to the handles it was given is the `sent` part of its
    `Captured` state. */
module Scenarios {
  import opened Actors
  import opened Mailbox
  import opened Delivery
  import opened Drivers
  import opened Loops

  /** Cues received by a driver that has not been started are all buffered,
      in order, and none reaches the script. */
  lemma {:induction false} CuesBuffered<S, M>(script: Script<S, M>, d: DriverState<S, M>, xs: seq<M>)
    requires d.live && !d.active
    ensures Feed(script, d, CueMessages(xs)) == Fed(d.(messages := d.messages + xs), |xs|)
    decreases |xs|
  {
    if xs == [] {
      assert d.messages + xs == d.messages;
    } else {
      assert CueMessages(xs)[1..] == CueMessages(xs[1..]);
      CuesBuffered(script, d.(messages := d.messages + [xs[0]]), xs[1..]);
      assert d.messages + [xs[0]] + xs[1..] == d.messages + xs;
    }
  }

  /** Cues received by an active driver are handed to the script at once,
      in order, and none is buffered. */
  lemma {:induction false} CuesRun<S, M>(script: Script<S, M>, d: DriverState<S, M>, xs: seq<M>)
    requires d.live && d.active && d.messages == []
    requires NoFailure(script, d.bound, xs)
    ensures Feed(script, d, CueMessages(xs)) ==
      Fed(d.(bound := Fold(script, d.bound, xs), log := d.log + xs), |xs|)
    decreases |xs|
  {
    if xs == [] {
      assert d.log + xs == d.log;
    } else {
      assert CueMessages(xs)[1..] == CueMessages(xs[1..]);
      assert xs[..0] == [];
      assert !FailsAt(script, d.bound, xs, 0);
      var (s1, r) := script(d.bound, xs[0]);
      forall k | 0 <= k < |xs[1..]|
        ensures !FailsAt(script, s1, xs[1..], k)
      {
        FailsAtTail(script, d.bound, xs, k);
      }
      CuesRun(script, d.(bound := s1, log := d.log + [xs[0]]), xs[1..]);
      assert d.log + [xs[0]] + xs[1..] == d.log + xs;
    }
  }

  /** A driver that is cued `xs` and then cut, without ever being started,
      hands all of `xs` to its script in order, as long as the script
      accepts them. */
  lemma NeverStartedCutDelivers<S, M>(script: Script<S, M>, s0: S, xs: seq<M>)
    requires NoFailure(script, s0, xs)
    ensures var f := Feed(script, Init(s0), CueMessages(xs) + [Cut]);
      !f.driver.live && f.driver.log == xs && f.driver.bound == Fold(script, s0, xs)
  {
    CuesBuffered(script, Init(s0), xs);
    PayloadsOfCueMessages(xs);
    CutDrains(script, s0, CueMessages(xs), []);
    assert CueMessages(xs) + [Cut] + [] == CueMessages(xs) + [Cut];
  }

  /** `double`: cues twice the payload to the next actor through the handle
      it borrows, and returns `Ok` whenever that cue succeeds; the cue is
      recorded in `sent` and assumed to succeed.  The handle is the only
      captured value. */
  function Double(next: (), msg: int): (r: (seq<int>, ActorResult))
    ensures r.1 == Ok && |r.0| == 1 && r.0[0] == 2 * msg
  {
    ([msg * 2], Ok)
  }

  /** `sum`: adds the payload to its counter, cues the new total to the next
      actor, and calls `CurtainCall` once the total reaches 5. */
  function Sum(x: int, msg: int): (r: (int, seq<int>, ActorResult))
    ensures r.0 == x + msg && r.1 == [r.0]
    ensures r.2.Err? <==> r.0 == 5
  {
    var y := x + msg;
    (y, [y], if y == 5 then CurtainCall() else Ok)
  }

  /** `actors_can_be_cued_all`: `double`, cued 0 to 4 and then cut, passes
      `[0, 2, 4, 6, 8]` on. */
  lemma CuedAllThenCut()
    ensures var f := Feed(Borrowing(Double), Init(Captured((), [])), CueMessages([0, 1, 2, 3, 4]) + [Cut]);
      !f.driver.live && f.driver.bound == Captured((), [0, 2, 4, 6, 8])
  {
    var xs := [0, 1, 2, 3, 4];
    forall k | 0 <= k < |xs|
      ensures !FailsAt(Borrowing(Double), Captured((), []), xs, k)
    {
      BorrowingCall(Double, Fold(Borrowing(Double), Captured((), []), xs[..k]), xs[k]);
    }
    NeverStartedCutDelivers(Borrowing(Double), Captured((), []), xs);
    FoldBorrowing(Double, (), [], xs);
    assert Emitted(Double, (), xs) == [0, 2, 4, 6, 8] by {
      assert xs[1..] == [1, 2, 3, 4] && xs[1..][1..] == [2, 3, 4];
      assert xs[1..][1..][1..] == [3, 4] && xs[1..][1..][1..][1..] == [4];
      assert [4][1..] == [];
    }
  }

  /** One cue of 1 to `sum`'s active driver, checked against the expected
      next state. */
  lemma SumCue(d: DriverState<Captured<int, int>, int>, bound: Captured<int, int>, log: seq<int>, live: bool)
    returns (d': DriverState<Captured<int, int>, int>)
    requires d.live && d.active && d.messages == []
    requires bound == Captured(d.bound.values + 1, d.bound.sent + [d.bound.values + 1])
    requires log == d.log + [1] && live == (d.bound.values + 1 != 5)
    ensures d' == Step(Mutating(Sum), d, Cue(1)) && d' == DriverState(bound, true, [], live, log)
  {
    MutatingCall(Sum, d.bound, 1);
    d' := Step(Mutating(Sum), d, Cue(1));
  }

  /** A running driver receives the first waiting message, then the rest. */
  lemma FeedFirst<S, M>(script: Script<S, M>, d: DriverState<S, M>, m: Message<M>, rest: seq<Message<M>>)
    requires d.live
    ensures Feed(script, d, [m] + rest) ==
      var f := Feed(script, Step(script, d, m), rest); Fed(f.driver, f.taken + 1)
  {
  }

  /** Starting a driver with an empty buffer only makes it active. */
  lemma StartEmpty<S, M>(script: Script<S, M>, d: DriverState<S, M>) returns (d': DriverState<S, M>)
    requires d.live && !d.active && d.messages == []
    ensures d' == Step(script, d, Start) && d' == d.(active := true)
  {
    d' := Step(script, d, Start);
    assert d.messages[..0] == [] && d.log + [] == d.log;
  }

  /** `sum`'s driver started and cued 1 twice: it has counted to 2. */
  lemma SumCountsToTwo()
    returns (d1: DriverState<Captured<int, int>, int>, d2: DriverState<Captured<int, int>, int>,
             d3: DriverState<Captured<int, int>, int>)
    ensures d1 == Step(Mutating(Sum), Init(Captured(0, [])), Start)
    ensures d1.live && d2 == Step(Mutating(Sum), d1, Cue(1))
    ensures d2.live && d3 == Step(Mutating(Sum), d2, Cue(1))
    ensures d3 == DriverState(Captured(2, [1, 2]), true, [], true, [1, 1])
  {
    var none: seq<int> := [];
    assert none + [1] == [1];
    assert [1] + [2] == [1, 2] && [1] + [1] == [1, 1];
    d1 := StartEmpty(Mutating(Sum), Init(Captured(0, none)));
    d2 := SumCue(d1, Captured(1, [1]), [1], true);
    d3 := SumCue(d2, Captured(2, [1, 2]), [1, 1], true);
  }

  /** From 2, three more cues of 1 take `sum` to 5, where it stops. */
  lemma SumCountsOnToFive(d3: DriverState<Captured<int, int>, int>)
    returns (d4: DriverState<Captured<int, int>, int>, d5: DriverState<Captured<int, int>, int>,
             d6: DriverState<Captured<int, int>, int>)
    requires d3 == DriverState(Captured(2, [1, 2]), true, [], true, [1, 1])
    ensures d4 == Step(Mutating(Sum), d3, Cue(1))
    ensures d4.live && d5 == Step(Mutating(Sum), d4, Cue(1))
    ensures d5.live && d6 == Step(Mutating(Sum), d5, Cue(1))
    ensures d6 == DriverState(Captured(5, [1, 2, 3, 4, 5]), true, [], false, [1, 1, 1, 1, 1])
  {
    assert [1, 2] + [3] == [1, 2, 3] && [1, 1] + [1] == [1, 1, 1];
    assert [1, 2, 3] + [4] == [1, 2, 3, 4] && [1, 1, 1] + [1] == [1, 1, 1, 1];
    assert [1, 2, 3, 4] + [5] == [1, 2, 3, 4, 5] && [1, 1, 1, 1] + [1] == [1, 1, 1, 1, 1];
    d4 := SumCue(d3, Captured(3, [1, 2, 3]), [1, 1, 1], true);
    d5 := SumCue(d4, Captured(4, [1, 2, 3, 4]), [1, 1, 1, 1], true);
    d6 := SumCue(d5, Captured(5, [1, 2, 3, 4, 5]), [1, 1, 1, 1, 1], false);
  }

  /** The `sum` stage of `actors_work`: started and cued 1 over and over, it
      passes `[1, 2, 3, 4, 5]` on and stops at the fifth cue, leaving the later
      ones in its mailbox. */
  lemma SumStopsAtFive()
    ensures var f := Feed(Mutating(Sum), Init(Captured(0, [])), [Start, Cue(1), Cue(1), Cue(1), Cue(1), Cue(1), Cue(1), Cue(1)]);
      !f.driver.live && f.taken == 6 &&
      f.driver.log == [1, 1, 1, 1, 1] && f.driver.bound == Captured(5, [1, 2, 3, 4, 5])
  {
    var c: Message<int> := Cue(1);
    var d1, d2, d3 := SumCountsToTwo();
    var d4, d5, d6 := SumCountsOnToFive(d3);
    FeedFirst(Mutating(Sum), d5, c, [c, c]);
    FeedFirst(Mutating(Sum), d4, c, [c, c, c]);
    FeedFirst(Mutating(Sum), d3, c, [c, c, c, c]);
    FeedFirst(Mutating(Sum), d2, c, [c, c, c, c, c]);
    FeedFirst(Mutating(Sum), d1, c, [c, c, c, c, c, c]);
    FeedFirst(Mutating(Sum), Init(Captured(0, [])), Start, [c, c, c, c, c, c, c]);
  }

  /** `actors_can_be_cued_all` through the handle `actor!` returns, the
      mailbox and the driver thread: what `double` passes on, and the result
      of cueing the actor once it has finished. */
  method CuedAllThenCutThroughHandle() returns (cued: ActorResult, cut: ActorResult, passedOn: seq<int>, late: ActorResult)
    ensures cued == Ok && cut == Ok
    ensures passedOn == [0, 2, 4, 6, 8]
    ensures late == Err(Unreachable)
  {
    var driver, mailbox, handle := SpawnActor(Double, ());
    cued := handle.CueAll([0, 1, 2, 3, 4]);
    cut := handle.Cut();
    assert mailbox.queue == CueMessages([0, 1, 2, 3, 4]) + [Cut];
    CuedAllThenCut();
    driver.Run();
    passedOn := driver.bound.sent;
    late := handle.Cue(5);
  }

  /** The loop stage of `actors_work`: cues its captured value to the next
      actor, over and over, returning `Ok` whenever that cue succeeds; the
      cue is recorded in `sent` and assumed to succeed. */
  function CueValue(w: Captured<int, int>): (r: (Captured<int, int>, ActorResult))
    ensures r.0 == Captured(w.values, w.sent + [w.values]) && r.1 == Ok
  {
    (Captured(w.values, w.sent + [w.values]), Ok)
  }

  /** The loop actor of `actors_work` as written: its handle is dropped as
      soon as it is built and it is never sent `Start`, so its driver sees a
      disconnected mailbox while idle and exits without calling the script. */
  method LoopActorDroppedAtOnce() returns (phase: LoopPhase, passedOn: seq<int>)
    ensures phase == Exited && passedOn == []
  {
    var mailbox := new Channel<Message<int>>();
    var driver := new LoopDriver(CueValue, Captured(1, []), mailbox);
    mailbox.HangUp();
    driver.Run(10);
    phase := driver.phase;
    passedOn := driver.bound.sent;
  }
}
