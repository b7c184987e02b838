/** The loop driver built by the `actor_loop` arm of `actor_expand!`
    (src/macros.rs:103-127): a script with no payload, run over and over once
    the driver has been started.  The mailbox carries only lifecycle
    messages. */
module Loops {
  import opened Actors
  import opened Mailbox

  /** Where the driver's thread is:
      - `Idle`: `active` is false and the thread blocks in `recv`;
      - `Polling`: `active` is true and the thread is about to `try_recv`;
      - `Spinning`: inside the inner `loop`, calling the script until it
        fails, never looking at the mailbox again;
      - `Exited`: out of `'receiving`. */
  datatype LoopPhase = Idle | Polling | Spinning | Exited

  /** A loop script sees only its captured state. */
  type LoopScript<!S> = S -> (S, ActorResult)

  /** The outcome of one look at the mailbox from `Idle` or `Polling`. */
  function Poll<M>(phase: LoopPhase, r: Received<Message<M>>): (p: LoopPhase)
    requires phase == Idle || phase == Polling
    ensures p == Exited <==> r.Disconnected?
    ensures p == Polling <==> phase == Idle && r == Got(Start)
    ensures p == Spinning <==> phase == Polling && !r.Disconnected? && r != Got(Pause)
  {
    if phase == Polling then
      match r
      case Got(Pause) => Idle
      case Got(_) => Spinning
      case Empty => Spinning
      case Disconnected => Exited
    else
      match r
      case Got(Start) => Polling
      case Disconnected => Exited
      case _ => Idle
  }

  /** The outcome of polling: the phase reached and how many messages were
      received. */
  datatype Polled = Polled(phase: LoopPhase, taken: nat)

  /** The outer `'receiving` loop over the messages waiting in the mailbox,
      up to the point where the thread blocks (idle on an empty mailbox that
      still has senders), enters the inner loop or exits. */
  function LoopFeed<M>(phase: LoopPhase, queue: seq<Message<M>>, hungUp: bool): (p: Polled)
    ensures p.taken <= |queue|
    ensures p.phase != Polling
    ensures p.phase == Idle ==> p.taken == |queue| && !hungUp
    ensures (phase == Idle || phase == Polling) && p.phase == Exited ==> p.taken == |queue| && hungUp
    decreases |queue|
  {
    if phase != Idle && phase != Polling then Polled(phase, 0)
    else if queue == [] then
      if phase == Idle && !hungUp then Polled(Idle, 0)
      else Polled(Poll<M>(phase, if hungUp then Disconnected else Empty), 0)
    else
      var p := LoopFeed(Poll(phase, Got(queue[0])), queue[1..], hungUp);
      Polled(p.phase, p.taken + 1)
  }

  /** While idle, only `Start` is acted on: any other message, `Cut`
      included, is received and dropped, and the driver stays idle until the
      mailbox runs dry (or exits if every sender is gone). */
  lemma {:induction false} IdleIgnoresAllButStart<M>(queue: seq<Message<M>>, hungUp: bool)
    requires forall i :: 0 <= i < |queue| ==> !queue[i].Start?
    ensures LoopFeed(Idle, queue, hungUp) == Polled(if hungUp then Exited else Idle, |queue|)
    decreases |queue|
  {
    if queue != [] {
      IdleIgnoresAllButStart(queue[1..], hungUp);
    }
  }

  /** A `Start` wakes an idle driver: it goes on polling with the rest. */
  lemma StartWakes<M>(rest: seq<Message<M>>, hungUp: bool)
    ensures LoopFeed(Idle, [Start] + rest, hungUp) ==
      var p := LoopFeed(Polling, rest, hungUp); Polled(p.phase, p.taken + 1)
  {
    assert ([Start] + rest)[0] == Start && ([Start] + rest)[1..] == rest;
  }

  /** A `Pause` already waiting when a running driver polls is honoured. */
  lemma PendingPauseHonoured<M>(rest: seq<Message<M>>, hungUp: bool)
    ensures LoopFeed(Polling, [Pause] + rest, hungUp) ==
      var p := LoopFeed(Idle, rest, hungUp); Polled(p.phase, p.taken + 1)
  {
    assert ([Pause] + rest)[0] == Pause && ([Pause] + rest)[1..] == rest;
  }

  /** Any other message a running driver polls, `Cut` included, is dropped
      and the driver enters the inner loop; so does an empty mailbox that
      still has senders. */
  lemma PollingSpins<M>(queue: seq<Message<M>>, hungUp: bool)
    requires (queue == [] && !hungUp) || (queue != [] && !queue[0].Pause?)
    ensures LoopFeed(Polling, queue, hungUp) == Polled(Spinning, if queue == [] then 0 else 1)
  {
  }

  /** Once in the inner loop, the driver never receives again. */
  lemma SpinningNeverPolls<M>(queue: seq<Message<M>>, hungUp: bool)
    ensures LoopFeed(Spinning, queue, hungUp) == Polled(Spinning, 0)
  {
  }

  /** The inner `loop { if script(...).is_err() { break 'receiving; } }`, cut
      off after `fuel` calls: the state reached, the number of calls made and
      whether the script failed. */
  datatype Spun<S> = Spun(state: S, calls: nat, exited: bool)

  function Spin<S>(script: LoopScript<S>, s: S, fuel: nat): (r: Spun<S>)
    ensures r.calls <= fuel
    ensures !r.exited ==> r.calls == fuel
    ensures r.exited ==> r.calls > 0
    decreases fuel
  {
    if fuel == 0 then Spun(s, 0, false)
    else
      var (s1, res) := script(s);
      if res.Err? then Spun(s1, 1, true)
      else
        var r := Spin(script, s1, fuel - 1);
        Spun(r.state, r.calls + 1, r.exited)
  }

  /** The state after `k` calls of the script, whatever each returned. */
  function Iterate<S>(script: LoopScript<S>, s: S, k: nat): S
  {
    if k == 0 then s else script(Iterate(script, s, k - 1)).0
  }

  lemma {:induction false} IterateShift<S>(script: LoopScript<S>, s: S, k: nat)
    ensures Iterate(script, script(s).0, k) == Iterate(script, s, k + 1)
  {
    if k > 0 {
      IterateShift(script, s, k - 1);
    }
  }

  /** The inner loop read against `Iterate`: the script is called again and
      again, each time on the state the previous call left, until the first
      call that fails, which exits the driver. */
  lemma {:induction false} SpinSpec<S>(script: LoopScript<S>, s: S, fuel: nat)
    ensures Spin(script, s, fuel).state == Iterate(script, s, Spin(script, s, fuel).calls)
    ensures forall j :: 0 <= j < Spin(script, s, fuel).calls - 1 ==> script(Iterate(script, s, j)).1.Ok?
    ensures Spin(script, s, fuel).exited <==>
      Spin(script, s, fuel).calls > 0 && script(Iterate(script, s, Spin(script, s, fuel).calls - 1)).1.Err?
    decreases fuel
  {
    if fuel > 0 {
      var (s1, res) := script(s);
      if res.Ok? {
        SpinSpec(script, s1, fuel - 1);
        var r := Spin(script, s1, fuel - 1);
        IterateShift(script, s, r.calls);
        if r.calls > 0 {
          IterateShift(script, s, r.calls - 1);
        }
        forall j | 0 <= j < r.calls
          ensures script(Iterate(script, s, j)).1.Ok?
        {
          if j > 0 {
            IterateShift(script, s, j - 1);
          }
        }
      }
    }
  }

  /** Spinning in two stretches is spinning once: cutting the endless inner
      loop into bounded runs does not change what it does. */
  lemma {:induction false} SpinResumes<S>(script: LoopScript<S>, s: S, a: nat, b: nat)
    ensures Spin(script, s, a + b) ==
      var r := Spin(script, s, a);
      if r.exited then r
      else var r' := Spin(script, r.state, b); Spun(r'.state, a + r'.calls, r'.exited)
    decreases a
  {
    if a > 0 {
      var (s1, res) := script(s);
      if res.Ok? {
        SpinResumes(script, s1, a - 1, b);
      }
    }
  }

  /** The driver thread of `actor_loop`, which owns the receiving end `rx`
      of its mailbox. */
  class LoopDriver<S, M> {
    const script: LoopScript<S>
    const rx: Channel<Message<M>>
    var bound: S
    var phase: LoopPhase
    /** How many times the script has been called. */
    ghost var calls: nat

    /** `actor_loop!(script, args...)`: spawned inactive. */
    constructor (f: LoopScript<S>, args: S, rx: Channel<Message<M>>)
      ensures script == f && this.rx == rx && bound == args && phase == Idle && calls == 0
    {
      script, this.rx, bound, phase, calls := f, rx, args, Idle, 0;
    }

    /** The outer `'receiving` loop: polls the mailbox until the thread
        blocks idle on an empty mailbox, enters the inner loop or exits. */
    method Listen()
      requires phase == Idle || phase == Polling
      modifies this, rx
      ensures var p := LoopFeed(old(phase), old(rx.queue), old(rx.hungUp));
        rx.queue == old(rx.queue)[p.taken..] && phase == p.phase
      ensures bound == old(bound) && calls == old(calls)
      ensures rx.closed == old(rx.closed) && rx.hungUp == old(rx.hungUp)
    {
      ghost var q0 := rx.queue;
      ghost var n := 0;
      while phase == Idle || phase == Polling
        invariant 0 <= n <= |q0| && rx.queue == q0[n..]
        invariant rx.closed == old(rx.closed) && rx.hungUp == old(rx.hungUp)
        invariant bound == old(bound) && calls == old(calls)
        invariant LoopFeed(old(phase), q0, rx.hungUp).phase == LoopFeed(phase, rx.queue, rx.hungUp).phase
        invariant LoopFeed(old(phase), q0, rx.hungUp).taken == n + LoopFeed(phase, rx.queue, rx.hungUp).taken
        decreases |rx.queue|, if phase == Idle || phase == Polling then 1 else 0
      {
        if phase == Idle && rx.queue == [] && !rx.hungUp {
          break;
        }
        var r := rx.TryRecv();
        phase := Poll(phase, r);
        if r.Got? {
          n := n + 1;
        }
      }
    }

    /** The inner `loop`: calls the script on its own state until it fails,
        for at most `fuel` calls. */
    method SpinFor(fuel: nat)
      requires phase == Spinning
      modifies this
      ensures var sp := Spin(script, old(bound), fuel);
        bound == sp.state && calls == old(calls) + sp.calls &&
        phase == if sp.exited then Exited else Spinning
    {
      var i := 0;
      while i < fuel
        invariant 0 <= i <= fuel && phase == Spinning && calls == old(calls) + i
        invariant var r := Spin(script, bound, fuel - i);
          Spin(script, old(bound), fuel) == Spun(r.state, r.calls + i, r.exited)
      {
        var (s, res) := script(bound);
        bound := s;
        calls := calls + 1;
        if res.Err? {
          phase := Exited;
          return;
        }
        i := i + 1;
      }
    }

    /** The thread body, run until it blocks idle on an empty mailbox, exits,
        or has spent `fuel` calls in the inner loop.  Once it exits its
        receiving end is dropped. */
    method Run(fuel: nat)
      modifies this, rx
      ensures var p := LoopFeed(old(phase), old(rx.queue), old(rx.hungUp));
        rx.queue == old(rx.queue)[p.taken..] &&
        if p.phase == Spinning then
          var sp := Spin(script, old(bound), fuel);
          bound == sp.state && calls == old(calls) + sp.calls &&
          phase == if sp.exited then Exited else Spinning
        else
          bound == old(bound) && calls == old(calls) && phase == p.phase
      ensures rx.closed == (old(rx.closed) || phase == Exited) && rx.hungUp == old(rx.hungUp)
    {
      if phase == Idle || phase == Polling {
        Listen();
      }
      if phase == Spinning {
        SpinFor(fuel);
      }
      if phase == Exited {
        rx.CloseReceiver();
      }
    }
  }
}
