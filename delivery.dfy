/** Handing a sequence of payloads to a script, one at a time, as the
    `for data in messages { if script(...).is_err() { break 'receiving; } }`
    loops of the mailbox-backed drivers do (src/macros.rs:52-54, 60-62,
    84-86, 92-94). */
module Delivery {
  import opened Actors

  /** A script: from the actor's private state and one payload to its new
      private state and a verdict.  An `actor` script cannot change the
      state; an `actor_mut` script can. */
  type Script<!S, -M> = (S, M) -> (S, ActorResult)

  /** The private state after every payload of `ds` has been handed to the
      script in order, whatever the verdicts. */
  function Fold<S, M>(script: Script<S, M>, s: S, ds: seq<M>): S
    decreases |ds|
  {
    if ds == [] then s else Fold(script, script(s, ds[0]).0, ds[1..])
  }

  /** The script, reached by handing it `ds[..k]` first, rejects `ds[k]`. */
  predicate FailsAt<S, M>(script: Script<S, M>, s: S, ds: seq<M>, k: nat)
    requires k < |ds|
  {
    script(Fold(script, s, ds[..k]), ds[k]).1.Err?
  }

  /** The script accepts every payload of `ds` in turn. */
  predicate NoFailure<S, M>(script: Script<S, M>, s: S, ds: seq<M>)
  {
    forall k :: 0 <= k < |ds| ==> !FailsAt(script, s, ds, k)
  }

  /** The outcome of a delivery: the private state reached, how many payloads
      the script was handed (the rejected one included) and whether it
      accepted them all. */
  datatype Delivered<S> = Delivered(state: S, handed: nat, ok: bool)

  /** The `for data in messages` loop: hands the payloads over in order and
      stops at the first one the script rejects. */
  function Deliver<S, M>(script: Script<S, M>, s: S, ds: seq<M>): (d: Delivered<S>)
    ensures d.handed <= |ds|
    ensures d.ok ==> d.handed == |ds|
    ensures !d.ok ==> d.handed > 0
    decreases |ds|
  {
    if ds == [] then Delivered(s, 0, true)
    else
      var (s1, r) := script(s, ds[0]);
      if r.Err? then Delivered(s1, 1, false)
      else
        var rest := Deliver(script, s1, ds[1..]);
        Delivered(rest.state, rest.handed + 1, rest.ok)
  }

  lemma {:induction false} FoldAppend<S, M>(script: Script<S, M>, s: S, a: seq<M>, b: seq<M>)
    ensures Fold(script, s, a + b) == Fold(script, Fold(script, s, a), b)
    decreases |a|
  {
    if a == [] {
      assert a + b == b;
    } else {
      assert (a + b)[0] == a[0] && (a + b)[1..] == a[1..] + b;
      FoldAppend(script, script(s, a[0]).0, a[1..], b);
    }
  }

  /** Failures after the first payload are failures of the script started
      from the state the first payload leads to. */
  lemma FailsAtTail<S, M>(script: Script<S, M>, s: S, ds: seq<M>, k: nat)
    requires k + 1 < |ds|
    ensures FailsAt(script, s, ds, k + 1) == FailsAt(script, script(s, ds[0]).0, ds[1..], k)
  {
    assert ds[..k + 1][0] == ds[0] && ds[..k + 1][1..] == ds[1..][..k];
  }

  /** The loop's outcome, read against `Fold` and `FailsAt`: the script was
      handed exactly the payloads up to and including the first one it
      rejected, or all of them when it rejected none, and the private state is
      what those payloads lead to. */
  lemma {:induction false} DeliverSpec<S, M>(script: Script<S, M>, s: S, ds: seq<M>)
    ensures Deliver(script, s, ds).state == Fold(script, s, ds[..Deliver(script, s, ds).handed])
    ensures Deliver(script, s, ds).ok <==> NoFailure(script, s, ds)
    ensures !Deliver(script, s, ds).ok ==>
      FailsAt(script, s, ds, Deliver(script, s, ds).handed - 1) &&
      forall k :: 0 <= k < Deliver(script, s, ds).handed - 1 ==> !FailsAt(script, s, ds, k)
    decreases |ds|
  {
    var d := Deliver(script, s, ds);
    if ds == [] {
      assert ds[..0] == [];
    } else {
      var (s1, r) := script(s, ds[0]);
      assert ds[..0] == [];
      assert FailsAt(script, s, ds, 0) == r.Err?;
      if r.Err? {
        assert ds[..1][0] == ds[0] && ds[..1][1..] == [];
      } else {
        var t := ds[1..];
        DeliverSpec(script, s1, t);
        var rest := Deliver(script, s1, t);
        forall k | 0 <= k < |t|
          ensures FailsAt(script, s, ds, k + 1) == FailsAt(script, s1, t, k)
        {
          FailsAtTail(script, s, ds, k);
        }
        assert ds[..d.handed][0] == ds[0] && ds[..d.handed][1..] == t[..rest.handed];
        if NoFailure(script, s1, t) {
          forall k | 0 <= k < |ds|
            ensures !FailsAt(script, s, ds, k)
          {
            if k > 0 {
              assert !FailsAt(script, s1, t, k - 1);
            }
          }
        } else {
          var j :| 0 <= j < |t| && FailsAt(script, s1, t, j);
          assert FailsAt(script, s, ds, j + 1);
          forall k | 0 <= k < d.handed - 1
            ensures !FailsAt(script, s, ds, k)
          {
            if k > 0 {
              assert !FailsAt(script, s1, t, k - 1);
            }
          }
        }
      }
    }
  }

  /** The script stops being handed payloads at the first one it rejects. */
  lemma DeliverStopsAtFirstFailure<S, M>(script: Script<S, M>, s: S, ds: seq<M>, k: nat)
    requires k < |ds| && FailsAt(script, s, ds, k)
    requires forall j :: 0 <= j < k ==> !FailsAt(script, s, ds, j)
    ensures !Deliver(script, s, ds).ok && Deliver(script, s, ds).handed == k + 1
  {
    DeliverSpec(script, s, ds);
  }

  /** A script that accepts everything is handed every payload. */
  lemma DeliverAll<S, M>(script: Script<S, M>, s: S, ds: seq<M>)
    requires NoFailure(script, s, ds)
    ensures Deliver(script, s, ds) == Delivered(Fold(script, s, ds), |ds|, true)
  {
    DeliverSpec(script, s, ds);
    assert ds[..|ds|] == ds;
  }
}
