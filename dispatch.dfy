/** One pass of the producer's endless `loop`: generate a message, serialize
    it, submit it under its customer-id key, register the delivery task and
    apply backpressure; and a bounded run of such passes. */
module Dispatch {
  import opened Messages
  import opened Pool
  import Decimal

  /** The limit the producer passes to `drain_threadpool`. */
  const ProducerLimit: nat := 1024 * 1024

  /** The record key: `customer_id().to_string()`. */
  function Key(m: Message): (k: string)
    ensures |k| >= 1 && (k[0] == '0' ==> k == "0" && m.CustomerId() == 0)
    ensures forall i :: 0 <= i < |k| ==> Decimal.IsDigit(k[i])
    ensures Decimal.FromDecimal(k) == m.CustomerId()
  {
    Decimal.FromToDecimal(m.CustomerId());
    Decimal.ToDecimal(m.CustomerId())
  }

  /** Every message `with_rng` produces has a four-digit key. */
  lemma GeneratedKeyHasFourDigits(idDraw: U32, consumption: MilliwattHours, clock: ClockNanos)
    requires 0 <= clock
    ensures WithRng(idDraw, consumption, clock).Generated?
    ensures |Key(WithRng(idDraw, consumption, clock).message)| == 4
  {
    Decimal.FourDigits(WithRng(idDraw, consumption, clock).message.CustomerId());
  }

  /** What `send_result` gives: the record was queued, or it was refused. */
  datatype Submit = Accepted | Refused

  /** Why the process stops: the clock panic of `with_rng`, or the `?` on a
      failed `serde_json::to_string`. */
  datatype Fault = TimeWentBackwardsPanic | SerializeFailed

  /** How one pass ends. `Dispatched` and `Dropped` carry the key the record
      was submitted under. */
  datatype PassEnd = Dispatched(key: string) | Dropped(key: string) | Aborted(fault: Fault)

  /** The bookkeeping after a pass that gets as far as the submit: a
      refused submit leaves it as it was; an accepted one registers the
      spawned task and then applies `drain_threadpool`. */
  function PassState(t: Tracker, submit: Submit, limit: nat): (r: Tracker)
  {
    if submit.Refused? then t else MaybeDrainState(RegisterState(t), limit)
  }

  /** Starting below a positive limit, a pass ends below it; the drain fires
      exactly when an accepted push brings the length up to the limit, and
      then joins exactly `limit` handles. */
  lemma PassKeepsBelowLimit(t: Tracker, submit: Submit, limit: nat)
    requires 1 <= limit && |t.handles| < limit
    ensures |PassState(t, submit, limit).handles| < limit
    ensures submit.Accepted? ==> (DrainFires(RegisterState(t).handles, limit) <==> |t.handles| + 1 == limit)
    ensures |PassState(t, submit, limit).joined| == |t.joined| || |PassState(t, submit, limit).joined| == |t.joined| + limit
  {
    MaybeDrainAdmission(RegisterState(t), limit);
  }

  /** The handles in play: held or already joined, with multiplicity. */
  function InPlay(t: Tracker): (m: multiset<HandleId>)
  {
    multiset(t.handles) + multiset(t.joined)
  }

  /** A pass loses no handle: the handles in play before, plus the one an
      accepted submit spawns, are the handles in play afterwards. */
  lemma PassConservesHandles(t: Tracker, submit: Submit, limit: nat)
    ensures PassState(t, submit, limit).next == if submit.Accepted? then t.next + 1 else t.next
    ensures submit.Refused? ==> PassState(t, submit, limit) == t
    ensures submit.Accepted? ==> InPlay(t) + multiset{t.next} == InPlay(PassState(t, submit, limit))
  {
    if submit.Accepted? {
      MaybeDrainConserves(RegisterState(t), limit);
      assert multiset(t.handles + [t.next]) == multiset(t.handles) + multiset{t.next};
    }
  }

  /** One iteration of the producer loop. */
  method Pass(pool: HandlePool, idDraw: U32, consumption: MilliwattHours, clock: ClockNanos,
              serialized: bool, submit: Submit, limit: nat, outcomeOf: HandleId -> JoinOutcome)
    returns (end: PassEnd)
    requires pool.Valid()
    modifies pool
    ensures pool.Valid()
    ensures end.Aborted? <==> clock < 0 || !serialized
    ensures clock < 0 ==> end == Aborted(TimeWentBackwardsPanic)
    ensures 0 <= clock && !serialized ==> end == Aborted(SerializeFailed)
    ensures !end.Aborted? ==>
      && end.key == Key(WithRng(idDraw, consumption, clock).message)
      && (end.Dispatched? <==> submit.Accepted?)
    ensures pool.State() == if end.Aborted? then old(pool.State()) else PassState(old(pool.State()), submit, limit)
  {
    var generated := WithRng(idDraw, consumption, clock);
    if generated.TimeWentBackwards? {
      return Aborted(TimeWentBackwardsPanic);
    }
    var message := generated.message;
    if !serialized {
      return Aborted(SerializeFailed);
    }
    var key := Key(message);
    if submit.Refused? {
      // The error is logged and the loop continues without a push or a drain.
      return Dropped(key);
    }
    var _ := pool.Register();
    pool.MaybeDrain(limit, outcomeOf);
    end := Dispatched(key);
  }

  /** The inputs that decide one pass: the random id draw, the scaled random
      reading, the clock, whether serialization succeeded, and the submit. */
  datatype PassInput = PassInput(idDraw: U32, consumption: MilliwattHours, clock: ClockNanos,
                                 serialized: bool, submit: Submit)

  /** Whether the pass with these inputs gets as far as the submit. */
  predicate Completes(input: PassInput)
  {
    0 <= input.clock && input.serialized
  }

  /** The number of accepted submits among the passes. */
  function AcceptedCount(inputs: seq<PassInput>): (n: nat)
  {
    if inputs == [] then 0
    else AcceptedCount(inputs[..|inputs| - 1]) + (if inputs[|inputs| - 1].submit.Accepted? then 1 else 0)
  }

  /** The bookkeeping after a run of completed passes. */
  function RunState(t: Tracker, inputs: seq<PassInput>, limit: nat): (r: Tracker)
  {
    if inputs == [] then t
    else PassState(RunState(t, inputs[..|inputs| - 1], limit), inputs[|inputs| - 1].submit, limit)
  }

  /** A run of passes is the run without its last pass, followed by that pass. */
  lemma RunStateStep(t: Tracker, inputs: seq<PassInput>, k: nat, limit: nat)
    requires k < |inputs|
    ensures RunState(t, inputs[..k + 1], limit) == PassState(RunState(t, inputs[..k], limit), inputs[k].submit, limit)
  {
    var upTo := inputs[..k + 1];
    assert upTo[..|upTo| - 1] == inputs[..k];
  }

  /** The loop invariant: with a positive limit, the vector stays below the
      limit after every pass. */
  lemma {:induction false} RunStaysBelowLimit(t: Tracker, inputs: seq<PassInput>, limit: nat)
    requires 1 <= limit && |t.handles| < limit
    ensures |RunState(t, inputs, limit).handles| < limit
    decreases |inputs|
  {
    if inputs != [] {
      var before := inputs[..|inputs| - 1];
      RunStaysBelowLimit(t, before, limit);
      PassKeepsBelowLimit(RunState(t, before, limit), inputs[|inputs| - 1].submit, limit);
    }
  }

  /** The invariant holds for the limit the producer actually passes. */
  lemma {:induction false} ProducerRunStaysBelowLimit(t: Tracker, inputs: seq<PassInput>)
    requires |t.handles| < ProducerLimit
    ensures |RunState(t, inputs, ProducerLimit).handles| < ProducerLimit
  {
    RunStaysBelowLimit(t, inputs, ProducerLimit);
  }

  /** The ids `tokio::spawn` hands out from `next` on, `n` of them. */
  function Spawned(next: HandleId, n: nat): (ids: seq<HandleId>)
  {
    seq(n, i requires 0 <= i < n => next + i)
  }

  /** One more accepted submit spawns the next id. */
  lemma SpawnedStep(next: HandleId, n: nat)
    ensures multiset(Spawned(next, n + 1)) == multiset(Spawned(next, n)) + multiset{next + n}
  {
    assert Spawned(next, n + 1) == Spawned(next, n) + [next + n];
  }

  /** No delivery task is lost or joined more often than it was in play:
      one task is spawned per accepted submit, and the handles held or joined
      at the start plus those spawned during the run are, at the end, the
      handles held or joined, each exactly as often as it was in play. */
  lemma {:induction false} RunConservesHandles(t: Tracker, inputs: seq<PassInput>, limit: nat)
    ensures RunState(t, inputs, limit).next == t.next + AcceptedCount(inputs)
    ensures InPlay(t) + multiset(Spawned(t.next, AcceptedCount(inputs))) == InPlay(RunState(t, inputs, limit))
    decreases |inputs|
  {
    if inputs != [] {
      var before := inputs[..|inputs| - 1];
      var mid := RunState(t, before, limit);
      var submit := inputs[|inputs| - 1].submit;
      RunConservesHandles(t, before, limit);
      PassConservesHandles(mid, submit, limit);
      ConservesStep(t, mid, RunState(t, inputs, limit), AcceptedCount(before), AcceptedCount(inputs), submit.Accepted?);
    }
  }

  /** The inductive step of `RunConservesHandles`, over abstract trackers:
      `mid` is the state before the last pass, `after` the state after it. */
  lemma ConservesStep(t: Tracker, mid: Tracker, after: Tracker, n: nat, m: nat, accepted: bool)
    requires mid.next == t.next + n
    requires InPlay(t) + multiset(Spawned(t.next, n)) == InPlay(mid)
    requires accepted ==> m == n + 1 && after.next == mid.next + 1 && InPlay(mid) + multiset{mid.next} == InPlay(after)
    requires !accepted ==> m == n && after == mid
    ensures after.next == t.next + m
    ensures InPlay(t) + multiset(Spawned(t.next, m)) == InPlay(after)
  {
    if accepted {
      SpawnedStep(t.next, n);
      MultisetBalance(InPlay(t), multiset(Spawned(t.next, n)), multiset{mid.next}, InPlay(mid), InPlay(after));
    }
  }

  /** The bookkeeping step of the conservation proof: what a pass adds to
      the handles in play, it adds to the handles held or joined. */
  lemma MultisetBalance(start: multiset<HandleId>, spawned: multiset<HandleId>, extra: multiset<HandleId>,
                        inPlay: multiset<HandleId>, inPlayAfter: multiset<HandleId>)
    requires start + spawned == inPlay
    requires inPlay + extra == inPlayAfter
    ensures start + (spawned + extra) == inPlayAfter
  {
  }

  /** How a bounded run ends: every pass completed, or a fatal fault
      stopped it. */
  datatype RunEnd = Finished | Stopped(fault: Fault)

  /** A bounded run of the producer loop over `inputs`, stopping at the first
      fatal fault. `done` passes complete; `Stopped` names the fault that
      ended the run. */
  method Run(pool: HandlePool, inputs: seq<PassInput>, limit: nat, outcomeOf: HandleId -> JoinOutcome)
    returns (done: nat, end: RunEnd)
    requires pool.Valid() && 1 <= limit && |pool.handles| < limit
    modifies pool
    ensures pool.Valid() && |pool.handles| < limit
    ensures done <= |inputs|
    ensures forall i :: 0 <= i < done ==> Completes(inputs[i])
    ensures end.Stopped? <==> done < |inputs|
    ensures end.Stopped? ==> !Completes(inputs[done])
    ensures end.Stopped? && inputs[done].clock < 0 ==> end.fault == TimeWentBackwardsPanic
    ensures end.Stopped? && 0 <= inputs[done].clock ==> end.fault == SerializeFailed
    ensures pool.State() == RunState(old(pool.State()), inputs[..done], limit)
  {
    done, end := 0, Finished;
    while done < |inputs|
      invariant done <= |inputs|
      invariant pool.Valid()
      invariant forall i :: 0 <= i < done ==> Completes(inputs[i])
      invariant pool.State() == RunState(old(pool.State()), inputs[..done], limit)
      decreases |inputs| - done
    {
      var input := inputs[done];
      var passEnd := Pass(pool, input.idDraw, input.consumption, input.clock, input.serialized,
                          input.submit, limit, outcomeOf);
      if passEnd.Aborted? {
        RunStaysBelowLimit(old(pool.State()), inputs[..done], limit);
        return done, Stopped(passEnd.fault);
      }
      RunStateStep(old(pool.State()), inputs, done, limit);
      done := done + 1;
    }
    assert inputs[..done] == inputs;
    RunStaysBelowLimit(old(pool.State()), inputs, limit);
  }
}
