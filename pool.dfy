/** The backpressure bookkeeping of the producer loop: the vector of
    in-flight delivery tasks and `drain_threadpool`, the two-state admission
    rule that either does nothing or pops and joins every task. */
module Pool {

  /** A `JoinHandle<()>` of a spawned delivery task, as an opaque id. */
  type HandleId = int

  /** What joining a task yields: `Ok(())`, or a `JoinError` when the task
      panicked or was cancelled. Nothing else about a join is modelled. */
  datatype JoinOutcome = Joined | JoinFailed

  /** The bookkeeping as a value: the handles held, in push order; the id
      the next `tokio::spawn` hands out; the handles joined so far, in join
      order. */
  datatype Tracker = Tracker(handles: seq<HandleId>, next: HandleId, joined: seq<HandleId>)

  /** Every held handle was handed out, and they are held in push order, so
      no handle is held twice. */
  predicate Issued(t: Tracker)
  {
    && (forall i :: 0 <= i < |t.handles| ==> t.handles[i] < t.next)
    && (forall i, j :: 0 <= i < j < |t.handles| ==> t.handles[i] < t.handles[j])
  }

  /** The order in which `while let Some(thread) = handles.pop()` visits a
      vector: last pushed first. */
  function PopOrder(s: seq<HandleId>): (r: seq<HandleId>)
    ensures |r| == |s|
    decreases |s|
  {
    if s == [] then [] else [s[|s| - 1]] + PopOrder(s[..|s| - 1])
  }

  /** The `k`-th handle popped is the `k`-th from the end. */
  lemma {:induction false} PopOrderAt(s: seq<HandleId>, k: nat)
    requires k < |s|
    ensures PopOrder(s)[k] == s[|s| - 1 - k]
    decreases |s|
  {
    if k > 0 {
      PopOrderAt(s[..|s| - 1], k - 1);
    }
  }

  /** Popping to empty joins every handle exactly as often as it is held:
      each held handle once, none twice, none left out. */
  lemma {:induction false} PopOrderIsPermutation(s: seq<HandleId>)
    ensures multiset(PopOrder(s)) == multiset(s)
    decreases |s|
  {
    if s != [] {
      PopOrderIsPermutation(s[..|s| - 1]);
      assert s == s[..|s| - 1] + [s[|s| - 1]];
    }
  }

  /** Whether `drain_threadpool` drains: at `len >= limit`, not only when the
      limit is exceeded. */
  predicate DrainFires(s: seq<HandleId>, limit: nat)
  {
    limit <= |s|
  }

  /** `handles.push(tokio::spawn(...))` on the bookkeeping value. */
  function RegisterState(t: Tracker): (r: Tracker)
  {
    t.(handles := t.handles + [t.next], next := t.next + 1)
  }

  /** `drain_threadpool(&mut handles, limit)` on the bookkeeping value. */
  function MaybeDrainState(t: Tracker, limit: nat): (r: Tracker)
  {
    if DrainFires(t.handles, limit) then t.(handles := [], joined := t.joined + PopOrder(t.handles)) else t
  }

  /** Registering hands out an id not held yet and keeps the handles issued. */
  lemma RegisterKeepsIssued(t: Tracker)
    requires Issued(t)
    ensures Issued(RegisterState(t))
    ensures t.next !in t.handles
  {
  }

  /** Below the limit the call is a no-op; at or above it the vector ends
      empty and the handles it held are joined last pushed first; with a
      positive limit the vector is always left below the limit. */
  lemma MaybeDrainAdmission(t: Tracker, limit: nat)
    ensures |t.handles| < limit ==> MaybeDrainState(t, limit) == t
    ensures limit <= |t.handles| ==>
      && MaybeDrainState(t, limit).handles == []
      && MaybeDrainState(t, limit).joined == t.joined + PopOrder(t.handles)
    ensures 1 <= limit ==> |MaybeDrainState(t, limit).handles| < limit
    ensures MaybeDrainState(t, limit).next == t.next
  {
  }

  /** A drain loses no handle and joins none twice: what was held is, after
      the call, held or joined, each exactly once. */
  lemma MaybeDrainConserves(t: Tracker, limit: nat)
    ensures multiset(t.handles) + multiset(t.joined)
         == multiset(MaybeDrainState(t, limit).handles) + multiset(MaybeDrainState(t, limit).joined)
  {
    if DrainFires(t.handles, limit) {
      PopOrderIsPermutation(t.handles);
    }
  }

  /** The `handles` vector of the producer loop, with the id the next
      `tokio::spawn` hands out and the handles joined so far, in join order. */
  class HandlePool {
    var handles: seq<HandleId>
    var nextHandle: HandleId
    var joined: seq<HandleId>

    /** The pool's bookkeeping as a value. */
    function State(): (t: Tracker)
      reads this
    {
      Tracker(handles, nextHandle, joined)
    }

    ghost predicate Valid()
      reads this
    {
      Issued(State())
    }

    /** `Vec::new()`. */
    constructor ()
      ensures Valid()
      ensures State() == Tracker([], 0, [])
    {
      handles := [];
      nextHandle := 0;
      joined := [];
    }

    /** `handles.push(tokio::spawn(...))`: a fresh handle goes on the end. */
    method Register() returns (h: HandleId)
      requires Valid()
      modifies this
      ensures Valid()
      ensures h == old(nextHandle) && h !in old(handles)
      ensures State() == RegisterState(old(State()))
    {
      RegisterKeepsIssued(State());
      h := nextHandle;
      handles := handles + [h];
      nextHandle := nextHandle + 1;
    }

    /** `thread.await`: the join's outcome is decided outside the model, by
        `outcomeOf`; the handle joined is recorded. */
    method Await(h: HandleId, outcomeOf: HandleId -> JoinOutcome) returns (o: JoinOutcome)
      modifies this`joined
      ensures o == outcomeOf(h)
      ensures joined == old(joined) + [h]
    {
      o := outcomeOf(h);
      joined := joined + [h];
    }

    /** `drain_threadpool(&mut handles, limit)`. No join outcome stops the
        drain: the new state is the same whatever `outcomeOf` says. */
    method MaybeDrain(limit: nat, outcomeOf: HandleId -> JoinOutcome)
      requires Valid()
      modifies this
      ensures Valid()
      ensures State() == MaybeDrainState(old(State()), limit)
    {
      if |handles| < limit {
        return;
      }
      ghost var start := handles;
      while |handles| > 0
        invariant nextHandle == old(nextHandle)
        invariant |handles| <= |start| && handles == start[..|handles|]
        invariant joined == old(joined) + PopOrder(start)[..|start| - |handles|]
        decreases |handles|
      {
        var thread := handles[|handles| - 1];
        handles := handles[..|handles| - 1];
        PopOrderAt(start, |start| - 1 - |handles|);
        assert PopOrder(start)[..|start| - |handles|] == PopOrder(start)[..|start| - 1 - |handles|] + [thread];
        // A failed join is logged and the drain goes on with the next handle.
        var outcome := Await(thread, outcomeOf);
      }
      assert PopOrder(start)[..|start|] == PopOrder(start);
    }
  }
}
