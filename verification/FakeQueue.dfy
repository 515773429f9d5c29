/**
 The in-memory queue of the testing module in fake mode (src/testing.ts): recording and draining, with handlers
 that may throw and may enqueue further jobs but leave job states and the store itself alone.
 */
module FakeQueue {
  import opened Prelude

  datatype JobState = Available | Active | Completed | Discarded

  class FakeJob {
    const kind: string
    var state: JobState
    var attempt: nat

    constructor (kind: string)
      ensures this.kind == kind && state == Available && attempt == 0
    {
      this.kind, state, attempt := kind, Available, 0;
    }
  }

  /** What a handler does with the n-th performed job: return or throw, after enqueuing jobs of some types. */
  datatype Reaction = Reaction(ok: bool, enqueues: seq<string>)

  datatype Handlers = Handlers(registered: set<string>, react: (string, nat) -> Reaction)

  /** What happens to the n-th job when it is performed; without a handler it just completes. */
  function ReactionTo(handlers: Handlers, kind: string, n: nat): Reaction {
    if kind in handlers.registered then handlers.react(kind, n) else Reaction(true, [])
  }

  function Kinds(jobs: seq<FakeJob>): seq<string> {
    seq(|jobs|, i requires 0 <= i < |jobs| => jobs[i].kind)
  }

  /** The types that the handlers of the jobs first .. last-1 enqueue, in order. */
  function Spawned(handlers: Handlers, kinds: seq<string>, first: nat, last: nat): seq<string>
    requires first <= last <= |kinds|
  {
    if first == last then []
    else Spawned(handlers, kinds, first, last - 1) + ReactionTo(handlers, kinds[last - 1], last - 1).enqueues
  }

  lemma {:induction false} SpawnedPrefix(
    handlers: Handlers, few: seq<string>, many: seq<string>, first: nat, last: nat)
    requires first <= last <= |few| && few <= many
    ensures Spawned(handlers, few, first, last) == Spawned(handlers, many, first, last)
  {
    if first < last {
      SpawnedPrefix(handlers, few, many, first, last - 1);
    }
  }

  /** A job's state and attempt. */
  type Standing = (JobState, nat)

  ghost function Standings(jobs: seq<FakeJob>): (r: seq<Standing>)
    reads jobs
    ensures |r| == |jobs|
  {
    seq(|jobs|, i requires 0 <= i < |jobs| reads jobs => (jobs[i].state, jobs[i].attempt))
  }

  /** Performing the jobs first .. last-1 of a queue: each ends as its handler reacts, completed without one, and
      has one more attempt; no other job changes; and what the handlers enqueue stands behind, in order, available
      and not attempted yet. */
  ghost predicate Drained(
    handlers: Handlers, kinds: seq<string>, was: seq<Standing>, first: nat,
    kinds': seq<string>, now: seq<Standing>, last: nat)
  {
    && |was| == |kinds| && |now| == |kinds'| && first <= last <= |kinds'|
    && kinds' == kinds + Spawned(handlers, kinds', first, last)
    && (forall n | first <= n < last :: now[n] ==
          (if kinds'[n] in handlers.registered && !handlers.react(kinds'[n], n).ok then Discarded else Completed,
           1 + if n < |was| then was[n].1 else 0))
    && (forall n | 0 <= n < |now| && (n < first || last <= n) ::
          now[n] == if n < |was| then was[n] else (Available, 0))
  }

  lemma {:induction false} SpawnedConcat(handlers: Handlers, kinds: seq<string>, a: nat, b: nat, c: nat)
    requires a <= b <= c <= |kinds|
    ensures Spawned(handlers, kinds, a, c) == Spawned(handlers, kinds, a, b) + Spawned(handlers, kinds, b, c)
  {
    if b < c {
      SpawnedConcat(handlers, kinds, a, b, c - 1);
    }
  }

  lemma {:induction false} DrainedOn(
    handlers: Handlers, kinds: seq<string>, was: seq<Standing>, a: nat, kinds': seq<string>, mid: seq<Standing>,
    b: nat, kinds'': seq<string>, now: seq<Standing>, c: nat)
    requires Drained(handlers, kinds, was, a, kinds', mid, b) && Drained(handlers, kinds', mid, b, kinds'', now, c)
    ensures Drained(handlers, kinds, was, a, kinds'', now, c)
  {
    SpawnedPrefix(handlers, kinds', kinds'', a, b);
    SpawnedConcat(handlers, kinds'', a, b, c);
    assert forall n | 0 <= n < |kinds'| :: kinds''[n] == kinds'[n];
  }

  lemma {:induction false} DrainedNone(handlers: Handlers, kinds: seq<string>, was: seq<Standing>, n: nat)
    requires |was| == |kinds| && n <= |kinds|
    ensures Drained(handlers, kinds, was, n, kinds, was, n)
  {
    assert kinds + [] == kinds;
  }

  lemma {:induction false} DrainedOne(
    handlers: Handlers, kinds: seq<string>, was: seq<Standing>, n: nat, kinds': seq<string>, now: seq<Standing>)
    requires |was| == |kinds| && n < |kinds| && |now| == |kinds'|
    requires kinds' == kinds + ReactionTo(handlers, kinds[n], n).enqueues
    requires now[n] == (if ReactionTo(handlers, kinds[n], n).ok then Completed else Discarded, was[n].1 + 1)
    requires forall i | 0 <= i < |now| && i != n :: now[i] == if i < |was| then was[i] else (Available, 0)
    ensures Drained(handlers, kinds, was, n, kinds', now, n + 1)
  {
    assert Spawned(handlers, kinds', n, n) == [];
    assert Spawned(handlers, kinds', n, n + 1) == ReactionTo(handlers, kinds[n], n).enqueues;
  }

  class FakeStore {
    var enqueued: seq<FakeJob>
    var performed: seq<FakeJob>

    /** The performed jobs are a prefix of the enqueued ones, in order; exactly the others are available. */
    ghost predicate Valid()
      reads this, enqueued
    {
      && |performed| <= |enqueued|
      && performed == enqueued[..|performed|]
      && (forall i, j | 0 <= i < j < |enqueued| :: enqueued[i] != enqueued[j])
      && (forall i | 0 <= i < |enqueued| :: enqueued[i].state == Available <==> i >= |performed|)
    }

    /** fake(). */
    constructor ()
      ensures Valid() && enqueued == [] && performed == []
    {
      enqueued, performed := [], [];
    }

    method RecordEnqueue(kind: string) returns (job: FakeJob)
      requires Valid()
      modifies this`enqueued
      ensures Valid() && fresh(job) && job.kind == kind && job.attempt == 0
      ensures enqueued == old(enqueued) + [job]
    {
      job := new FakeJob(kind);
      enqueued := enqueued + [job];
    }

    /** store.enqueued.find((j) => j.state === 'available'). */
    method FindAvailable() returns (i: nat)
      requires Valid()
      ensures i == |performed|
    {
      i := 0;
      while i < |enqueued| && enqueued[i].state != Available
        invariant i <= |performed|
      {
        i := i + 1;
      }
    }

    /** The handler's own calls of RecordEnqueue, while one job is active. */
    method EnqueueAll(kinds: seq<string>, ghost active: FakeJob)
      requires |performed| < |enqueued| && performed == enqueued[..|performed|]
      requires active == enqueued[|performed|] && active.state == Active
      requires forall i, j | 0 <= i < j < |enqueued| :: enqueued[i] != enqueued[j]
      requires forall i | 0 <= i < |enqueued| :: enqueued[i].state == Available <==> i > |performed|
      modifies this`enqueued
      ensures old(enqueued) <= enqueued && |enqueued| == |old(enqueued)| + |kinds|
      ensures forall i | |old(enqueued)| <= i < |enqueued| ::
                fresh(enqueued[i]) && enqueued[i].kind == kinds[i - |old(enqueued)|] && enqueued[i].attempt == 0
      ensures forall i, j | 0 <= i < j < |enqueued| :: enqueued[i] != enqueued[j]
      ensures forall i | 0 <= i < |enqueued| :: enqueued[i].state == Available <==> i > |performed|
    {
      for k := 0 to |kinds|
        invariant old(enqueued) <= enqueued && |enqueued| == |old(enqueued)| + k
        invariant forall i | |old(enqueued)| <= i < |enqueued| ::
                    fresh(enqueued[i]) && enqueued[i].kind == kinds[i - |old(enqueued)|] && enqueued[i].attempt == 0
        invariant forall i, j | 0 <= i < j < |enqueued| :: enqueued[i] != enqueued[j]
        invariant forall i | 0 <= i < |enqueued| :: enqueued[i].state == Available <==> i > |performed|
      {
        var job := new FakeJob(kinds[k]);
        enqueued := enqueued + [job];
      }
    }

    /** One pass of the drain loop: the oldest available job is performed, and nothing else changes but the jobs
        its handler enqueues behind. */
    method DrainOne(handlers: Handlers) returns (found: bool)
      requires Valid()
      modifies this, enqueued
      ensures Valid()
      ensures found == (|old(performed)| < |old(enqueued)|)
      ensures !found ==> performed == old(performed) && enqueued == old(enqueued)
      ensures forall job <- old(enqueued) | !found || job != old(enqueued)[|old(performed)|] ::
                job.state == old(job.state) && job.attempt == old(job.attempt)
      ensures found ==>
                var job, n := old(enqueued)[|old(performed)|], |old(performed)|;
                var reaction :=
                  if job.kind in handlers.registered then handlers.react(job.kind, n) else Reaction(true, []);
                && performed == old(performed) + [job]
                && job.state == (if reaction.ok then Completed else Discarded)
                && job.attempt == old(job.attempt) + 1
                && old(enqueued) <= enqueued
                && |enqueued| == |old(enqueued)| + |reaction.enqueues|
                && forall i | |old(enqueued)| <= i < |enqueued| ::
                     fresh(enqueued[i]) && enqueued[i].kind == reaction.enqueues[i - |old(enqueued)|]
                     && enqueued[i].attempt == 0
    {
      var n := FindAvailable();
      if n == |enqueued| {
        return false;
      }
      var job := enqueued[n];
      job.state := Active;
      job.attempt := job.attempt + 1;
      if job.kind in handlers.registered {
        var reaction := handlers.react(job.kind, n);
        EnqueueAll(reaction.enqueues, job);
        job.state := if reaction.ok then Completed else Discarded;
      } else {
        job.state := Completed;
      }
      performed := performed + [job];
      found := true;
    }

    /** One pass, by the standing of every job. */
    method DrainNext(handlers: Handlers) returns (found: bool)
      requires Valid()
      modifies this, enqueued
      ensures Valid()
      ensures found == (|old(performed)| < |old(enqueued)|)
      ensures !found ==> performed == old(performed) && enqueued == old(enqueued)
      ensures found ==> old(performed) <= performed && |performed| == |old(performed)| + 1
      ensures found && (forall kind, n :: handlers.react(kind, n).enqueues == []) ==> enqueued == old(enqueued)
      ensures old(enqueued) <= enqueued && forall i | |old(enqueued)| <= i < |enqueued| :: fresh(enqueued[i])
      ensures Drained(handlers, Kinds(old(enqueued)), old(Standings(enqueued)), |old(performed)|,
                      Kinds(enqueued), Standings(enqueued), |performed|)
    {
      ghost var before, was, n := enqueued, Standings(enqueued), |performed|;
      found := DrainOne(handlers);
      if found {
        assert forall i | 0 <= i < |before| && i != n :: before[i] != before[n];
        forall i | 0 <= i < |enqueued| && i != n
          ensures Standings(enqueued)[i] == if i < |was| then was[i] else (Available, 0)
        {
          assert i < |before| ==> before[i] in before && enqueued[i] == before[i];
        }
        DrainedOne(handlers, Kinds(before), was, n, Kinds(enqueued), Standings(enqueued));
      } else {
        DrainedNone(handlers, Kinds(enqueued), was, n);
      }
    }

    /** drain({ maxJobs }): `performed` grows by the next jobs in enqueue order, maxJobs of them unless the queue
        ran empty, each performed as its handler reacts. */
    method Drain(handlers: Handlers, maxJobs: nat)
      requires Valid()
      modifies this, enqueued
      ensures Valid()
      ensures old(enqueued) <= enqueued && old(performed) <= performed
      ensures forall i | |old(enqueued)| <= i < |enqueued| :: fresh(enqueued[i])
      ensures |performed| <= |old(performed)| + maxJobs
      ensures |performed| == |old(performed)| + maxJobs || |performed| == |enqueued|
      ensures Drained(handlers, Kinds(old(enqueued)), old(Standings(enqueued)), |old(performed)|,
                      Kinds(enqueued), Standings(enqueued), |performed|)
    {
      var processed := 0;
      while processed < maxJobs
        invariant Valid()
        invariant old(enqueued) <= enqueued && old(performed) <= performed
        invariant forall i | |old(enqueued)| <= i < |enqueued| :: fresh(enqueued[i])
        invariant processed <= maxJobs && |performed| == |old(performed)| + processed
        invariant Drained(handlers, Kinds(old(enqueued)), old(Standings(enqueued)), |old(performed)|,
                          Kinds(enqueued), Standings(enqueued), |performed|)
        decreases maxJobs - processed
      {
        ghost var kinds, standings, n := Kinds(enqueued), Standings(enqueued), |performed|;
        var found := DrainNext(handlers);
        if !found {
          break;
        }
        processed := processed + 1;
        DrainedOn(handlers, Kinds(old(enqueued)), old(Standings(enqueued)), |old(performed)|, kinds, standings, n,
                  Kinds(enqueued), Standings(enqueued), |performed|);
      }
    }

    /** drain() without a bound, for handlers that enqueue nothing: the available jobs only get fewer, and every
        one of them is performed as its handler reacts. */
    method DrainAll(handlers: Handlers)
      requires Valid()
      requires forall kind, n :: handlers.react(kind, n).enqueues == []
      modifies this, enqueued
      ensures Valid()
      ensures enqueued == old(enqueued) && performed == enqueued
      ensures forall job <- enqueued :: job.state != Available
      ensures Drained(handlers, Kinds(old(enqueued)), old(Standings(enqueued)), |old(performed)|,
                      Kinds(enqueued), Standings(enqueued), |performed|)
    {
      var found := true;
      while found
        invariant Valid() && enqueued == old(enqueued)
        invariant !found ==> |performed| == |enqueued|
        invariant Drained(handlers, Kinds(old(enqueued)), old(Standings(enqueued)), |old(performed)|,
                          Kinds(enqueued), Standings(enqueued), |performed|)
        decreases |enqueued| - |performed|, found
      {
        ghost var kinds, standings, n := Kinds(enqueued), Standings(enqueued), |performed|;
        found := DrainNext(handlers);
        if found {
          DrainedOn(handlers, Kinds(old(enqueued)), old(Standings(enqueued)), |old(performed)|, kinds, standings, n,
                    Kinds(enqueued), Standings(enqueued), |performed|);
        }
      }
    }
  }
}
