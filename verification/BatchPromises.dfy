/** What a batch of enqueues promises: job after job as if each came alone, or for an atomic batch
    all of them or none, with exactly the refusals that stand in the way. */
module BatchPromises {
  import opened Bytes
  import opened Keys
  import opened Machine
  import opened Ops
  import opened Legality
  import opened Promises

  // ---- Best effort --------------------------------------------------------------------------------

  /** The batch as single enqueues. */
  function OneByOne(jobs: seq<Prepared>, now: int): (ops: seq<Op>)
    ensures |ops| == |jobs|
  {
    seq(|jobs|, i requires 0 <= i < |jobs| => EnqueueOp([jobs[i]], now))
  }

  lemma OneByOneLast(jobs: seq<Prepared>, now: int)
    requires jobs != []
    ensures var n := |jobs| - 1;
            && |OneByOne(jobs, now)| == |jobs| && OneByOne(jobs, now)[..n] == OneByOne(jobs[..n], now)
            && OneByOne(jobs, now)[n] == EnqueueOp([jobs[n]], now)
  {
  }

  lemma SingleIsOne(s: State, j: Prepared, now: int)
    ensures var (m, r) := EnqueueOne(s, j, now);
            PlanOf(s, EnqueueOp([j], now)) == Plan(m, Enqueued([r]))
  {
    hide EnqueueOne;
    assert [j][..0] == [];
    assert EnqueueAll(s, [], now) == ([], []);
    RunNone(s);
    var (m, r) := EnqueueOne(s, j, now);
    assert [] + m == m && [] + [r] == [r];
  }

  /** The last job of a batch comes after the batch of the others. */
  lemma BatchLast(s: State, jobs: seq<Prepared>, now: int) returns (rs: seq<EnqueueResult>, r: EnqueueResult)
    requires jobs != []
    ensures var (front, one) := (EnqueueOp(jobs[..|jobs| - 1], now), EnqueueOp([jobs[|jobs| - 1]], now));
            && PlanOf(s, front).outcome == Enqueued(rs) && PlanOf(s, EnqueueOp(jobs, now)).outcome == Enqueued(rs + [r])
            && PlanOf(Apply(s, front), one).outcome == Enqueued([r])
            && Apply(s, EnqueueOp(jobs, now)) == Apply(Apply(s, front), one)
  {
    hide EnqueueOne, Run;
    var n := |jobs| - 1;
    var ms := EnqueueAll(s, jobs[..n], now).0;
    rs := EnqueueAll(s, jobs[..n], now).1;
    r := EnqueueOne(Run(s, ms), jobs[n], now).1;
    SingleIsOne(Run(s, ms), jobs[n], now);
    RunConcat(s, ms, EnqueueOne(Run(s, ms), jobs[n], now).0);
  }

  lemma NoJobs(s: State, now: int)
    ensures Does(s, EnqueueOp([], now), Enqueued([]), s) && ApplyAll(s, OneByOne([], now)) == s
  {
    RunNone(s);
  }

  /** A best-effort batch answers and does what its jobs would one after another. */
  lemma {:induction false} BatchIsOneByOne(s: State, jobs: seq<Prepared>, now: int)
    ensures var o := PlanOf(s, EnqueueOp(jobs, now)).outcome;
            && o.Enqueued? && |o.results| == |jobs|
            && Apply(s, EnqueueOp(jobs, now)) == ApplyAll(s, OneByOne(jobs, now))
            && forall i :: 0 <= i < |jobs| ==>
                 PlanOf(ApplyAll(s, OneByOne(jobs, now)[..i]), EnqueueOp([jobs[i]], now)).outcome
                 == Enqueued([o.results[i]])
  {
    hide PlanOf, Apply, OneByOne;
    NoJobs(s, now);
    if jobs != [] {
      var (n, ops) := (|jobs| - 1, OneByOne(jobs, now));
      var front := jobs[..n];
      BatchIsOneByOne(s, front, now);
      OneByOneLast(jobs, now);
      var rs, r := BatchLast(s, jobs, now);
      forall i | 0 <= i < n
        ensures PlanOf(ApplyAll(s, ops[..i]), EnqueueOp([jobs[i]], now)).outcome == Enqueued([(rs + [r])[i]])
      {
        assert ops[..n][..i] == ops[..i] && front[i] == jobs[i];
      }
    }
  }

  // ---- Atomic ---------------------------------------------------------------------------------------

  /** The first job of its queue in the batch. */
  predicate Leads(jobs: seq<Prepared>, i: nat) {
    i < |jobs| && forall k :: 0 <= k < i ==> jobs[k].queue != jobs[i].queue
  }

  function Positions(jobs: seq<Prepared>, q: Queue): set<nat> {
    set k | 0 <= k < |jobs| && jobs[k].queue == q
  }

  /** The queue cannot take the whole batch under the cap its first job carries. */
  ghost predicate TooMany(s: State, jobs: seq<Prepared>, q: Queue, cap: nat) {
    && (exists i :: 0 <= i < |jobs| && Leads(jobs, i) && jobs[i].queue == q && jobs[i].cap == Some(cap))
    && |InQueue(s, q)| + |Positions(jobs, q)| > cap
  }

  /** The refusal that stands in the way of job `i`, for one of the two checks. */
  ghost predicate Stands(s: State, jobs: seq<Prepared>, now: int, closing: bool, i: nat, r: Refusal)
    requires i < |jobs|
  {
    var q := jobs[i].queue;
    if closing then Shutting(s, q, now) && r == QueueClosing(q)
    else r.QueueFull? && r.queue == q && TooMany(s, jobs, q, r.limit)
  }

  /** The errors are exactly those, by ascending index. */
  ghost predicate ErrorsAre(s: State, jobs: seq<Prepared>, now: int, closing: bool, errors: seq<(nat, Refusal)>) {
    && (forall k, l :: 0 <= k < l < |errors| ==> errors[k].0 < errors[l].0)
    && (forall k :: 0 <= k < |errors| ==>
          errors[k].0 < |jobs| && Stands(s, jobs, now, closing, errors[k].0, errors[k].1))
    && (forall i, r :: 0 <= i < |jobs| && Stands(s, jobs, now, closing, i, r) ==> (i, r) in errors)
  }

  lemma {:induction false} PositionsCount(jobs: seq<Prepared>, q: Queue)
    ensures CountIn(jobs, q) == |Positions(jobs, q)|
  {
    if jobs == [] {
      assert Positions(jobs, q) == {};
    } else {
      var n := |jobs| - 1;
      PositionsCount(jobs[..n], q);
      assert Positions(jobs, q) == Positions(jobs[..n], q) + if jobs[n].queue == q then {n} else {};
    }
  }

  lemma {:induction false} LeaderCaps(jobs: seq<Prepared>, q: Queue, i: nat)
    requires Leads(jobs, i) && jobs[i].queue == q
    ensures FirstCap(jobs, q) == jobs[i].cap
    decreases |jobs|
  {
    var n := |jobs| - 1;
    PositionsCount(jobs[..n], q);
    if i == n {
      assert Positions(jobs[..n], q) == {};
    } else {
      assert i in Positions(jobs[..n], q);
      LeaderCaps(jobs[..n], q, i);
    }
  }

  lemma {:induction false} LeaderOf(jobs: seq<Prepared>, i: nat) returns (l: nat)
    requires i < |jobs|
    ensures l <= i && Leads(jobs, l) && jobs[l].queue == jobs[i].queue
  {
    if k :| 0 <= k < i && jobs[k].queue == jobs[i].queue { l := LeaderOf(jobs, k); } else { l := i; }
  }

  /** The check the committer makes is that one. */
  lemma OverfullIs(s: State, jobs: seq<Prepared>, i: nat, r: Refusal, now: int)
    requires i < |jobs|
    ensures Stands(s, jobs, now, false, i, r) <==>
            Overfull(s, jobs, jobs[i].queue) && r == QueueFull(jobs[i].queue, FirstCap(jobs, jobs[i].queue).value)
  {
    var q := jobs[i].queue;
    assert InQueue(s, q) == Members(s, q);
    PositionsCount(jobs, q);
    var l := LeaderOf(jobs, i);
    LeaderCaps(jobs, q, l);
    forall k | 0 <= k < |jobs| && Leads(jobs, k) && jobs[k].queue == q ensures k == l {}
  }

  /** A scan that lists, for each of the first jobs in order, the error it has. */
  lemma {:induction false} ClosingErrorsAre(s: State, jobs: seq<Prepared>, now: int)
    ensures ErrorsAre(s, jobs, now, true, ClosingErrors(s, jobs, now))
  {
    if jobs != [] {
      var n := |jobs| - 1;
      ClosingErrorsAre(s, jobs[..n], now);
      var errors := ClosingErrors(s, jobs[..n], now);
      forall i, r | 0 <= i < |jobs| && Stands(s, jobs, now, true, i, r) ensures (i, r) in ClosingErrors(s, jobs, now) {
        if i < n { assert Stands(s, jobs[..n], now, true, i, r); }
      }
      forall k | 0 <= k < |errors| ensures errors[k].0 < n && Stands(s, jobs, now, true, errors[k].0, errors[k].1) {
        assert Stands(s, jobs[..n], now, true, errors[k].0, errors[k].1);
      }
    }
  }

  /** The errors of the first jobs, each with the refusal the whole batch runs into. */
  ghost predicate FullUpTo(s: State, jobs: seq<Prepared>, now: int, n: nat, errors: seq<(nat, Refusal)>)
    requires n <= |jobs|
  {
    && (forall k, l :: 0 <= k < l < |errors| ==> errors[k].0 < errors[l].0)
    && (forall k :: 0 <= k < |errors| ==> errors[k].0 < n && Stands(s, jobs, now, false, errors[k].0, errors[k].1))
    && (forall i, r :: 0 <= i < n && Stands(s, jobs, now, false, i, r) ==> (i, r) in errors)
  }

  lemma {:induction false} FullErrorsAre(s: State, jobs: seq<Prepared>, now: int, n: nat)
    requires n <= |jobs|
    ensures FullUpTo(s, jobs, now, n, FullErrors(s, jobs, jobs[..n]))
  {
    hide Stands, FirstCap, Depth, CountIn;
    if n > 0 {
      var i := n - 1;
      FullErrorsAre(s, jobs, now, i);
      assert jobs[..n][..i] == jobs[..i] && jobs[..n][i] == jobs[i];
      forall r
        ensures Stands(s, jobs, now, false, i, r) <==>
                  && Overfull(s, jobs, jobs[i].queue)
                  && r == QueueFull(jobs[i].queue, FirstCap(jobs, jobs[i].queue).value)
      {
        OverfullIs(s, jobs, i, r, now);
      }
      assert |FullErrors(s, jobs, jobs[..n])| > |FullErrors(s, jobs, jobs[..i])| ==>
               FullErrors(s, jobs, jobs[..n])[|FullErrors(s, jobs, jobs[..i])|].0 == i;
    }
  }

  /** What stands in the way of a batch. */
  ghost predicate Blocked(s: State, jobs: seq<Prepared>, now: int, closing: bool) {
    exists i, r :: 0 <= i < |jobs| && Stands(s, jobs, now, closing, i, r)
  }

  /** An atomic batch is rejected exactly when a queue it names is closing or cannot take it; the
      errors are those of the first of these checks that fails, each with its queue and cap, and
      nothing changes. */
  lemma AtomicRejects(s: State, jobs: seq<Prepared>, now: int)
    ensures var o := PlanOf(s, EnqueueAtomicOp(jobs, now)).outcome;
            && (o.BatchRejected? <==> Blocked(s, jobs, now, true) || Blocked(s, jobs, now, false))
            && (o.BatchRejected? ==> ErrorsAre(s, jobs, now, Blocked(s, jobs, now, true), o.errors))
            && (o.BatchRejected? ==> Apply(s, EnqueueAtomicOp(jobs, now)) == s)
            && (!o.BatchRejected? ==> o.BatchCommitted? && |o.results| == |jobs|)
  {
    hide Stands, ClosingErrors, FullErrors, InsertAll;
    RunNone(s);
    ClosingErrorsAre(s, jobs, now);
    FullErrorsAre(s, jobs, now, |jobs|);
    assert jobs[..|jobs|] == jobs;
    var (a, b) := (ClosingErrors(s, jobs, now), FullErrors(s, jobs, jobs));
    if a != [] { assert Stands(s, jobs, now, true, a[0].0, a[0].1); }
    if b != [] { assert Stands(s, jobs, now, false, b[0].0, b[0].1); }
  }

  // ---- Atomic batches that commit ----------------------------------------------------------------------

  /** The batch with its caps already spoken for. */
  function Uncapped(jobs: seq<Prepared>): seq<Prepared> {
    seq(|jobs|, i requires 0 <= i < |jobs| => jobs[i].(cap := None))
  }

  lemma UncappedOne(s: State, j: Prepared, now: int)
    requires !Shutting(s, j.queue, now)
    ensures EnqueueOne(s, j.(cap := None), now) == DedupOrInsert(s, j, now)
  {
  }

  lemma {:induction false} InsertIsOneByOne(s: State, jobs: seq<Prepared>, now: int)
    requires BatchOk(s, jobs) && forall i :: 0 <= i < |jobs| ==> !Shutting(s, jobs[i].queue, now)
    ensures InsertAll(s, jobs, now) == EnqueueAll(s, Uncapped(jobs), now)
  {
    hide EnqueueOne, DedupOrInsert, Run;
    if jobs != [] {
      var n := |jobs| - 1;
      InsertIsOneByOne(s, jobs[..n], now);
      assert Uncapped(jobs)[..n] == Uncapped(jobs[..n]);
      InsertAllLegal(s, jobs[..n], now);
      UncappedOne(Run(s, InsertAll(s, jobs[..n], now).0), jobs[n], now);
    }
  }

  /** A batch that commits answers and does what its jobs would one after another without caps. */
  lemma AtomicCommits(s: State, jobs: seq<Prepared>, now: int)
    requires BatchOk(s, jobs) && !Blocked(s, jobs, now, true) && !Blocked(s, jobs, now, false)
    ensures var (o, u) := (PlanOf(s, EnqueueAtomicOp(jobs, now)).outcome, EnqueueOp(Uncapped(jobs), now));
            o.BatchCommitted? && PlanOf(s, u).outcome == Enqueued(o.results)
            && Apply(s, EnqueueAtomicOp(jobs, now)) == Apply(s, u)
  {
    hide Stands, InsertAll, EnqueueAll, Run, ClosingErrors, FullErrors, BatchOk;
    AtomicRejects(s, jobs, now);
    forall i | 0 <= i < |jobs| ensures !Shutting(s, jobs[i].queue, now) { StandsClosing(s, jobs, now, i); }
    InsertIsOneByOne(s, jobs, now);
  }

  lemma StandsClosing(s: State, jobs: seq<Prepared>, now: int, i: nat)
    requires i < |jobs|
    ensures Stands(s, jobs, now, true, i, QueueClosing(jobs[i].queue)) <==> Shutting(s, jobs[i].queue, now)
  {
  }

  // ---- The job that was accepted -------------------------------------------------------------------------

  lemma OneStores(s: State, j: Prepared, now: int)
    requires NewJob(s, j) && EnqueueOne(s, j, now).1 == Accepted(j.id, false)
    ensures var m := EnqueueOne(s, j, now).0;
            |m| == 1 && m[0].Insert? && Lookup(Run(s, m).live, j.id) == Some(Stored(j, now))
  {
    RunOne(s, InsertMove(j, now));
    InsertEnabled(s, j, now);
  }

  lemma OneTouches(s: State, j: Prepared, now: int, id: Id)
    requires id != j.id
    ensures var m := EnqueueOne(s, j, now).0; forall k :: 0 <= k < |m| ==> !Touches(m[k], id)
  {
  }

  lemma {:induction false} BatchStores(s: State, jobs: seq<Prepared>, now: int, i: nat)
    requires BatchOk(s, jobs) && i < |jobs| && EnqueueAll(s, jobs, now).1[i] == Accepted(jobs[i].id, false)
    ensures Lookup(Run(s, EnqueueAll(s, jobs, now).0).live, jobs[i].id) == Some(Stored(jobs[i], now))
    decreases |jobs|
  {
    hide EnqueueOne, Run;
    var (n, front) := (|jobs| - 1, jobs[..|jobs| - 1]);
    var ms := EnqueueAll(s, front, now).0;
    var t := Run(s, ms);
    var m := EnqueueOne(t, jobs[n], now).0;
    RunConcat(s, ms, m);
    EnqueueLegal(s, front, now);
    UsedGrows(s, ms, front, jobs);
    if i == n {
      OneStores(t, jobs[n], now);
    } else {
      BatchStores(s, front, now, i);
      OneTouches(t, jobs[n], now, jobs[i].id);
      RunFrame(t, m, jobs[i].id);
    }
  }

  /** The results of an enqueue of either kind, if it was not rejected whole. */
  function Results(o: Outcome): seq<EnqueueResult> {
    if o.Enqueued? || o.BatchCommitted? then o.results else []
  }

  /** A job answered as new, in a batch of either kind, is stored as it was submitted: ready, or
      scheduled for its time if that is later than now. */
  lemma AcceptedIsStored(s: State, op: Op, i: nat)
    requires (op.EnqueueOp? || op.EnqueueAtomicOp?) && OpOk(s, op)
    requires i < |op.jobs| && i < |Results(PlanOf(s, op).outcome)|
    requires Results(PlanOf(s, op).outcome)[i] == Accepted(op.jobs[i].id, false)
    ensures Lookup(Apply(s, op).live, op.jobs[i].id) == Some(Stored(op.jobs[i], op.now))
  {
    hide Run, EnqueueAll, InsertAll, Stands;
    if op.EnqueueOp? {
      BatchStores(s, op.jobs, op.now, i);
    } else {
      AtomicRejects(s, op.jobs, op.now);
      AtomicCommits(s, op.jobs, op.now);
      BatchStores(s, Uncapped(op.jobs), op.now, i);
    }
  }
}
