/** What whole runs promise about one job: leases are exclusive and fenced, attempts
    are delivered in order and within bounds, nothing is lost, nothing is altered. */
module Lifecycle {
  import opened Bytes
  import opened Keys
  import opened Machine
  import opened Ops
  import opened Legality

  /** Twice the attempt, plus one while it is leased: how far a live job has come. */
  function Phase(s: State, id: Id): Option<int> {
    if id in s.live
    then Some(2 * s.live[id].place.attempt + (if s.live[id].place.Leased? then 1 else 0))
    else None
  }

  /** Moves that give a leased job back to its queue. */
  predicate Releases(m: Move, id: Id) {
    (m.Nack? || m.Expire?) && m.id == id
  }

  lemma PhaseStep(s: State, m: Move, id: Id)
    requires Inv(s) && id in s.used && !(m.Revive? && m.id == id)
    ensures Phase(s, id).None? ==> Phase(Step(s, m), id).None?
    ensures Phase(s, id).Some? && Phase(Step(s, m), id).Some? ==>
              Phase(s, id).value <= Phase(Step(s, m), id).value <= Phase(s, id).value + 1
    ensures Phase(s, id).Some? && Phase(Step(s, m), id).Some? && Phase(Step(s, m), id) != Phase(s, id) ==>
              if IsLeased(s, id) then Releases(m, id) else m.Lease? && m.id == id
    ensures m.Lease? && m.id == id && Enabled(s, m) ==> Phase(Step(s, m), id) == Some(Phase(s, id).value + 1)
  {
    if !Touches(m, id) {
      StepFrame(s, m, id);
      assert Lookup(s.live, id) == Lookup(Step(s, m).live, id);
    }
  }

  ghost predicate NeverRevived(ms: seq<Move>, id: Id) {
    forall i :: 0 <= i < |ms| && ms[i].Revive? ==> ms[i].id != id
  }

  lemma UsedStep(s: State, m: Move)
    ensures s.used <= Step(s, m).used
  {
  }

  lemma {:induction false} UsedRun(s: State, ms: seq<Move>)
    ensures s.used <= Run(s, ms).used
  {
    if ms != [] {
      UsedRun(s, ms[..|ms| - 1]);
      UsedStep(Run(s, ms[..|ms| - 1]), ms[|ms| - 1]);
    }
  }

  /** Within one life a job's phase never goes back, and a job that left does not return. */
  lemma {:induction false} PhaseNeverGoesBack(s: State, ms: seq<Move>, id: Id)
    requires Inv(s) && id in s.used && NeverRevived(ms, id)
    ensures Phase(s, id).None? ==> Phase(Run(s, ms), id).None?
    ensures Phase(s, id).Some? && Phase(Run(s, ms), id).Some? ==> Phase(s, id).value <= Phase(Run(s, ms), id).value
  {
    if ms != [] {
      var front := ms[..|ms| - 1];
      PhaseNeverGoesBack(s, front, id);
      RunInv(s, front);
      UsedRun(s, front);
      PhaseStep(Run(s, front), ms[|ms| - 1], id);
    }
  }

  /** The attempt was handed out once and its lease is gone. */
  ghost predicate Past(s: State, id: Id, attempt: nat) {
    id in s.used && (Phase(s, id).None? || Phase(s, id).value > 2 * attempt + 1)
  }

  lemma {:induction false} PastForever(s: State, ms: seq<Move>, id: Id, attempt: nat)
    requires Inv(s) && Past(s, id, attempt) && NeverRevived(ms, id)
    ensures Past(Run(s, ms), id, attempt)
  {
    PhaseNeverGoesBack(s, ms, id);
    UsedRun(s, ms);
  }

  /** Fencing: once an attempt is over, every later ack, nack or extend that names it
      is rejected and changes nothing, after any operations that do not requeue the job. */
  lemma StaleAttemptRejected(s: State, ops: seq<Op>, op: Op)
    requires Inv(s) && Acceptable(s, ops)
    requires op.AckOp? || op.NackOp? || op.ExtendOp?
    requires Past(s, op.id, op.attempt) && NeverRevived(History(s, ops), op.id)
    ensures IsRejection(PlanOf(ApplyAll(s, ops), op).outcome)
    ensures Apply(ApplyAll(s, ops), op) == ApplyAll(s, ops)
  {
    HistoryLegal(s, ops);
    PastForever(s, History(s, ops), op.id, op.attempt);
    var t := ApplyAll(s, ops);
    assert !HoldsLease(t, op.id, op.attempt);
    assert Fence(t, op.id, op.attempt).Some?;
    assert FencedPlan(t, op).moves == [];
    assert Run(t, []) == t;
  }

  lemma PhaseOfLease(s: State, id: Id, attempt: nat)
    ensures HoldsLease(s, id, attempt) <==> Phase(s, id) == Some(2 * attempt + 1)
  {
  }

  /** A lease that ended, by whatever move, makes its attempt a thing of the past. */
  lemma EndedLeaseIsPast(s: State, m: Move, id: Id, attempt: nat)
    requires Inv(s) && HoldsLease(s, id, attempt) && Enabled(s, m)
    ensures HoldsLease(Step(s, m), id, attempt) || Past(Step(s, m), id, attempt)
  {
    PhaseOfLease(s, id, attempt);
    PhaseOfLease(Step(s, m), id, attempt);
    PhaseStep(s, m, id);
    UsedStep(s, m);
  }

  /** Exclusivity: after (id, attempt) is handed out, the next delivery of the job is
      preceded by a nack naming that attempt, by an expiry no earlier than the lease's
      current end, or by a requeue. */
  lemma {:induction false} LeaseIsExclusive(s: State, ms: seq<Move>, id: Id, attempt: nat, i: nat)
    requires Inv(s) && Legal(s, ms) && HoldsLease(s, id, attempt)
    requires i < |ms| && ms[i].Lease? && ms[i].id == id
    ensures exists j :: 0 <= j < i && HandedBackAt(s, ms, id, attempt, j)
  {
    LegalPrefix(s, ms, i);
    if !exists j :: 0 <= j < i && HandedBackAt(s, ms, id, attempt, j) {
      forall j | 0 <= j < i ensures !HandedBackAt(s, ms[..i], id, attempt, j) {
        assert ms[..i][..j] == ms[..j];
        assert !HandedBackAt(s, ms, id, attempt, j);
      }
      HeldUntilHandedBack(s, ms[..i], id, attempt);
    }
  }

  ghost predicate HandedBackAt(s: State, ms: seq<Move>, id: Id, attempt: nat, j: nat)
    requires j < |ms|
  {
    Touches(ms[j], id) && HandsBack(Run(s, ms[..j]), ms[j], attempt)
  }

  ghost predicate HandsBack(s: State, m: Move, attempt: nat) {
    || (m.Nack? && m.attempt == attempt)
    || (m.Expire? && IsLeased(s, m.id) && s.live[m.id].place.expiry <= m.now)
    || m.Revive?
  }

  lemma {:induction false} LegalPrefix(s: State, ms: seq<Move>, i: nat)
    requires Legal(s, ms) && i < |ms|
    ensures Legal(s, ms[..i + 1]) && Enabled(Run(s, ms[..i]), ms[i]) && Legal(s, ms[..i])
    decreases |ms|
  {
    assert ms[..i + 1][..i] == ms[..i];
    if i == |ms| - 1 {
      assert ms[..i + 1] == ms;
    } else {
      var front := ms[..|ms| - 1];
      LegalPrefix(s, front, i);
      assert front[..i + 1] == ms[..i + 1] && front[..i] == ms[..i];
    }
  }

  /** Until it is handed back the lease stands, unless the job itself is gone for good. */
  lemma {:induction false} HeldUntilHandedBack(s: State, ms: seq<Move>, id: Id, attempt: nat)
    requires Inv(s) && Legal(s, ms) && HoldsLease(s, id, attempt)
    requires forall j :: 0 <= j < |ms| ==> !HandedBackAt(s, ms, id, attempt, j)
    ensures HoldsLease(Run(s, ms), id, attempt) || (id !in Run(s, ms).live && id in Run(s, ms).used)
  {
    if ms != [] {
      var front, m := ms[..|ms| - 1], ms[|ms| - 1];
      forall j | 0 <= j < |front| ensures !HandedBackAt(s, front, id, attempt, j) {
        assert front[..j] == ms[..j];
        assert !HandedBackAt(s, ms, id, attempt, j);
      }
      HeldUntilHandedBack(s, front, id, attempt);
      var t := Run(s, front);
      RunInv(s, front);
      UsedStep(t, m);
      if Touches(m, id) {
        assert !HandedBackAt(s, ms, id, attempt, |front|);
      } else {
        StepFrame(t, m, id);
        assert Lookup(Step(t, m).live, id) == Lookup(t.live, id);
      }
    }
  }

  // ---- Attempts --------------------------------------------------------------

  /** The attempts handed out for a job along a run, in order. */
  ghost function Attempts(s: State, ms: seq<Move>, id: Id): seq<nat> {
    if ms == [] then []
    else
      var front, m := ms[..|ms| - 1], ms[|ms| - 1];
      var t := Run(s, front);
      Attempts(s, front, id)
      + if m.Lease? && m.id == id && IsReady(t, id) then [t.live[id].place.attempt] else []
  }

  predicate Newborn(s: State, id: Id) {
    id in s.live && !s.live[id].place.Leased? && s.live[id].place.attempt == 1
  }

  /** How many attempts were delivered tells exactly where the job stands. */
  ghost predicate InStep(s: State, id: Id, n: nat) {
    id in s.live ==> s.live[id].place.attempt == (if s.live[id].place.Leased? then n else n + 1)
  }

  /** In one life a job is delivered as attempt 1, 2, 3, ... without gaps or repeats,
      and never more often than its max_attempts. */
  lemma {:induction false} AttemptsCountUp(s: State, ms: seq<Move>, id: Id)
    requires Inv(s) && Legal(s, ms) && Newborn(s, id) && NeverRevived(ms, id)
    ensures forall i :: 0 <= i < |Attempts(s, ms, id)| ==> Attempts(s, ms, id)[i] == i + 1
    ensures |Attempts(s, ms, id)| <= s.live[id].body.maxAttempts
    ensures InStep(Run(s, ms), id, |Attempts(s, ms, id)|)
    ensures id in Run(s, ms).live ==> Run(s, ms).live[id].body == s.live[id].body
  {
    if ms != [] {
      var front, m := ms[..|ms| - 1], ms[|ms| - 1];
      AttemptsCountUp(s, front, id);
      var t := Run(s, front);
      RunInv(s, front);
      UsedRun(s, front);
      AttemptStep(t, m, id, |Attempts(s, front, id)|);
    }
  }

  lemma AttemptStep(s: State, m: Move, id: Id, n: nat)
    requires Inv(s) && Enabled(s, m) && id in s.used && InStep(s, id, n) && !(m.Revive? && m.id == id)
    ensures InStep(Step(s, m), id, if m.Lease? && m.id == id then n + 1 else n)
    ensures id in Step(s, m).live ==> id in s.live && Step(s, m).live[id].body == s.live[id].body
    ensures m.Lease? && m.id == id ==> s.live[id].place.attempt == n + 1 <= s.live[id].body.maxAttempts
  {
    if !Touches(m, id) {
      StepFrame(s, m, id);
      assert Lookup(s.live, id) == Lookup(Step(s, m).live, id);
    }
  }

  // ---- Conservation ----------------------------------------------------------

  /** The unchangeable part of a job, live or dead. */
  function Identity(s: State, id: Id): Option<(Queue, Body)> {
    if id in s.live then Some((s.live[id].queue, s.live[id].body))
    else if id in s.dead then Some((s.dead[id].queue, s.dead[id].body))
    else None
  }

  lemma IdentityStep(s: State, m: Move, id: Id)
    requires Inv(s) && id in s.used
    ensures Identity(Step(s, m), id).Some? ==> Identity(Step(s, m), id) == Identity(s, id)
  {
    if !Touches(m, id) {
      StepFrame(s, m, id);
      assert Lookup(s.live, id) == Lookup(Step(s, m).live, id);
      assert Lookup(s.dead, id) == Lookup(Step(s, m).dead, id);
    }
  }

  /** Whatever happens to a job, dead-lettering and requeueing included, its queue,
      type, payload, priority, attempt limit, custom fields and trace stay as enqueued. */
  lemma {:induction false} IdentityNeverChanges(s: State, ms: seq<Move>, id: Id)
    requires Inv(s) && id in s.used
    ensures Identity(Run(s, ms), id).Some? ==> Identity(Run(s, ms), id) == Identity(s, id)
  {
    if ms != [] {
      var front := ms[..|ms| - 1];
      IdentityNeverChanges(s, front, id);
      RunInv(s, front);
      UsedRun(s, front);
      IdentityStep(Run(s, front), ms[|ms| - 1], id);
    }
  }

  /** Within one life a job keeps its place in line: whenever it is ready, however
      often it was retried or rescheduled, it has the ready key it started with. */
  lemma {:induction false} KeepsPlaceInLine(s: State, ms: seq<Move>, id: Id)
    requires Inv(s) && id in s.live && NeverRevived(ms, id)
    ensures id in Run(s, ms).live ==> ReadyKeyOf(id, Run(s, ms).live[id]) == ReadyKeyOf(id, s.live[id])
    ensures id in Run(s, ms).used
  {
    if ms != [] {
      var front, m := ms[..|ms| - 1], ms[|ms| - 1];
      KeepsPlaceInLine(s, front, id);
      var t := Run(s, front);
      RunInv(s, front);
      UsedStep(t, m);
      if Touches(m, id) {
        assert id in Step(t, m).live ==>
                 id in t.live && Step(t, m).live[id] == t.live[id].(place := Step(t, m).live[id].place);
      } else {
        StepFrame(t, m, id);
        assert Lookup(Step(t, m).live, id) == Lookup(t.live, id);
      }
    }
  }

  /** Moves that take a job out of the system for good. */
  predicate Discards(m: Move, id: Id) {
    Touches(m, id)
    && (m.Ack? || m.DropLive? || m.DropDead? || ((m.Nack? || m.Expire? || m.Bury?) && !m.keep))
  }

  /** No job is lost: with dead letters kept, a job that nobody acks, purges or drains
      is live or a dead letter after any run, and still what was enqueued. */
  lemma {:induction false} NothingIsLost(s: State, ms: seq<Move>, id: Id)
    requires Inv(s) && Identity(s, id).Some?
    requires forall i :: 0 <= i < |ms| ==> !Discards(ms[i], id)
    ensures Identity(Run(s, ms), id) == Identity(s, id)
  {
    if ms != [] {
      var front, m := ms[..|ms| - 1], ms[|ms| - 1];
      NothingIsLost(s, front, id);
      var t := Run(s, front);
      RunInv(s, front);
      if Touches(m, id) {
        assert Identity(Step(t, m), id).Some?;
      } else {
        StepFrame(t, m, id);
        assert Lookup(Step(t, m).live, id) == Lookup(t.live, id);
        assert Lookup(Step(t, m).dead, id) == Lookup(t.dead, id);
      }
      IdentityStep(t, m, id);
    }
  }

  /** Dead-letter then requeue: the job is back as submitted, on attempt 1, ready now,
      and the dead-letter store is as it was. */
  lemma DeadLetterThenRequeue(s: State, m: Move, now: int)
    requires Inv(s) && Enabled(s, m) && AboutJob(m) && Failure(s, m).Some? && m.keep
    ensures var t := Step(Step(s, m), Revive(m.id, now));
            && m.id in Step(s, m).dead && m.id !in Step(s, m).live
            && Step(s, m).dead[m.id].attempt == s.live[m.id].place.attempt
            && t == s.(live := s.live[m.id := Job(s.live[m.id].queue, s.live[m.id].body, now, None, Ready(1))])
  {
    var d := Step(s, m);
    var t := Step(d, Revive(m.id, now));
    assert t.dead == s.dead;
    assert t.live == s.live[m.id := RevivedJob(d.dead[m.id], now)];
  }

  /** Entries and exits along a run. */
  datatype Ledger = Ledger(inserted: nat, revived: nat, acked: nat, failed: nat, kept: nat, purged: nat, retired: nat)

  /** The entry one move makes. */
  function Entry(s: State, m: Move, l: Ledger): Ledger
    requires Enabled(s, m)
  {
    if m.Insert? then l.(inserted := l.inserted + 1)
    else if m.Revive? then l.(revived := l.revived + 1)
    else if m.Ack? then l.(acked := l.acked + 1)
    else if m.DropLive? then l.(purged := l.purged + 1)
    else if m.DropDead? then l.(retired := l.retired + 1)
    else if AboutJob(m) && Failure(s, m).Some?
    then l.(failed := l.failed + 1, kept := l.kept + if m.keep then 1 else 0)
    else l
  }

  ghost function Books(s: State, ms: seq<Move>): Ledger {
    if ms == [] then Ledger(0, 0, 0, 0, 0, 0, 0)
    else
      var t := Run(s, ms[..|ms| - 1]);
      if Enabled(t, ms[|ms| - 1]) then Entry(t, ms[|ms| - 1], Books(s, ms[..|ms| - 1]))
      else Books(s, ms[..|ms| - 1])
  }

  lemma PutSize<K, V>(m: map<K, V>, k: K, v: Option<V>)
    ensures |Put(m, k, v)| == |m| + (if v.Some? then 1 else 0) - (if k in m then 1 else 0)
  {
    assert Put(m, k, v).Keys == if v.Some? then m.Keys + {k} else m.Keys - {k};
    assert |m.Keys| == |m| && |Put(m, k, v).Keys| == |Put(m, k, v)|;
    if v.None? && k in m { assert m.Keys == (m.Keys - {k}) + {k}; }
    if v.None? && k !in m { assert m.Keys - {k} == m.Keys; }
    if v.Some? && k in m { assert m.Keys + {k} == m.Keys; }
  }

  function LiveBalance(l: Ledger): int {
    l.inserted + l.revived - l.acked - l.failed - l.purged
  }

  function DeadBalance(l: Ledger): int {
    l.kept - l.revived - l.retired
  }

  lemma EntryCounts(s: State, m: Move, l: Ledger)
    requires Inv(s) && Enabled(s, m) && AboutJob(m)
    ensures LiveBalance(Entry(s, m, l)) - LiveBalance(l)
         == (if LiveAfter(s, m).Some? then 1 else 0) - (if m.id in s.live then 1 else 0)
    ensures DeadBalance(Entry(s, m, l)) - DeadBalance(l)
         == (if DeadAfter(s, m).Some? then 1 else 0) - (if m.id in s.dead then 1 else 0)
  {
  }

  lemma EntryBalances(s: State, m: Move, l: Ledger)
    requires Inv(s) && Enabled(s, m)
    ensures |Step(s, m).live| - |s.live| == LiveBalance(Entry(s, m, l)) - LiveBalance(l)
    ensures |Step(s, m).dead| - |s.dead| == DeadBalance(Entry(s, m, l)) - DeadBalance(l)
  {
    hide Inv, Enabled, Step, LiveAfter, DeadAfter, Failure, Put, LiveBalance, DeadBalance;
    if AboutJob(m) {
      hide Entry;
      StepJob(s, m);
      EntryCounts(s, m, l);
      PutSize(s.live, m.id, LiveAfter(s, m));
      PutSize(s.dead, m.id, DeadAfter(s, m));
    } else {
      StepOther(s, m);
    }
  }

  lemma BooksNone(s: State)
    ensures Run(s, []) == s && LiveBalance(Books(s, [])) == 0 && DeadBalance(Books(s, [])) == 0
  {
    hide Enabled, Step, Entry;
    RunNone(s);
    assert Books(s, []) == Ledger(0, 0, 0, 0, 0, 0, 0);
  }

  lemma BooksLast(s: State, ms: seq<Move>)
    requires ms != [] && Legal(s, ms)
    ensures var (front, m) := (ms[..|ms| - 1], ms[|ms| - 1]);
            && Legal(s, front) && Enabled(Run(s, front), m) && Run(s, ms) == Step(Run(s, front), m)
            && Books(s, ms) == Entry(Run(s, front), m, Books(s, front))
  {
    hide Enabled, Step, Entry;
  }

  /** The books balance over every legal run, for live jobs and for dead letters. */
  lemma {:induction false} BooksBalance(s: State, ms: seq<Move>)
    requires Inv(s) && Legal(s, ms)
    ensures |Run(s, ms).live| - |s.live| == LiveBalance(Books(s, ms))
    ensures |Run(s, ms).dead| - |s.dead| == DeadBalance(Books(s, ms))
  {
    hide Inv, Enabled, Step, Entry, Run, Legal, Books, LiveBalance, DeadBalance;
    BooksNone(s);
    if ms != [] {
      var front := ms[..|ms| - 1];
      BooksLast(s, ms);
      BooksBalance(s, front);
      RunInv(s, front);
      EntryBalances(Run(s, front), ms[|ms| - 1], Books(s, front));
    }
  }
}
