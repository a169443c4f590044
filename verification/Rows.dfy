/** The keyspaces on disk and the indexes in memory, and how both mirror the machine:
    every job, dead letter and dedup record determines its rows and index entries. */
module Rows {
  import opened Bytes
  import opened Keys
  import opened Machine
  import opened Ops

  /** A row of the `jobs` keyspace; the payload is stored apart and the attempt is
      always the first (the live attempt is kept with the ready, scheduled or inflight row). */
  datatype JobRow = JobRow(queue: Queue, jobType: Blob, priority: nat, maxAttempts: nat, custom: Blob, trace: Blob,
                           enqueuedAt: int, scheduledAt: Option<int>, attempt: nat)

  /** A row of the `inflight` keyspace. */
  datatype Flight = Flight(attempt: nat, expiry: int, enqueuedAt: int, priority: nat, maxAttempts: nat,
                           queue: Queue, trace: Blob)

  datatype Store = Store(
    jobs: map<Id, JobRow>,
    payloads: map<Id, Blob>,
    inflight: map<Id, Flight>,
    ready: map<Key, nat>,
    scheduled: map<Key, nat>,
    leases: map<Key, Blob>,
    dedup: map<DedupKey, DedupValue>,
    dedupTimers: map<Key, Blob>,
    deadLetter: map<Key, Letter>,
    closing: map<Queue, int>,
    auditSeq: Option<nat>,
    audit: map<nat, AuditEntry>)

  const NewStore: Store := Store(map[], map[], map[], map[], map[], map[], map[], map[], map[], map[], None, map[])

  /** The in-memory indexes without their counters. */
  datatype Indexes = Indexes(
    ready: map<Key, nat>,
    scheduled: map<Key, Queue>,
    leases: map<Key, Queue>,
    dedupTimers: map<Key, Queue>,
    deadLetter: map<Key, Queue>,
    closing: map<Queue, int>)

  // ---- Projections -----------------------------------------------------------

  /** `rows` holds exactly the rows `p` derives from the entries of `src`; `inv` tells
      which entry a key belongs to. */
  ghost predicate Projects<I, J, V>(rows: map<Key, V>, src: map<I, J>, p: (I, J) -> Option<(Key, V)>, inv: Key -> I) {
    forall k :: Lookup(rows, k) == At(src, k, p, inv)
  }

  function At<I, J, V>(src: map<I, J>, k: Key, p: (I, J) -> Option<(Key, V)>, inv: Key -> I): Option<V> {
    if inv(k) in src then
      match p(inv(k), src[inv(k)])
      case Some((k', v)) => if k' == k then Some(v) else None
      case None => None
    else None
  }

  ghost predicate Sound<I(!new), J(!new), V>(p: (I, J) -> Option<(Key, V)>, inv: Key -> I) {
    forall i, j :: p(i, j).Some? ==> inv(p(i, j).value.0) == i
  }

  /** Replace one row: drop the old one if there was any, write the new one if there is. */
  function Splice<V>(rows: map<Key, V>, was: Option<(Key, V)>, now': Option<(Key, V)>): map<Key, V> {
    var rest := if was.Some? then rows - {was.value.0} else rows;
    if now'.Some? then rest[now'.value.0 := now'.value.1] else rest
  }

  function Derive<I, J, V>(i: I, j: Option<J>, p: (I, J) -> Option<(Key, V)>): Option<(Key, V)> {
    if j.Some? then p(i, j.value) else None
  }

  lemma SpliceProjects<I(!new), J(!new), V>(rows: map<Key, V>, src: map<I, J>, i: I, new': Option<J>,
                                            p: (I, J) -> Option<(Key, V)>, inv: Key -> I)
    requires Projects(rows, src, p, inv) && Sound(p, inv)
    ensures Projects(Splice(rows, Derive(i, Lookup(src, i), p), Derive(i, new', p)), Put(src, i, new'), p, inv)
  {
    var rows' := Splice(rows, Derive(i, Lookup(src, i), p), Derive(i, new', p));
    forall k ensures Lookup(rows', k) == At(Put(src, i, new'), k, p, inv) {
      assert Lookup(rows, k) == At(src, k, p, inv);
      if inv(k) != i { PutElsewhere(src, i, new', inv(k)); }
    }
  }

  // ---- What a live job, a dead letter and a dedup record derive --------------------

  function RowOf(j: Job): JobRow {
    JobRow(j.queue, j.body.jobType, j.body.priority, j.body.maxAttempts, j.body.custom, j.body.trace,
           j.enqueuedAt, j.scheduledAt, 1)
  }

  function JobRowOf(j: Job): Option<JobRow> {
    Some(RowOf(j))
  }

  function PayloadOf(j: Job): Option<Blob> {
    j.body.payload
  }

  function FlightOf(j: Job): Option<Flight> {
    if j.place.Leased?
    then Some(Flight(j.place.attempt, j.place.expiry, j.enqueuedAt, j.body.priority, j.body.maxAttempts, j.queue,
                     j.body.trace))
    else None
  }

  function ReadyRow(id: Id, j: Job): Option<(Key, nat)> {
    if j.place.Ready? then Some((ReadyKeyOf(id, j), j.place.attempt)) else None
  }

  function ScheduledRow(id: Id, j: Job): Option<(Key, nat)> {
    if j.place.Scheduled? then Some((TimerKey(j.place.deadline, id), j.place.attempt)) else None
  }

  function ScheduledEntry(id: Id, j: Job): Option<(Key, Queue)> {
    if j.place.Scheduled? then Some((TimerKey(j.place.deadline, id), j.queue)) else None
  }

  function LeaseRow(id: Id, j: Job): Option<(Key, Blob)> {
    if j.place.Leased? then Some((TimerKey(j.place.expiry, id), [])) else None
  }

  function LeaseEntry(id: Id, j: Job): Option<(Key, Queue)> {
    if j.place.Leased? then Some((TimerKey(j.place.expiry, id), j.queue)) else None
  }

  function DeadRow(id: Id, d: Dead): Option<(Key, Letter)> {
    Some((DeadLetterKey(d.failedAt, d.queue, id), Letter(id, d)))
  }

  function DeadEntry(id: Id, d: Dead): Option<(Key, Queue)> {
    Some((DeadLetterKey(d.failedAt, d.queue, id), d.queue))
  }

  function PinRow(dk: DedupKey, v: DedupValue): Option<(Key, Blob)> {
    Some((DedupTimerKey(v.deadline, dk.queue, dk.key), []))
  }

  function PinEntry(dk: DedupKey, v: DedupValue): Option<(Key, Queue)> {
    Some((DedupTimerKey(v.deadline, dk.queue, dk.key), dk.queue))
  }

  function ReadyOf(id: Id, j: Option<Job>): Option<(Key, nat)> {
    if j.Some? then ReadyRow(id, j.value) else None
  }

  function ScheduledOf(id: Id, j: Option<Job>): Option<(Key, nat)> {
    if j.Some? then ScheduledRow(id, j.value) else None
  }

  function WaitingOf(id: Id, j: Option<Job>): Option<(Key, Queue)> {
    if j.Some? then ScheduledEntry(id, j.value) else None
  }

  function LeaseOf(id: Id, j: Option<Job>): Option<(Key, Blob)> {
    if j.Some? then LeaseRow(id, j.value) else None
  }

  function LeasedOf(id: Id, j: Option<Job>): Option<(Key, Queue)> {
    if j.Some? then LeaseEntry(id, j.value) else None
  }

  function LetterRow(id: Id, d: Option<Dead>): Option<(Key, Letter)> {
    if d.Some? then DeadRow(id, d.value) else None
  }

  function LetterEntry(id: Id, d: Option<Dead>): Option<(Key, Queue)> {
    if d.Some? then DeadEntry(id, d.value) else None
  }

  function PinTimer(dk: DedupKey, v: Option<DedupValue>): Option<(Key, Blob)> {
    if v.Some? then PinRow(dk, v.value) else None
  }

  function PinTimerEntry(dk: DedupKey, v: Option<DedupValue>): Option<(Key, Queue)> {
    if v.Some? then PinEntry(dk, v.value) else None
  }

  function PinOf(k: Key): DedupKey {
    if k.DedupTimerKey? then DedupKey(k.queue, k.idempotencyKey) else DedupKey([], [])
  }

  /** Rows keyed by job id. */
  ghost predicate ById<J, V>(rows: map<Id, V>, live: map<Id, J>, f: J -> Option<V>) {
    forall id :: Lookup(rows, id) == if id in live then f(live[id]) else None
  }

  lemma PutById<J, V>(rows: map<Id, V>, live: map<Id, J>, id: Id, new': Option<J>, f: J -> Option<V>)
    requires ById(rows, live, f)
    ensures ById(Put(rows, id, if new'.Some? then f(new'.value) else None), Put(live, id, new'), f)
  {
    var rows' := Put(rows, id, if new'.Some? then f(new'.value) else None);
    forall x ensures Lookup(rows', x) == if x in Put(live, id, new') then f(Put(live, id, new')[x]) else None {
      assert Lookup(rows, x) == if x in live then f(live[x]) else None;
    }
  }

  // ---- The mirror ---------------------------------------------------------------------

  ghost predicate LiveRows(st: Store, ix: Indexes, live: map<Id, Job>) {
    && ById(st.jobs, live, JobRowOf)
    && ById(st.payloads, live, PayloadOf)
    && ById(st.inflight, live, FlightOf)
    && Projects(st.ready, live, ReadyRow, JobIdOf) && Projects(ix.ready, live, ReadyRow, JobIdOf)
    && Projects(st.scheduled, live, ScheduledRow, JobIdOf) && Projects(ix.scheduled, live, ScheduledEntry, JobIdOf)
    && Projects(st.leases, live, LeaseRow, JobIdOf) && Projects(ix.leases, live, LeaseEntry, JobIdOf)
  }

  ghost predicate DeadRows(st: Store, ix: Indexes, dead: map<Id, Dead>) {
    Projects(st.deadLetter, dead, DeadRow, JobIdOf) && Projects(ix.deadLetter, dead, DeadEntry, JobIdOf)
  }

  ghost predicate PinRows(st: Store, ix: Indexes, dedup: map<DedupKey, DedupValue>) {
    st.dedup == dedup
    && Projects(st.dedupTimers, dedup, PinRow, PinOf) && Projects(ix.dedupTimers, dedup, PinEntry, PinOf)
  }

  ghost predicate AuditRows(st: Store, log: seq<AuditEntry>) {
    && st.auditSeq == (if log == [] then None else Some(|log|))
    && (forall n :: n in st.audit <==> 1 <= n <= |log|)
    && (forall n :: 1 <= n <= |log| ==> st.audit[n] == log[n - 1])
  }

  /** Disk and memory both mirror the machine state. */
  ghost predicate Mirrors(st: Store, ix: Indexes, s: State) {
    && LiveRows(st, ix, s.live) && DeadRows(st, ix, s.dead) && PinRows(st, ix, s.dedup)
    && st.closing == s.closing && ix.closing == s.closing
    && AuditRows(st, s.audit)
  }

  /** Rewrite the rows of one job. */
  function SpliceJob(st: Store, id: Id, old': Option<Job>, new': Option<Job>): Store {
    st.(jobs := Put(st.jobs, id, if new'.Some? then Some(RowOf(new'.value)) else None),
        payloads := Put(st.payloads, id, if new'.Some? then new'.value.body.payload else None),
        inflight := Put(st.inflight, id, if new'.Some? then FlightOf(new'.value) else None),
        ready := Splice(st.ready, ReadyOf(id, old'), ReadyOf(id, new')),
        scheduled := Splice(st.scheduled, ScheduledOf(id, old'), ScheduledOf(id, new')),
        leases := Splice(st.leases, LeaseOf(id, old'), LeaseOf(id, new')))
  }

  function SpliceJobIndex(ix: Indexes, id: Id, old': Option<Job>, new': Option<Job>): Indexes {
    ix.(ready := Splice(ix.ready, ReadyOf(id, old'), ReadyOf(id, new')),
        scheduled := Splice(ix.scheduled, WaitingOf(id, old'), WaitingOf(id, new')),
        leases := Splice(ix.leases, LeasedOf(id, old'), LeasedOf(id, new')))
  }

  lemma JobSpliced(st: Store, ix: Indexes, live: map<Id, Job>, id: Id, new': Option<Job>)
    requires LiveRows(st, ix, live)
    ensures LiveRows(SpliceJob(st, id, Lookup(live, id), new'), SpliceJobIndex(ix, id, Lookup(live, id), new'),
                     Put(live, id, new'))
  {
    PutById(st.jobs, live, id, new', JobRowOf);
    PutById(st.payloads, live, id, new', PayloadOf);
    PutById(st.inflight, live, id, new', FlightOf);
    SpliceProjects(st.ready, live, id, new', ReadyRow, JobIdOf);
    SpliceProjects(ix.ready, live, id, new', ReadyRow, JobIdOf);
    SpliceProjects(st.scheduled, live, id, new', ScheduledRow, JobIdOf);
    SpliceProjects(ix.scheduled, live, id, new', ScheduledEntry, JobIdOf);
    SpliceProjects(st.leases, live, id, new', LeaseRow, JobIdOf);
    SpliceProjects(ix.leases, live, id, new', LeaseEntry, JobIdOf);
  }

  lemma DeadSpliced(st: Store, ix: Indexes, dead: map<Id, Dead>, id: Id, new': Option<Dead>)
    requires DeadRows(st, ix, dead)
    ensures DeadRows(st.(deadLetter := Splice(st.deadLetter, LetterRow(id, Lookup(dead, id)), LetterRow(id, new'))),
                     ix.(deadLetter := Splice(ix.deadLetter, LetterEntry(id, Lookup(dead, id)), LetterEntry(id, new'))),
                     Put(dead, id, new'))
  {
    SpliceProjects(st.deadLetter, dead, id, new', DeadRow, JobIdOf);
    SpliceProjects(ix.deadLetter, dead, id, new', DeadEntry, JobIdOf);
  }

  lemma PinSpliced(st: Store, ix: Indexes, dedup: map<DedupKey, DedupValue>, dk: DedupKey, new': Option<DedupValue>)
    requires PinRows(st, ix, dedup)
    ensures PinRows(st.(dedup := Put(dedup, dk, new'),
                        dedupTimers := Splice(st.dedupTimers, PinTimer(dk, Lookup(dedup, dk)), PinTimer(dk, new'))),
                    ix.(dedupTimers := Splice(ix.dedupTimers, PinTimerEntry(dk, Lookup(dedup, dk)),
                                              PinTimerEntry(dk, new'))),
                    Put(dedup, dk, new'))
  {
    SpliceProjects(st.dedupTimers, dedup, dk, new', PinRow, PinOf);
    SpliceProjects(ix.dedupTimers, dedup, dk, new', PinEntry, PinOf);
  }

  // ---- Moves as row writes --------------------------------------------------------------

  /** The dedup record a move writes or removes, if any. */
  function PinChange(s: State, m: Move): Option<(DedupKey, Option<DedupValue>)> {
    match m
    case Insert(id, job, Some(pin)) =>
      Some((DedupKey(job.queue, pin.key), Some(DedupValue(job.enqueuedAt, pin.deadline, id))))
    case Forget(dk, _) => Some((dk, None))
    case _ => None
  }

  /** The keyspace writes a move stands for. */
  function StoreAfter(st: Store, s: State, m: Move): Store
    requires Enabled(s, m)
  {
    var a := if AboutJob(m) then
               SpliceJob(st, m.id, Lookup(s.live, m.id), LiveAfter(s, m)).(
                 deadLetter := Splice(st.deadLetter, LetterRow(m.id, Lookup(s.dead, m.id)),
                                      LetterRow(m.id, DeadAfter(s, m))))
             else st;
    var b := match PinChange(s, m)
             case Some((dk, v)) =>
               a.(dedup := Put(s.dedup, dk, v),
                  dedupTimers := Splice(st.dedupTimers, PinTimer(dk, Lookup(s.dedup, dk)), PinTimer(dk, v)))
             case None => a;
    if m.Append? then b.(auditSeq := Some(|s.audit| + 1), audit := st.audit[|s.audit| + 1 := m.entry])
    else b.(closing := Effect(s, m).closing)
  }

  /** The index updates that go with them. */
  function IndexesAfter(ix: Indexes, s: State, m: Move): Indexes
    requires Enabled(s, m)
  {
    var a := if AboutJob(m) then
               SpliceJobIndex(ix, m.id, Lookup(s.live, m.id), LiveAfter(s, m)).(
                 deadLetter := Splice(ix.deadLetter, LetterEntry(m.id, Lookup(s.dead, m.id)),
                                      LetterEntry(m.id, DeadAfter(s, m))))
             else ix;
    var b := match PinChange(s, m)
             case Some((dk, v)) => a.(dedupTimers := Splice(ix.dedupTimers, PinTimerEntry(dk, Lookup(s.dedup, dk)),
                                                            PinTimerEntry(dk, v)))
             case None => a;
    b.(closing := Effect(s, m).closing)
  }

  lemma DedupAfterIs(s: State, m: Move)
    ensures DedupAfter(s, m) == match PinChange(s, m) case Some((dk, v)) => Put(s.dedup, dk, v) case None => s.dedup
  {
  }

  lemma StepParts(s: State, m: Move)
    requires Enabled(s, m)
    ensures Step(s, m).live == if AboutJob(m) then Put(s.live, m.id, LiveAfter(s, m)) else s.live
    ensures Step(s, m).dead == if AboutJob(m) then Put(s.dead, m.id, DeadAfter(s, m)) else s.dead
    ensures Step(s, m).dedup == DedupAfter(s, m)
    ensures Step(s, m).closing == Effect(s, m).closing
    ensures Step(s, m).audit == if m.Append? then s.audit + [m.entry] else s.audit
    ensures m.Append? ==> Step(s, m).closing == s.closing
  {
  }

  lemma JobLiveMirrored(st: Store, ix: Indexes, s: State, m: Move)
    requires LiveRows(st, ix, s.live) && Enabled(s, m) && AboutJob(m)
    ensures LiveRows(StoreAfter(st, s, m), IndexesAfter(ix, s, m), Put(s.live, m.id, LiveAfter(s, m)))
  {
    var (old', new') := (Lookup(s.live, m.id), LiveAfter(s, m));
    JobSpliced(st, ix, s.live, m.id, new');
    LiveFields(st, ix, s, m);
    SameLiveFields(SpliceJob(st, m.id, old', new'), SpliceJobIndex(ix, m.id, old', new'),
                   StoreAfter(st, s, m), IndexesAfter(ix, s, m), Put(s.live, m.id, new'));
  }

  lemma OtherLiveMirrored(st: Store, ix: Indexes, s: State, m: Move)
    requires LiveRows(st, ix, s.live) && Enabled(s, m) && !AboutJob(m)
    ensures LiveRows(StoreAfter(st, s, m), IndexesAfter(ix, s, m), s.live)
  {
    assert LiveFieldsEqual(st, ix, StoreAfter(st, s, m), IndexesAfter(ix, s, m));
    SameLiveFields(st, ix, StoreAfter(st, s, m), IndexesAfter(ix, s, m), s.live);
  }

  predicate LiveFieldsEqual(st: Store, ix: Indexes, st': Store, ix': Indexes) {
    && st.jobs == st'.jobs && st.payloads == st'.payloads && st.inflight == st'.inflight
    && st.ready == st'.ready && st.scheduled == st'.scheduled && st.leases == st'.leases
    && ix.ready == ix'.ready && ix.scheduled == ix'.scheduled && ix.leases == ix'.leases
  }

  lemma LiveFields(st: Store, ix: Indexes, s: State, m: Move)
    requires Enabled(s, m) && AboutJob(m)
    ensures LiveFieldsEqual(SpliceJob(st, m.id, Lookup(s.live, m.id), LiveAfter(s, m)),
                            SpliceJobIndex(ix, m.id, Lookup(s.live, m.id), LiveAfter(s, m)),
                            StoreAfter(st, s, m), IndexesAfter(ix, s, m))
  {
  }

  lemma SameLiveFields(st: Store, ix: Indexes, st': Store, ix': Indexes, live: map<Id, Job>)
    requires LiveFieldsEqual(st, ix, st', ix') && LiveRows(st, ix, live)
    ensures LiveRows(st', ix', live)
  {
  }

  lemma DeadMirrored(st: Store, ix: Indexes, s: State, m: Move)
    requires DeadRows(st, ix, s.dead) && Enabled(s, m)
    ensures DeadRows(StoreAfter(st, s, m), IndexesAfter(ix, s, m),
                     if AboutJob(m) then Put(s.dead, m.id, DeadAfter(s, m)) else s.dead)
  {
    if AboutJob(m) { DeadSpliced(st, ix, s.dead, m.id, DeadAfter(s, m)); }
  }

  lemma PinMirrored(st: Store, ix: Indexes, s: State, m: Move)
    requires PinRows(st, ix, s.dedup) && Enabled(s, m)
    ensures PinRows(StoreAfter(st, s, m), IndexesAfter(ix, s, m), DedupAfter(s, m))
  {
    DedupAfterIs(s, m);
    match PinChange(s, m) {
      case Some((dk, v)) => PinSpliced(st, ix, s.dedup, dk, v);
      case None =>
    }
  }

  lemma LiveStepMirrored(st: Store, ix: Indexes, s: State, m: Move)
    requires LiveRows(st, ix, s.live) && Enabled(s, m)
    ensures LiveRows(StoreAfter(st, s, m), IndexesAfter(ix, s, m), Step(s, m).live)
  {
    StepParts(s, m);
    if AboutJob(m) { JobLiveMirrored(st, ix, s, m); } else { OtherLiveMirrored(st, ix, s, m); }
  }

  lemma RecordStepMirrored(st: Store, ix: Indexes, s: State, m: Move)
    requires DeadRows(st, ix, s.dead) && PinRows(st, ix, s.dedup) && Enabled(s, m)
    ensures DeadRows(StoreAfter(st, s, m), IndexesAfter(ix, s, m), Step(s, m).dead)
    ensures PinRows(StoreAfter(st, s, m), IndexesAfter(ix, s, m), Step(s, m).dedup)
  {
    StepParts(s, m);
    DeadMirrored(st, ix, s, m);
    PinMirrored(st, ix, s, m);
  }

  lemma MetaFields(st: Store, ix: Indexes, s: State, m: Move)
    requires Enabled(s, m) && !m.Append?
    ensures StoreAfter(st, s, m).audit == st.audit && StoreAfter(st, s, m).auditSeq == st.auditSeq
    ensures StoreAfter(st, s, m).closing == Effect(s, m).closing
  {
  }

  lemma AppendMirrored(st: Store, log: seq<AuditEntry>, e: AuditEntry)
    requires AuditRows(st, log)
    ensures AuditRows(st.(auditSeq := Some(|log| + 1), audit := st.audit[|log| + 1 := e]), log + [e])
  {
  }

  lemma SameAudit(st: Store, st': Store, log: seq<AuditEntry>)
    requires AuditRows(st, log) && st.audit == st'.audit && st.auditSeq == st'.auditSeq
    ensures AuditRows(st', log)
  {
  }

  lemma MetaStepMirrored(st: Store, ix: Indexes, s: State, m: Move)
    requires AuditRows(st, s.audit) && st.closing == s.closing && ix.closing == s.closing && Enabled(s, m)
    ensures AuditRows(StoreAfter(st, s, m), Step(s, m).audit)
    ensures StoreAfter(st, s, m).closing == Step(s, m).closing && IndexesAfter(ix, s, m).closing == Step(s, m).closing
  {
    StepParts(s, m);
    if m.Append? {
      AppendMirrored(st, s.audit, m.entry);
    } else {
      MetaFields(st, ix, s, m);
      SameAudit(st, StoreAfter(st, s, m), s.audit);
    }
  }

  /** Every move's writes keep disk and memory in step with the machine. */
  lemma MoveMirrored(st: Store, ix: Indexes, s: State, m: Move)
    requires Mirrors(st, ix, s) && Enabled(s, m)
    ensures Mirrors(StoreAfter(st, s, m), IndexesAfter(ix, s, m), Step(s, m))
  {
    LiveStepMirrored(st, ix, s, m);
    RecordStepMirrored(st, ix, s, m);
    MetaStepMirrored(st, ix, s, m);
  }

  // ---- Rebuilding the indexes -------------------------------------------------------------

  /** `rebuild_indexes`: the indexes as read back from the keyspaces alone. */
  function Rebuild(st: Store): Indexes {
    Indexes(
      st.ready,
      map k | k in st.scheduled :: if JobIdOf(k) in st.jobs then st.jobs[JobIdOf(k)].queue else [],
      map k | k in st.leases :: if JobIdOf(k) in st.inflight then st.inflight[JobIdOf(k)].queue else [],
      map k | k in st.dedupTimers :: if k.TimerKey? then [] else k.queue,
      map k | k in st.deadLetter :: if k.TimerKey? then [] else k.queue,
      st.closing)
  }

  lemma SameMap<K, V>(a: map<K, V>, b: map<K, V>)
    requires forall k :: Lookup(a, k) == Lookup(b, k)
    ensures a == b
  {
    forall k ensures k in a <==> k in b { assert Lookup(a, k) == Lookup(b, k); }
    forall k | k in a ensures a[k] == b[k] { assert Lookup(a, k) == Lookup(b, k); }
  }

  lemma RebuildScheduled(st: Store, ix: Indexes, live: map<Id, Job>)
    requires LiveRows(st, ix, live)
    ensures Rebuild(st).scheduled == ix.scheduled
  {
    forall k ensures Lookup(Rebuild(st).scheduled, k) == Lookup(ix.scheduled, k) {
      assert Lookup(st.scheduled, k) == At(live, k, ScheduledRow, JobIdOf);
      assert Lookup(ix.scheduled, k) == At(live, k, ScheduledEntry, JobIdOf);
      assert Lookup(st.jobs, JobIdOf(k)) == if JobIdOf(k) in live then Some(RowOf(live[JobIdOf(k)])) else None;
    }
    SameMap(Rebuild(st).scheduled, ix.scheduled);
  }

  lemma RebuildLeases(st: Store, ix: Indexes, live: map<Id, Job>)
    requires LiveRows(st, ix, live)
    ensures Rebuild(st).leases == ix.leases
  {
    forall k ensures Lookup(Rebuild(st).leases, k) == Lookup(ix.leases, k) {
      assert Lookup(st.leases, k) == At(live, k, LeaseRow, JobIdOf);
      assert Lookup(ix.leases, k) == At(live, k, LeaseEntry, JobIdOf);
      assert Lookup(st.inflight, JobIdOf(k)) == if JobIdOf(k) in live then FlightOf(live[JobIdOf(k)]) else None;
    }
    SameMap(Rebuild(st).leases, ix.leases);
  }

  lemma RebuildReady(st: Store, ix: Indexes, live: map<Id, Job>)
    requires LiveRows(st, ix, live)
    ensures Rebuild(st).ready == ix.ready
  {
    forall k ensures Lookup(st.ready, k) == Lookup(ix.ready, k) {
      assert Lookup(st.ready, k) == At(live, k, ReadyRow, JobIdOf);
      assert Lookup(ix.ready, k) == At(live, k, ReadyRow, JobIdOf);
    }
    SameMap(st.ready, ix.ready);
  }

  lemma RebuildRecords(st: Store, ix: Indexes, dead: map<Id, Dead>, dedup: map<DedupKey, DedupValue>)
    requires DeadRows(st, ix, dead) && PinRows(st, ix, dedup)
    ensures Rebuild(st).deadLetter == ix.deadLetter && Rebuild(st).dedupTimers == ix.dedupTimers
  {
    forall k ensures Lookup(Rebuild(st).deadLetter, k) == Lookup(ix.deadLetter, k) {
      assert Lookup(st.deadLetter, k) == At(dead, k, DeadRow, JobIdOf);
      assert Lookup(ix.deadLetter, k) == At(dead, k, DeadEntry, JobIdOf);
    }
    SameMap(Rebuild(st).deadLetter, ix.deadLetter);
    forall k ensures Lookup(Rebuild(st).dedupTimers, k) == Lookup(ix.dedupTimers, k) {
      assert Lookup(st.dedupTimers, k) == At(dedup, k, PinRow, PinOf);
      assert Lookup(ix.dedupTimers, k) == At(dedup, k, PinEntry, PinOf);
    }
    SameMap(Rebuild(st).dedupTimers, ix.dedupTimers);
  }

  /** Whenever disk and memory mirror one state, rebuilding from disk gives exactly the
      indexes in memory. */
  lemma RebuildMatches(st: Store, ix: Indexes, s: State)
    requires Mirrors(st, ix, s)
    ensures Rebuild(st) == ix
  {
    hide LiveRows, DeadRows, PinRows, AuditRows;
    RebuildReady(st, ix, s.live);
    RebuildScheduled(st, ix, s.live);
    RebuildLeases(st, ix, s.live);
    RebuildRecords(st, ix, s.dead, s.dedup);
  }

  /** Store and indexes after a whole run of moves. */
  ghost function Written(st: Store, ix: Indexes, s: State, ms: seq<Move>): (Store, Indexes) {
    if ms == [] then (st, ix)
    else
      var m, t := ms[|ms| - 1], Run(s, ms[..|ms| - 1]);
      var (st', ix') := Written(st, ix, s, ms[..|ms| - 1]);
      if Enabled(t, m) then (StoreAfter(st', t, m), IndexesAfter(ix', t, m)) else (st', ix')
  }

  /** From any mirrored state, after any legal run, the indexes kept up to date in memory
      are exactly those a rebuild reads back from disk. */
  lemma {:induction false} RunMirrored(st: Store, ix: Indexes, s: State, ms: seq<Move>)
    requires Mirrors(st, ix, s) && Legal(s, ms)
    ensures var (st', ix') := Written(st, ix, s, ms); Mirrors(st', ix', Run(s, ms)) && Rebuild(st') == ix'
  {
    var (st', ix') := Written(st, ix, s, ms);
    if ms != [] {
      var front := ms[..|ms| - 1];
      RunMirrored(st, ix, s, front);
      MoveMirrored(Written(st, ix, s, front).0, Written(st, ix, s, front).1, Run(s, front), ms[|ms| - 1]);
    }
    RebuildMatches(st', ix', Run(s, ms));
  }

  // ---- What the keyspaces alone satisfy -------------------------------------------------------

  /** The one ready key a job row allows. */
  function RowKey(id: Id, r: JobRow): Key {
    ReadyKey(r.queue, Min(r.priority, 9), r.enqueuedAt, id)
  }

  ghost predicate IsWaiting(st: Store, id: Id) {
    exists d :: TimerKey(d, id) in st.scheduled
  }

  /** The rows of one job: ready, scheduled or inflight, exactly one of them, with its
      one lease timer while inflight; without a job row, nothing at all. */
  ghost predicate JobConsistent(st: Store, id: Id) {
    if id in st.jobs then
      var (r, w, f) := (RowKey(id, st.jobs[id]) in st.ready, IsWaiting(st, id), id in st.inflight);
      && (r || w || f) && !(r && w) && !(r && f) && !(w && f)
      && (forall d, e :: TimerKey(d, id) in st.scheduled && TimerKey(e, id) in st.scheduled ==> d == e)
      && (forall e :: TimerKey(e, id) in st.leases <==> f && st.inflight[id].expiry == e)
      && (f ==> AgreesWithRow(st.inflight[id], st.jobs[id]))
    else
      id !in st.payloads && id !in st.inflight && !IsWaiting(st, id) && forall e :: TimerKey(e, id) !in st.leases
  }

  /** A key of the job keyspaces belongs to a job row and agrees with it. */
  ghost predicate KeyConsistent(st: Store, k: Key) {
    && (k in st.ready ==> k.ReadyKey? && k.jobId in st.jobs && k == RowKey(k.jobId, st.jobs[k.jobId]))
    && (k in st.scheduled || k in st.leases ==> k.TimerKey? && k.jobId in st.jobs)
  }

  predicate AgreesWithRow(f: Flight, r: JobRow) {
    f.queue == r.queue && f.priority == r.priority && f.enqueuedAt == r.enqueuedAt
    && f.maxAttempts == r.maxAttempts && f.trace == r.trace && 1 <= f.attempt <= f.maxAttempts
  }

  /** Dead letters and dedup records, each under one key. */
  ghost predicate RecordsConsistent(st: Store) {
    && (forall k :: k in st.deadLetter ==> k.DeadLetterKey? && k.jobId !in st.jobs && st.deadLetter[k].id == k.jobId)
    && (forall k :: k in st.deadLetter ==> k == DeadLetterKey(st.deadLetter[k].record.failedAt,
                                                              st.deadLetter[k].record.queue, k.jobId))
    && (forall k, k' :: k in st.deadLetter && k' in st.deadLetter && JobIdOf(k) == JobIdOf(k') ==> k == k')
    && (forall d, q, x :: DedupTimerKey(d, q, x) in st.dedupTimers <==>
          DedupKey(q, x) in st.dedup && st.dedup[DedupKey(q, x)].deadline == d)
    && (forall k :: k in st.dedupTimers ==> k.DedupTimerKey?)
  }

  lemma RowsAt(st: Store, ix: Indexes, live: map<Id, Job>, id: Id)
    requires LiveRows(st, ix, live)
    ensures id in st.jobs <==> id in live
    ensures id in live ==> st.jobs[id] == RowOf(live[id])
    ensures id in live ==> (RowKey(id, RowOf(live[id])) in st.ready <==> live[id].place.Ready?)
    ensures forall d :: TimerKey(d, id) in st.scheduled <==>
              id in live && live[id].place.Scheduled? && live[id].place.deadline == d
    ensures forall e :: TimerKey(e, id) in st.leases <==>
              id in live && live[id].place.Leased? && live[id].place.expiry == e
    ensures id in st.inflight <==> id in live && live[id].place.Leased?
    ensures id in st.inflight ==> Some(st.inflight[id]) == FlightOf(live[id])
    ensures id in st.payloads ==> id in live
  {
    assert Lookup(st.jobs, id) == if id in live then Some(RowOf(live[id])) else None;
    assert Lookup(st.inflight, id) == if id in live then FlightOf(live[id]) else None;
    assert Lookup(st.payloads, id) == if id in live then live[id].body.payload else None;
    if id in live {
      var k := RowKey(id, RowOf(live[id]));
      assert Lookup(st.ready, k) == At(live, k, ReadyRow, JobIdOf);
    }
    forall d ensures TimerKey(d, id) in st.scheduled <==>
      id in live && live[id].place.Scheduled? && live[id].place.deadline == d {
      assert Lookup(st.scheduled, TimerKey(d, id)) == At(live, TimerKey(d, id), ScheduledRow, JobIdOf);
    }
    forall e ensures TimerKey(e, id) in st.leases <==>
      id in live && live[id].place.Leased? && live[id].place.expiry == e {
      assert Lookup(st.leases, TimerKey(e, id)) == At(live, TimerKey(e, id), LeaseRow, JobIdOf);
    }
  }

  lemma KeysAt(st: Store, ix: Indexes, live: map<Id, Job>, k: Key)
    requires LiveRows(st, ix, live)
    ensures k in st.ready ==> k.ReadyKey? && k.jobId in live && k == RowKey(k.jobId, RowOf(live[k.jobId]))
    ensures k in st.scheduled ==> k.TimerKey? && k.jobId in live
    ensures k in st.leases ==> k.TimerKey? && k.jobId in live
  {
    assert Lookup(st.ready, k) == At(live, k, ReadyRow, JobIdOf);
    assert Lookup(st.scheduled, k) == At(live, k, ScheduledRow, JobIdOf);
    assert Lookup(st.leases, k) == At(live, k, LeaseRow, JobIdOf);
  }

  /** In every mirrored state each job row is in exactly one of ready, scheduled and
      inflight, leases match inflight rows, and keys agree with the job row. */
  lemma MirroredIsConsistent(st: Store, ix: Indexes, s: State, id: Id, k: Key)
    requires Mirrors(st, ix, s) && Inv(s)
    ensures JobConsistent(st, id) && KeyConsistent(st, k)
  {
    RowsAt(st, ix, s.live, id);
    KeysAt(st, ix, s.live, k);
    if !k.DedupTimerKey? { RowsAt(st, ix, s.live, k.jobId); }
    if id in s.live && s.live[id].place.Scheduled? {
      assert TimerKey(s.live[id].place.deadline, id) in st.scheduled;
    }
  }

  lemma MirroredRecords(st: Store, ix: Indexes, s: State)
    requires Mirrors(st, ix, s) && Inv(s)
    ensures RecordsConsistent(st)
  {
    forall k | k in st.deadLetter
      ensures k.DeadLetterKey? && k.jobId in s.dead && st.deadLetter[k] == Letter(k.jobId, s.dead[k.jobId])
      ensures k == DeadLetterKey(s.dead[k.jobId].failedAt, s.dead[k.jobId].queue, k.jobId) && k.jobId !in st.jobs
    {
      assert Lookup(st.deadLetter, k) == At(s.dead, k, DeadRow, JobIdOf);
      RowsAt(st, ix, s.live, k.jobId);
    }
    forall k ensures k in st.dedupTimers <==> InDedupTimers(s, k) {
      assert Lookup(st.dedupTimers, k) == At(s.dedup, k, PinRow, PinOf);
    }
  }
}
