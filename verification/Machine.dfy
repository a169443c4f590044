/** The queue as an abstract machine: every live job, dead letter, dedup record and
    close tombstone once, and the per-job moves the operations are made of. */
module Machine {
  import opened Bytes
  import opened Keys

  type Blob = Bytes

  /** What a producer submitted and nothing ever changes. */
  datatype Body = Body(jobType: Blob, payload: Option<Blob>, priority: nat, maxAttempts: nat,
                       custom: Blob, trace: Blob)

  datatype Place =
    | Ready(attempt: nat)
    | Scheduled(attempt: nat, deadline: int)
    | Leased(attempt: nat, expiry: int)

  datatype Job = Job(queue: Queue, body: Body, enqueuedAt: int, scheduledAt: Option<int>, place: Place)

  datatype Cause = Rejected | AttemptsExhausted | LeaseExpired | Admin

  datatype Dead = Dead(queue: Queue, body: Body, enqueuedAt: int, scheduledAt: Option<int>,
                       failedAt: int, attempt: nat, cause: Cause, reason: Option<Blob>)

  datatype DedupKey = DedupKey(queue: Queue, key: Bytes)
  datatype DedupValue = DedupValue(enqueuedAt: int, deadline: int, id: Id)
  datatype AuditEntry = AuditEntry(ts: int, record: Blob)

  /** `used` holds every id ever assigned; a fresh UUID is one outside it.
      `audit[i]` is the entry with sequence number i + 1. */
  datatype State = State(
    live: map<Id, Job>,
    dead: map<Id, Dead>,
    dedup: map<DedupKey, DedupValue>,
    closing: map<Queue, int>,
    audit: seq<AuditEntry>,
    used: set<Id>)

  const Empty: State := State(map[], map[], map[], map[], [], {})

  datatype Pin = Pin(key: Bytes, deadline: int)

  datatype Move =
    | Insert(id: Id, job: Job, pin: Option<Pin>)
    | Lease(id: Id, expiry: int)
    | Ack(id: Id, attempt: nat)
    | Nack(id: Id, attempt: nat, force: bool, reason: Option<Blob>, delay: nat, now: int, keep: bool)
    | Extend(id: Id, attempt: nat, expiry: int)
    | Promote(id: Id, now: int)
    | Expire(id: Id, now: int, keep: bool)
    | Bury(id: Id, now: int, reason: Option<Blob>, keep: bool)
    | Revive(id: Id, now: int)
    | DropDead(id: Id)
    | DropLive(id: Id)
    | Forget(dk: DedupKey, due: Option<int>)
    | Close(queue: Queue, until: int)
    | Open(queue: Queue)
    | ExpireClosing(now: int)
    | Append(entry: AuditEntry)

  // ---- Reading the state -------------------------------------------------

  predicate IsReady(s: State, id: Id) {
    id in s.live && s.live[id].place.Ready?
  }

  predicate IsScheduled(s: State, id: Id) {
    id in s.live && s.live[id].place.Scheduled?
  }

  predicate IsLeased(s: State, id: Id) {
    id in s.live && s.live[id].place.Leased?
  }

  predicate HoldsLease(s: State, id: Id, attempt: nat) {
    IsLeased(s, id) && s.live[id].place.attempt == attempt
  }

  /** An unexpired close tombstone. */
  predicate IsClosing(s: State, q: Queue, now: int) {
    q in s.closing && s.closing[q] > now
  }

  function Unexpired(s: State, now: int): map<Queue, int> {
    map q | q in s.closing && s.closing[q] > now :: s.closing[q]
  }

  /** A dedup record that still answers at `now`. */
  predicate Pinned(s: State, dk: DedupKey, now: int) {
    dk in s.dedup && now < s.dedup[dk].deadline
  }

  /** Saturating i64 addition of a non-negative amount. */
  function SatAdd(a: int, b: int): int {
    Min(a + b, I64_MAX)
  }

  /** `now` plus a u64 of milliseconds, as the source computes every deadline. */
  function After(now: int, ms: nat): int {
    SatAdd(now, Min(ms, I64_MAX))
  }

  function ReadyKeyOf(id: Id, j: Job): Key {
    ReadyKey(j.queue, Min(j.body.priority, 9), j.enqueuedAt, id)
  }

  // ---- Moves -------------------------------------------------------------

  predicate Fresh(s: State, m: Move)
    requires m.Insert?
  {
    && m.id !in s.used
    && m.job.body.maxAttempts >= 1
    && m.job.place.attempt == 1 && !m.job.place.Leased?
    && !IsClosing(s, m.job.queue, m.job.enqueuedAt)
    && (m.pin.Some? ==> !Pinned(s, DedupKey(m.job.queue, m.pin.value.key), m.job.enqueuedAt))
  }

  predicate Enabled(s: State, m: Move) {
    match m
    case Insert(_, _, _) => Fresh(s, m)
    case Lease(id, _) => IsReady(s, id)
    case Ack(id, a) => HoldsLease(s, id, a)
    case Nack(id, a, _, _, _, _, _) => HoldsLease(s, id, a)
    case Extend(id, a, _) => HoldsLease(s, id, a)
    case Promote(id, now) => IsScheduled(s, id) && s.live[id].place.deadline <= now
    case Expire(id, now, _) => IsLeased(s, id) && s.live[id].place.expiry <= now
    case Bury(id, _, _, _) => id in s.live && !IsLeased(s, id)
    case Revive(id, _) => id in s.dead
    case DropDead(id) => id in s.dead
    case DropLive(id) => id in s.live && !IsLeased(s, id)
    case Forget(dk, due) => dk in s.dedup && (due.Some? ==> s.dedup[dk].deadline <= due.value)
    case Close(_, _) => true
    case Open(q) => q in s.closing
    case ExpireClosing(now) => Unexpired(s, now) != s.closing
    case Append(_) => true
  }

  predicate AboutJob(m: Move) {
    !m.Forget? && !m.Close? && !m.Open? && !m.ExpireClosing? && !m.Append?
  }

  predicate Exhausted(j: Job) {
    j.place.attempt >= j.body.maxAttempts
  }

  function DeadOf(j: Job, now: int, cause: Cause, reason: Option<Blob>): Dead {
    Dead(j.queue, j.body, j.enqueuedAt, j.scheduledAt, now, j.place.attempt, cause, reason)
  }

  function RevivedJob(d: Dead, now: int): Job {
    Job(d.queue, d.body, now, None, Ready(1))
  }

  function Lookup<K, V>(m: map<K, V>, k: K): Option<V> {
    if k in m then Some(m[k]) else None
  }

  function Put<K, V>(m: map<K, V>, k: K, v: Option<V>): map<K, V> {
    if v.Some? then m[k := v.value] else m - {k}
  }

  /** The job's row after the move, if it is still live. */
  function LiveAfter(s: State, m: Move): Option<Job>
    requires Enabled(s, m) && AboutJob(m)
  {
    match m
    case Insert(_, job, _) => Some(job)
    case Lease(id, e) => Some(s.live[id].(place := Leased(s.live[id].place.attempt, e)))
    case Nack(id, a, force, _, delay, now, _) =>
      if force || Exhausted(s.live[id]) then None
      else Some(s.live[id].(place := if delay > 0 then Scheduled(a + 1, After(now, delay)) else Ready(a + 1)))
    case Extend(id, a, e) => Some(s.live[id].(place := Leased(a, e)))
    case Promote(id, _) => Some(s.live[id].(place := Ready(s.live[id].place.attempt)))
    case Expire(id, _, _) =>
      if Exhausted(s.live[id]) then None
      else Some(s.live[id].(place := Ready(s.live[id].place.attempt + 1)))
    case Revive(id, now) => Some(RevivedJob(s.dead[id], now))
    case DropDead(id) => Lookup(s.live, id)
    case Ack(_, _) => None
    case Bury(_, _, _, _) => None
    case DropLive(_) => None
  }

  /** Why a move ends a job's life as a failure, if it does. */
  function Failure(s: State, m: Move): Option<Cause>
    requires Enabled(s, m) && AboutJob(m)
  {
    match m
    case Nack(id, _, force, _, _, _, _) =>
      if force then Some(Rejected) else if Exhausted(s.live[id]) then Some(AttemptsExhausted) else None
    case Expire(id, _, _) => if Exhausted(s.live[id]) then Some(LeaseExpired) else None
    case Bury(_, _, _, _) => Some(Admin)
    case _ => None
  }

  /** The job's dead letter after the move: failures leave one when they are kept. */
  function DeadAfter(s: State, m: Move): Option<Dead>
    requires Enabled(s, m) && AboutJob(m)
  {
    if Failure(s, m).Some? && m.keep then
      Some(DeadOf(s.live[m.id], m.now, Failure(s, m).value, if m.Expire? then None else m.reason))
    else if m.Revive? || m.DropDead? then None
    else Lookup(s.dead, m.id)
  }

  function DedupAfter(s: State, m: Move): map<DedupKey, DedupValue> {
    match m
    case Insert(id, job, Some(pin)) =>
      s.dedup[DedupKey(job.queue, pin.key) := DedupValue(job.enqueuedAt, pin.deadline, id)]
    case Forget(dk, _) => s.dedup - {dk}
    case _ => s.dedup
  }

  function Effect(s: State, m: Move): State
    requires Enabled(s, m)
  {
    if AboutJob(m) then
      s.(live := Put(s.live, m.id, LiveAfter(s, m)),
         dead := Put(s.dead, m.id, DeadAfter(s, m)),
         dedup := DedupAfter(s, m),
         used := if m.Insert? then s.used + {m.id} else s.used)
    else match m
         case Forget(_, _) => s.(dedup := DedupAfter(s, m))
         case Close(q, until) => s.(closing := s.closing[q := until])
         case Open(q) => s.(closing := s.closing - {q})
         case ExpireClosing(now) => s.(closing := Unexpired(s, now))
         case Append(e) => s.(audit := s.audit + [e])
  }

  /** A move that is not enabled changes nothing; `Legal` says that never comes up. */
  ghost function Step(s: State, m: Move): State {
    if Enabled(s, m) then Effect(s, m) else s
  }

  ghost function Run(s: State, ms: seq<Move>): State {
    if ms == [] then s else Step(Run(s, ms[..|ms| - 1]), ms[|ms| - 1])
  }

  ghost predicate Legal(s: State, ms: seq<Move>) {
    ms == [] || (Legal(s, ms[..|ms| - 1]) && Enabled(Run(s, ms[..|ms| - 1]), ms[|ms| - 1]))
  }

  lemma RunNone(s: State)
    ensures Run(s, []) == s && Legal(s, [])
  {
  }

  lemma RunOne(s: State, m: Move)
    ensures Run(s, [m]) == Step(s, m)
    ensures Legal(s, [m]) == Enabled(s, m)
  {
    assert [m][..0] == [];
    assert Run(s, []) == s;
  }

  lemma RunSnoc(s: State, ms: seq<Move>, m: Move)
    ensures Run(s, ms + [m]) == Step(Run(s, ms), m)
    ensures Legal(s, ms + [m]) == (Legal(s, ms) && Enabled(Run(s, ms), m))
  {
    assert (ms + [m])[..|ms|] == ms;
  }

  lemma {:induction false} RunConcat(s: State, a: seq<Move>, b: seq<Move>)
    ensures Run(s, a + b) == Run(Run(s, a), b)
    ensures Legal(s, a + b) == (Legal(s, a) && Legal(Run(s, a), b))
  {
    if b == [] {
      assert a + b == a;
    } else {
      var b', m := b[..|b| - 1], b[|b| - 1];
      assert a + b == (a + b') + [m] && b == b' + [m];
      RunConcat(s, a, b');
      RunSnoc(s, a + b', m);
    }
  }

  lemma StepJob(s: State, m: Move)
    requires Enabled(s, m) && AboutJob(m)
    ensures Step(s, m).live == Put(s.live, m.id, LiveAfter(s, m))
    ensures Step(s, m).dead == Put(s.dead, m.id, DeadAfter(s, m))
  {
  }

  lemma StepOther(s: State, m: Move)
    requires !AboutJob(m)
    ensures Step(s, m).live == s.live && Step(s, m).dead == s.dead
  {
  }

  // ---- What every move keeps ---------------------------------------------

  predicate JobOk(j: Job) {
    1 <= j.place.attempt <= j.body.maxAttempts
  }

  ghost predicate Inv(s: State) {
    && s.live.Keys !! s.dead.Keys
    && s.live.Keys <= s.used && s.dead.Keys <= s.used
    && (forall id :: id in s.live ==> JobOk(s.live[id]))
    && (forall id :: id in s.dead ==> s.dead[id].body.maxAttempts >= 1)
    && (forall dk :: dk in s.dedup ==> s.dedup[dk].id in s.used)
  }

  /** The touched job: at most one of live and dead, and within its attempts. */
  lemma TouchedJob(s: State, m: Move)
    requires Inv(s) && Enabled(s, m) && AboutJob(m)
    ensures LiveAfter(s, m).None? || DeadAfter(s, m).None?
    ensures LiveAfter(s, m).Some? ==> JobOk(LiveAfter(s, m).value)
    ensures DeadAfter(s, m).Some? ==> DeadAfter(s, m).value.body.maxAttempts >= 1
    ensures m.Insert? || m.id in s.used
  {
  }

  lemma PutInv(s: State, id: Id, l: Option<Job>, d: Option<Dead>, dedup: map<DedupKey, DedupValue>, used: set<Id>)
    requires Inv(s) && s.used <= used && id in used
    requires l.None? || d.None?
    requires l.Some? ==> JobOk(l.value)
    requires d.Some? ==> d.value.body.maxAttempts >= 1
    requires forall dk :: dk in dedup ==> dedup[dk].id in used
    ensures Inv(s.(live := Put(s.live, id, l), dead := Put(s.dead, id, d), dedup := dedup, used := used))
  {
  }

  lemma DedupIds(s: State, m: Move, dk: DedupKey)
    requires Inv(s) && Enabled(s, m) && dk in DedupAfter(s, m)
    ensures DedupAfter(s, m)[dk].id in s.used || (m.Insert? && DedupAfter(s, m)[dk].id == m.id)
  {
  }

  lemma JobStepInv(s: State, m: Move)
    requires Inv(s) && Enabled(s, m) && AboutJob(m)
    ensures Inv(Effect(s, m))
  {
    var used := if m.Insert? then s.used + {m.id} else s.used;
    TouchedJob(s, m);
    forall dk | dk in DedupAfter(s, m) ensures DedupAfter(s, m)[dk].id in used { DedupIds(s, m, dk); }
    PutInv(s, m.id, LiveAfter(s, m), DeadAfter(s, m), DedupAfter(s, m), used);
  }

  lemma StepInv(s: State, m: Move)
    requires Inv(s)
    ensures Inv(Step(s, m))
  {
    if Enabled(s, m) && AboutJob(m) {
      JobStepInv(s, m);
    }
  }

  lemma {:induction false} RunInv(s: State, ms: seq<Move>)
    requires Inv(s)
    ensures Inv(Run(s, ms))
  {
    if ms != [] {
      RunInv(s, ms[..|ms| - 1]);
      StepInv(Run(s, ms[..|ms| - 1]), ms[|ms| - 1]);
    }
  }

  predicate Touches(m: Move, id: Id) {
    AboutJob(m) && m.id == id
  }

  /** A move about one job leaves every other job and dead letter as it was. */
  lemma StepFrame(s: State, m: Move, id: Id)
    requires !Touches(m, id)
    ensures Lookup(Step(s, m).live, id) == Lookup(s.live, id)
    ensures Lookup(Step(s, m).dead, id) == Lookup(s.dead, id)
  {
    if Enabled(s, m) && AboutJob(m) {
      PutElsewhere(s.live, m.id, LiveAfter(s, m), id);
      PutElsewhere(s.dead, m.id, DeadAfter(s, m), id);
    }
  }

  lemma PutElsewhere<K, V>(m: map<K, V>, k: K, v: Option<V>, x: K)
    requires x != k
    ensures Lookup(Put(m, k, v), x) == Lookup(m, x)
  {
  }

  // ---- Queues a move makes work available in -----------------------------

  /** The queue in which `m` makes a job ready, as `cycle.new_ready` records it. */
  ghost function NewReady(s: State, m: Move): set<Queue> {
    if (m.Insert? || m.Nack? || m.Promote? || m.Expire? || m.Revive?)
       && IsReady(Step(s, m), m.id) && !IsReady(s, m.id)
    then {Step(s, m).live[m.id].queue} else {}
  }

  ghost function NewReadyAll(s: State, ms: seq<Move>): set<Queue> {
    if ms == [] then {}
    else NewReadyAll(s, ms[..|ms| - 1]) + NewReady(Run(s, ms[..|ms| - 1]), ms[|ms| - 1])
  }

  ghost predicate HasReady(s: State, q: Queue) {
    exists id :: IsReady(s, id) && s.live[id].queue == q
  }

  lemma NewReadyComplete(s: State, m: Move, q: Queue)
    requires Inv(s) && HasReady(Step(s, m), q) && !HasReady(s, q)
    ensures q in NewReady(s, m)
  {
    var id :| IsReady(Step(s, m), id) && Step(s, m).live[id].queue == q;
    if !Touches(m, id) {
      StepFrame(s, m, id);
    }
  }

  /** Every queue a run leaves with a ready job had one before or is in `new_ready`. */
  lemma {:induction false} NewReadyAllComplete(s: State, ms: seq<Move>, q: Queue)
    requires Inv(s) && HasReady(Run(s, ms), q)
    ensures HasReady(s, q) || q in NewReadyAll(s, ms)
  {
    if ms != [] {
      var front, m := ms[..|ms| - 1], ms[|ms| - 1];
      if HasReady(Run(s, front), q) {
        NewReadyAllComplete(s, front, q);
      } else {
        RunInv(s, front);
        NewReadyComplete(Run(s, front), m, q);
      }
    }
  }
}
