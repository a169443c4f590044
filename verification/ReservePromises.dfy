/** What a reserve answers and leaves: which jobs, in what order, under which lease. */
module ReservePromises {
  import opened Bytes
  import opened Keys
  import opened Machine
  import opened Ops
  import opened Legality
  import opened Scheduling
  import Deliveries
  import opened Promises
  import opened WaitPromises

  /** A job in line in one of the queues asked for. */
  predicate Waiting(s: State, queues: seq<Queue>, id: Id) {
    id in s.live && s.live[id].place.Ready? && s.live[id].queue in queues
  }

  /** `p` is listed before any mention of `q`. */
  ghost predicate ListedFirst(queues: seq<Queue>, p: Queue, q: Queue) {
    exists i :: 0 <= i < |queues| && queues[i] == p && forall j :: 0 <= j <= i ==> queues[j] != q
  }

  /** Priorities above nine count as nine. */
  function Urgency(j: Job): nat {
    if j.body.priority <= 9 then j.body.priority else 9
  }

  /** In its queue: more urgent, else longer in line, else the smaller id. */
  predicate AheadInQueue(s: State, a: Id, b: Id)
    requires a in s.live && b in s.live
  {
    var (x, y) := (s.live[a], s.live[b]);
    || Urgency(x) > Urgency(y)
    || (Urgency(x) == Urgency(y) && (x.enqueuedAt < y.enqueuedAt || (x.enqueuedAt == y.enqueuedAt && Lex(a, b))))
  }

  ghost predicate Ahead(s: State, queues: seq<Queue>, a: Id, b: Id)
    requires a in s.live && b in s.live
  {
    if s.live[a].queue == s.live[b].queue then AheadInQueue(s, a, b)
    else ListedFirst(queues, s.live[a].queue, s.live[b].queue)
  }

  function Out(ds: seq<Delivery>): set<Id> {
    set i | 0 <= i < |ds| :: ds[i].id
  }

  /** The live jobs with those in `ids` leased until `expiry`. */
  function LeasedOut(s: State, ids: set<Id>, expiry: int): map<Id, Job> {
    map id | id in s.live ::
      if id in ids then s.live[id].(place := Leased(s.live[id].place.attempt, expiry)) else s.live[id]
  }

  // ---- The order -------------------------------------------------------------------------------------

  lemma {:induction false} IndexIs(queues: seq<Queue>, q: Queue)
    requires q in queues
    ensures var i := Index(queues, q); i < |queues| && queues[i] == q && forall j :: 0 <= j < i ==> queues[j] != q
  {
    if queues[0] != q { IndexIs(queues[1..], q); }
  }

  lemma PreferredIsAhead(s: State, queues: seq<Queue>, a: Id, b: Id)
    requires Waiting(s, queues, a) && Waiting(s, queues, b) && Preferred(s, queues, a, b)
    ensures Ahead(s, queues, a, b)
  {
    hide KeyLess, Index;
    var (p, q) := (s.live[a].queue, s.live[b].queue);
    IndexIs(queues, p);
    IndexIs(queues, q);
    if p == q {
      ReadyOrder(ReadyKeyOf(a, s.live[a]), ReadyKeyOf(b, s.live[b]));
    } else {
      assert queues[Index(queues, p)] == p;
    }
  }

  lemma {:induction false} NeverBeforeItself(s: seq<int>)
    ensures !Lex(s, s)
  {
    if s != [] { NeverBeforeItself(s[1..]); }
  }

  lemma AheadIsOther(s: State, queues: seq<Queue>, a: Id, b: Id)
    requires a in s.live && b in s.live && Ahead(s, queues, a, b)
    ensures a != b
  {
    NeverBeforeItself(a);
  }

  // ---- The state -------------------------------------------------------------------------------------

  function Leases(ids: seq<Id>, expiry: int): seq<Move> {
    seq(|ids|, i requires 0 <= i < |ids| => Lease(ids[i], expiry))
  }

  lemma LeaseOne(s: State, id: Id, expiry: int)
    requires IsReady(s, id)
    ensures Step(s, Lease(id, expiry)) == s.(live := LeasedOut(s, {id}, expiry))
  {
    if id !in s.dead { assert Put(s.dead, id, None) == s.dead; }
    assert Put(s.live, id, LiveAfter(s, Lease(id, expiry))) == LeasedOut(s, {id}, expiry);
  }

  lemma LeasedMore(s: State, ids: set<Id>, id: Id, expiry: int)
    requires IsReady(s, id) && id !in ids
    ensures var t := s.(live := LeasedOut(s, ids, expiry));
            IsReady(t, id) && LeasedOut(t, {id}, expiry) == LeasedOut(s, ids + {id}, expiry)
  {
  }

  lemma {:induction false} LeasesRun(s: State, ids: seq<Id>, expiry: int)
    requires forall i :: 0 <= i < |ids| ==> IsReady(s, ids[i])
    requires forall i, j :: 0 <= i < j < |ids| ==> ids[i] != ids[j]
    ensures Run(s, Leases(ids, expiry)) == s.(live := LeasedOut(s, AsSet(ids), expiry))
  {
    hide Run, Step, LeasedOut;
    if ids == [] {
      RunNone(s);
      assert Leases(ids, expiry) == [] && AsSet(ids) == {};
      assert LeasedOut(s, {}, expiry) == s.live by { NoneLeased(s, expiry); }
    } else {
      var (front, id) := (ids[..|ids| - 1], ids[|ids| - 1]);
      LeasesRun(s, front, expiry);
      var done := AsSet(front);
      assert Leases(ids, expiry) == Leases(front, expiry) + [Lease(id, expiry)];
      RunSnoc(s, Leases(front, expiry), Lease(id, expiry));
      LeasedMore(s, done, id, expiry);
      LeaseOne(s.(live := LeasedOut(s, done, expiry)), id, expiry);
      assert ids == front + [id];
      assert AsSet(ids) == done + {id};
    }
  }

  lemma NoneLeased(s: State, expiry: int)
    ensures LeasedOut(s, {}, expiry) == s.live
  {
  }

  // ---- Reserve ---------------------------------------------------------------------------------------

  /** A reserve hands out at most the number asked for, first those of queues listed earlier and in a
      queue the most urgent and oldest; it stops short only when no job of those queues is left in line;
      each is delivered as stored, leased for the time asked, and nothing but those jobs changes. */
  lemma ReserveDoes(s: State, queues: seq<Queue>, leaseMs: nat, maxJobs: nat, now: int)
    ensures var (o, expiry) := (PlanOf(s, ReserveOp(queues, leaseMs, maxJobs, now)).outcome, Later(now, leaseMs));
            && o.Reserved? && |o.jobs| <= maxJobs
            && (forall i :: 0 <= i < |o.jobs| ==>
                  Waiting(s, queues, o.jobs[i].id)
                  && var j := s.live[o.jobs[i].id]; o.jobs[i].job == j.(place := Leased(j.place.attempt, expiry)))
            && (forall i, j :: 0 <= i < j < |o.jobs| ==> Ahead(s, queues, o.jobs[i].id, o.jobs[j].id))
            && (forall id :: Waiting(s, queues, id) && id !in Out(o.jobs) ==>
                  |o.jobs| == maxJobs && forall i :: 0 <= i < maxJobs ==> Ahead(s, queues, o.jobs[i].id, id))
            && Apply(s, ReserveOp(queues, leaseMs, maxJobs, now)) == s.(live := LeasedOut(s, Out(o.jobs), expiry))
  {
    hide Run, Step, Ahead, Preferred, LeasedOut, ReservePlan;
    var expiry := After(now, leaseMs);
    assert expiry == Later(now, leaseMs);
    var (ms, ds) := ReservePlan(s, queues, expiry, maxJobs);
    ReserveExact(s, queues, expiry, maxJobs);
    ReserveLeasesWhatItReturns(s, queues, expiry, maxJobs);
    assert forall id :: Waiting(s, queues, id) <==> Available(s, queues, id);
    forall i, j | 0 <= i < j < |ds| ensures Ahead(s, queues, ds[i].id, ds[j].id) && ds[i].id != ds[j].id {
      PreferredIsAhead(s, queues, ds[i].id, ds[j].id);
      AheadIsOther(s, queues, ds[i].id, ds[j].id);
    }
    forall id | Waiting(s, queues, id) && id !in Out(ds)
      ensures |ds| == maxJobs && forall i :: 0 <= i < maxJobs ==> Ahead(s, queues, ds[i].id, id)
    {
      assert !Delivered(ds, id);
      forall i | 0 <= i < |ds| ensures Ahead(s, queues, ds[i].id, id) { PreferredIsAhead(s, queues, ds[i].id, id); }
    }
    var ids := seq(|ds|, i requires 0 <= i < |ds| => ds[i].id);
    LeasesRun(s, ids, expiry);
    assert ms == Leases(ids, expiry);
    assert AsSet(ids) == Out(ds) by { forall i | 0 <= i < |ds| ensures ds[i].id in ids { assert ids[i] in ids; } }
  }

  /** A delivered job stays leased as delivered for as long as its lease lasts, unless its holder ends it. */
  lemma DeliveryHolds(s: State, op: Op, i: nat, ops: seq<Op>)
    requires Inv(s) && op.ReserveOp? && PlanOf(s, op).outcome.Reserved? && i < |PlanOf(s, op).outcome.jobs|
    requires var d := PlanOf(s, op).outcome.jobs[i];
             forall j :: 0 <= j < |ops| ==> Undisturbed(ops[j], d.id, d.job.place.attempt, Later(op.now, op.leaseMs))
    ensures var d := PlanOf(s, op).outcome.jobs[i];
            Lookup(ApplyAll(Apply(s, op), ops).live, d.id) == Some(d.job)
  {
    hide Inv, PlanOf, Apply, Undisturbed, Ahead;
    ReserveDoes(s, op.queues, op.leaseMs, op.maxJobs, op.now);
    Deliveries.OpKeepsInv(s, op);
    LeaseStands(Apply(s, op), PlanOf(s, op).outcome.jobs[i].id, ops);
  }
}
