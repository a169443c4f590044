/** Long-polling reserves: every interleaving of waiters that join, arm, reserve and park with
    the committer's cycles, commits, rollbacks and wakes. */
module Wakeup {
  import opened Bytes
  import opened Keys
  import opened Machine
  import opened Ops
  import opened Legality
  import opened Scheduling

  type Notify = nat
  type WaiterId = nat

  /** Where a reserve call stands in its loop. `Asked` is between submitting its reserve and
      hearing back; `Parked` waits on the armed notifications. */
  datatype Stage =
    | Joining
    | Armed
    | Asked(empty: bool)
    | Parked

  /** `handles` are the notifiers the waiter holds, by queue; `woken` is set once one of them
      fired since it armed. */
  datatype Waiter = Waiter(queues: seq<Queue>, handles: map<Queue, Notify>, stage: Stage, woken: bool)

  /** A cycle under way: what it has made of the committed state, and its `new_ready`. */
  datatype Cycle = Cycle(current: State, newReady: set<Queue>)

  datatype World = World(
    committed: State,
    cycle: Option<Cycle>,
    pending: set<Queue>,
    notifiers: map<Queue, Notify>,
    next: Notify,
    waiters: map<WaiterId, Waiter>)

  datatype Event =
    | Enter(w: WaiterId, queues: seq<Queue>)
    | Hold(w: WaiterId, queue: Queue, prune: bool)
    | Arm(w: WaiterId)
    | BeginCycle
    | Operate(op: Op)
    | Ask(w: WaiterId, leaseMs: nat, maxJobs: nat, now: int)
    | Commit
    | Rollback
    | Wake(queue: Queue)
    | Resume(w: WaiterId)
    | Leave(w: WaiterId)

  // ---- The notifier map -------------------------------------------------------------------

  /** Notifiers some waiter holds: those with more than the map's own reference. */
  ghost predicate Held(ws: map<WaiterId, Waiter>, n: Notify) {
    exists w, q :: w in ws && q in ws[w].handles && ws[w].handles[q] == n
  }

  /** The map after pruning what nobody holds, when asked to. */
  ghost function Pruned(ns: map<Queue, Notify>, ws: map<WaiterId, Waiter>, prune: bool): map<Queue, Notify> {
    if prune then map q | q in ns && Held(ws, ns[q]) :: ns[q] else ns
  }

  /** Past this many queue names the map is pruned before each lookup. */
  const PruneThreshold: nat := 4096

  /** `QueueNotifiers`: one notifier per queue name, made on demand. */
  class QueueNotifiers {
    var notifiers: map<Queue, Notify>
    var next: Notify

    ghost predicate Valid()
      reads this
    {
      forall q :: q in notifiers ==> notifiers[q] < next
    }

    constructor ()
      ensures Valid() && notifiers == map[] && next == 0
    {
      notifiers, next := map[], 0;
    }

    /** The queue's notifier; entries held elsewhere survive the pruning that may come first. */
    method Get(q: Queue, held: set<Notify>) returns (n: Notify)
      requires Valid()
      modifies this
      ensures Valid() && q in notifiers && notifiers[q] == n
      ensures forall p :: p in old(notifiers) && old(notifiers)[p] in held ==>
                p in notifiers && notifiers[p] == old(notifiers)[p]
      ensures forall p :: p in notifiers && p != q ==> p in old(notifiers) && notifiers[p] == old(notifiers)[p]
      ensures |old(notifiers)| < 4096 ==>
                notifiers == if q in old(notifiers) then old(notifiers) else old(notifiers)[q := old(next)]
      ensures n == old(next) || (q in old(notifiers) && old(notifiers)[q] == n)
    {
      if |notifiers| >= PruneThreshold {
        notifiers := map p | p in notifiers && notifiers[p] in held :: notifiers[p];
      }
      if q !in notifiers {
        notifiers, next := notifiers[q := next], next + 1;
      }
      n := notifiers[q];
    }
  }

  // ---- Steps --------------------------------------------------------------------------------

  predicate At(w: World, id: WaiterId, stage: Stage) {
    id in w.waiters && w.waiters[id].stage == stage
  }

  predicate Possible(w: World, e: Event) {
    match e
    case Enter(id, _) => id !in w.waiters
    case Hold(id, q, _) => At(w, id, Joining) && q in w.waiters[id].queues && q !in w.waiters[id].handles
    case Arm(id) => At(w, id, Joining) && forall q :: q in w.waiters[id].queues ==> q in w.waiters[id].handles
    case BeginCycle => w.cycle.None? && w.pending == {}
    case Operate(_) => w.cycle.Some?
    case Ask(id, _, maxJobs, _) => w.cycle.Some? && At(w, id, Armed) && maxJobs >= 1
    case Commit => w.cycle.Some?
    case Rollback => w.cycle.Some?
    case Wake(q) => q in w.pending
    case Resume(id) => At(w, id, Parked) && w.waiters[id].woken
    case Leave(id) => id in w.waiters
  }

  ghost function Operated(c: Cycle, op: Op): Cycle {
    Cycle(Apply(c.current, op), c.newReady + NewReadyAll(c.current, PlanOf(c.current, op).moves))
  }

  /** Every armed waiter that holds the notifier hears it. */
  function Notified(ws: map<WaiterId, Waiter>, q: Queue, n: Notify): map<WaiterId, Waiter> {
    map id | id in ws :: ws[id].(woken := ws[id].woken
                                 || (!ws[id].stage.Joining? && q in ws[id].handles && ws[id].handles[q] == n))
  }

  /** A cycle that lands answers its reserves: those with jobs return, the others park. */
  function Answered(ws: map<WaiterId, Waiter>): map<WaiterId, Waiter> {
    map id | id in ws && ws[id].stage != Asked(false) ::
      if ws[id].stage == Asked(true) then ws[id].(stage := Parked) else ws[id]
  }

  /** A cycle that does not land fails its reserves. */
  function Refused(ws: map<WaiterId, Waiter>): map<WaiterId, Waiter> {
    map id | id in ws && !ws[id].stage.Asked? :: ws[id]
  }

  ghost function After(w: World, e: Event): World
    requires Possible(w, e)
  {
    match e
    case Enter(id, queues) => w.(waiters := w.waiters[id := Waiter(queues, map[], Joining, false)])
    case Hold(id, q, prune) =>
      var ns := Pruned(w.notifiers, w.waiters, prune);
      var n := if q in ns then ns[q] else w.next;
      w.(notifiers := ns[q := n], next := if q in ns then w.next else w.next + 1,
         waiters := w.waiters[id := w.waiters[id].(handles := w.waiters[id].handles[q := n])])
    case Arm(id) => w.(waiters := w.waiters[id := w.waiters[id].(stage := Armed, woken := false)])
    case BeginCycle => w.(cycle := Some(Cycle(w.committed, {})))
    case Operate(op) => w.(cycle := Some(Operated(w.cycle.value, op)))
    case Ask(id, leaseMs, maxJobs, now) =>
      var op := ReserveOp(w.waiters[id].queues, leaseMs, maxJobs, now);
      var empty := PlanOf(w.cycle.value.current, op).outcome == Reserved([]);
      w.(cycle := Some(Operated(w.cycle.value, op)),
         waiters := w.waiters[id := w.waiters[id].(stage := Asked(empty))])
    case Commit =>
      w.(committed := w.cycle.value.current, cycle := None, pending := w.cycle.value.newReady,
         waiters := Answered(w.waiters))
    case Rollback => w.(cycle := None, waiters := Refused(w.waiters))
    case Wake(q) =>
      w.(pending := w.pending - {q},
         waiters := if q in w.notifiers then Notified(w.waiters, q, w.notifiers[q]) else w.waiters)
    case Resume(id) => w.(waiters := w.waiters[id := w.waiters[id].(stage := Joining)])
    case Leave(id) => w.(waiters := w.waiters - {id})
  }

  ghost function Happen(w: World, e: Event): World {
    if Possible(w, e) then After(w, e) else w
  }

  ghost function Unfold(w: World, es: seq<Event>): World {
    if es == [] then w else Happen(Unfold(w, es[..|es| - 1]), es[|es| - 1])
  }

  // ---- What every interleaving keeps ------------------------------------------------------------

  /** A waiter's handles are the ones the map wakes. */
  ghost predicate InTouch(ns: map<Queue, Notify>, x: Waiter) {
    && (forall q :: q in x.handles ==> q in ns && ns[q] == x.handles[q])
    && (!x.stage.Joining? ==> forall q :: q in x.queues ==> q in x.handles)
  }

  /** Ready work in these queues is announced by `announced`. */
  ghost predicate Announced(s: State, queues: seq<Queue>, announced: set<Queue>) {
    forall q :: q in queues && HasReady(s, q) ==> q in announced
  }

  /** What a waiter can rely on: parked and unnotified, the committed ready work of its queues
      is still to be announced; told empty by the cycle under way, the same of that cycle. */
  ghost predicate Safe(w: World, x: Waiter) {
    && (x.stage.Parked? && !x.woken ==> Announced(w.committed, x.queues, w.pending))
    && (x.stage == Asked(true) ==> w.cycle.Some? && Announced(w.cycle.value.current, x.queues, w.cycle.value.newReady))
    && (x.stage.Asked? ==> w.cycle.Some?)
  }

  /** A cycle announces every queue it gives ready work to. */
  ghost predicate CycleOk(w: World) {
    w.cycle.Some? ==>
      && w.pending == {} && Inv(w.cycle.value.current)
      && forall q :: HasReady(w.cycle.value.current, q) ==> HasReady(w.committed, q) || q in w.cycle.value.newReady
  }

  ghost predicate Ok(w: World) {
    && Inv(w.committed) && CycleOk(w)
    && (forall id :: id in w.waiters ==> InTouch(w.notifiers, w.waiters[id]) && Safe(w, w.waiters[id]))
  }

  lemma OperatedOk(c: Cycle, op: Op, q: Queue)
    requires Inv(c.current)
    ensures Inv(Operated(c, op).current)
    ensures HasReady(Operated(c, op).current, q) ==> HasReady(c.current, q) || q in Operated(c, op).newReady
    ensures c.newReady <= Operated(c, op).newReady
  {
    hide PlanOf, HasReady;
    RunInv(c.current, PlanOf(c.current, op).moves);
    if HasReady(Operated(c, op).current, q) { NewReadyAllComplete(c.current, PlanOf(c.current, op).moves, q); }
  }

  /** What an operation leaves ready was ready, or is announced. */
  lemma OperatedAnnounces(c: Cycle, op: Op, queues: seq<Queue>)
    requires Inv(c.current) && Announced(c.current, queues, c.newReady)
    ensures Announced(Operated(c, op).current, queues, Operated(c, op).newReady)
  {
    hide HasReady, Operated;
    forall q | q in queues && HasReady(Operated(c, op).current, q) ensures q in Operated(c, op).newReady {
      OperatedOk(c, op, q);
    }
  }

  lemma OperateOk(w: World, op: Op)
    requires Ok(w) && w.cycle.Some?
    ensures Ok(w.(cycle := Some(Operated(w.cycle.value, op))))
  {
    hide HasReady, Operated, Inv, InTouch;
    var c := w.cycle.value;
    var w' := w.(cycle := Some(Operated(c, op)));
    OperatedOk(c, op, []);
    forall q | HasReady(Operated(c, op).current, q) ensures HasReady(w.committed, q) || q in Operated(c, op).newReady {
      OperatedOk(c, op, q);
    }
    forall id | id in w'.waiters ensures Safe(w', w'.waiters[id]) {
      if w.waiters[id].stage == Asked(true) { OperatedAnnounces(c, op, w.waiters[id].queues); }
    }
  }

  /** A reserve that comes back empty saw all its queues empty. */
  lemma EmptyMeansNone(c: Cycle, op: Op)
    requires Inv(c.current) && op.ReserveOp? && op.maxJobs >= 1 && PlanOf(c.current, op).outcome == Reserved([])
    ensures Announced(Operated(c, op).current, op.queues, Operated(c, op).newReady)
  {
    hide HasReady;
    forall q | q in op.queues ensures !HasReady(c.current, q) {
      EmptyReserve(c.current, op.queues, Machine.After(op.now, op.leaseMs), op.maxJobs, q);
    }
    OperatedAnnounces(c, op, op.queues);
  }

  lemma AskOk(w: World, e: Event)
    requires Ok(w) && Possible(w, e) && e.Ask?
    ensures Ok(After(w, e))
  {
    hide HasReady, Operated, Inv, PlanOf;
    var op := ReserveOp(w.waiters[e.w].queues, e.leaseMs, e.maxJobs, e.now);
    OperateOk(w, op);
    if PlanOf(w.cycle.value.current, op).outcome == Reserved([]) { EmptyMeansNone(w.cycle.value, op); }
  }

  lemma CommitOk(w: World)
    requires Ok(w) && w.cycle.Some?
    ensures Ok(After(w, Commit))
  {
    hide HasReady, Inv;
  }

  lemma HoldOk(w: World, e: Event)
    requires Ok(w) && Possible(w, e) && e.Hold?
    ensures Ok(After(w, e))
  {
    hide HasReady, Inv, Announced;
    var w' := After(w, e);
    forall id | id in w'.waiters ensures InTouch(w'.notifiers, w'.waiters[id]) {
      forall q | q in w'.waiters[id].handles ensures q in w'.notifiers && w'.notifiers[q] == w'.waiters[id].handles[q] {
        if q in w.waiters[id].handles {
          assert Held(w.waiters, w.waiters[id].handles[q]);
        }
      }
    }
  }

  lemma WakeOk(w: World, q: Queue)
    requires Ok(w) && q in w.pending
    ensures Ok(After(w, Wake(q)))
  {
    hide HasReady, Inv;
    var w' := After(w, Wake(q));
    forall id | id in w'.waiters ensures Safe(w', w'.waiters[id]) {
      var x := w.waiters[id];
      assert InTouch(w.notifiers, x);
    }
  }

  lemma OtherOk(w: World, e: Event)
    requires Ok(w) && Possible(w, e) && (e.Enter? || e.Arm? || e.BeginCycle? || e.Rollback? || e.Resume? || e.Leave?)
    ensures Ok(After(w, e))
  {
    hide HasReady, Inv;
  }

  lemma HappenOk(w: World, e: Event)
    requires Ok(w)
    ensures Ok(Happen(w, e))
  {
    hide Ok, After;
    if Possible(w, e) {
      match e {
        case Hold(_, _, _) => HoldOk(w, e);
        case Operate(op) => OperatesOk(w, op);
        case Ask(_, _, _, _) => AskOk(w, e);
        case Commit => CommitOk(w);
        case Wake(q) => WakeOk(w, q);
        case _ => OtherOk(w, e);
      }
    }
  }

  lemma OperatesOk(w: World, op: Op)
    requires Ok(w) && w.cycle.Some?
    ensures Ok(After(w, Operate(op)))
  {
    hide Ok, Operated, Pruned, Notified, Answered, Refused, PlanOf;
    OperateOk(w, op);
  }

  lemma {:induction false} UnfoldOk(w: World, es: seq<Event>)
    requires Ok(w)
    ensures Ok(Unfold(w, es))
  {
    if es != [] {
      UnfoldOk(w, es[..|es| - 1]);
      HappenOk(Unfold(w, es[..|es| - 1]), es[|es| - 1]);
    }
  }

  const NobodyYet: map<WaiterId, Waiter> := map[]

  /** No lost wake-up, from any committed state and over every interleaving: a parked reserve
      that has not been notified has no committed ready job in its queues, except in queues
      the last commit is still about to wake; and once those wakes are out, none at all. */
  lemma NoLostWakeup(s: State, es: seq<Event>, id: WaiterId, q: Queue)
    requires Inv(s)
    ensures var w := Unfold(World(s, None, {}, map[], 0, NobodyYet), es);
            && id in w.waiters && w.waiters[id].stage.Parked? && !w.waiters[id].woken
            && q in w.waiters[id].queues && HasReady(w.committed, q)
            ==> q in w.pending && w.cycle.None?
  {
    var w0 := World(s, None, {}, map[], 0, NobodyYet);
    assert Ok(w0) by { hide HasReady, Inv; }
    UnfoldOk(w0, es);
  }
}
