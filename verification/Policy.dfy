/** What is resolved before an operation is proposed: per-queue limits, retry delays, leases
    and the shortcuts the request path takes around looking them up. */
module Policy {
  import opened Bytes
  import opened Keys
  import opened Machine
  import opened Ops

  // ---- Saturating arithmetic ------------------------------------------------------------

  function SatMul(a: nat, b: nat): nat {
    Min(a * b, U64_MAX)
  }

  /** `2u64.saturating_pow(e)`: repeated saturating doubling. */
  function SatPow2(e: nat): nat {
    if e == 0 then 1 else SatMul(SatPow2(e - 1), 2)
  }

  function Pow2(e: nat): (r: nat)
    ensures r >= 1
  {
    if e == 0 then 1 else 2 * Pow2(e - 1)
  }

  /** Saturating at each doubling is saturating once at the end. */
  lemma {:induction false} SatPowIs(e: nat)
    ensures SatPow2(e) == Min(Pow2(e), U64_MAX)
  {
    if e > 0 { SatPowIs(e - 1); }
  }

  lemma {:induction false} Pow2Grows(d: nat, e: nat)
    requires d <= e
    ensures Pow2(d) <= Pow2(e)
  {
    if d < e { Pow2Grows(d, e - 1); }
  }

  // ---- Retry delay ----------------------------------------------------------------------

  datatype Backoff = NoBackoff | Exponential

  datatype RetryPolicy = RetryPolicy(delay: nat, backoff: Backoff, delayMax: nat, horizon: nat)

  predicate FitsU64(p: RetryPolicy) {
    p.delay <= U64_MAX && p.delayMax <= U64_MAX && p.horizon <= U64_MAX
  }

  function Doublings(attempt: nat): nat {
    if attempt == 0 then 0 else attempt - 1
  }

  /** The delay before jitter, as the saturating u64 code computes it. */
  function Capped(p: RetryPolicy, attempt: nat): nat {
    var grown := match p.backoff
      case NoBackoff => p.delay
      case Exponential => SatMul(p.delay, SatPow2(Doublings(attempt)));
    Min(grown, Min(p.delayMax, p.horizon))
  }

  /** `policy_retry_delay_ms`, the jitter hash left open. */
  function RetryDelay(p: RetryPolicy, attempt: nat, hash: nat): int {
    if p.delay == 0 then 0
    else Capped(p, attempt) - hash % (Capped(p, attempt) / 4 + 1)
  }

  /** The delay the policy describes, over unbounded integers. */
  function IdealDelay(p: RetryPolicy, attempt: nat): nat {
    Min(Min(p.delayMax, p.horizon), match p.backoff
                                    case NoBackoff => p.delay
                                    case Exponential => p.delay * Pow2(Doublings(attempt)))
  }

  lemma MulMonotone(a: nat, b: nat, c: nat)
    requires b <= c
    ensures a * b <= a * c
  {
  }

  /** Saturation never shows: capping the saturated product is capping the true one. */
  lemma CappedIsIdeal(p: RetryPolicy, attempt: nat)
    requires FitsU64(p) && p.delay >= 1
    ensures Capped(p, attempt) == IdealDelay(p, attempt)
  {
    var e := Doublings(attempt);
    SatPowIs(e);
    if Pow2(e) > U64_MAX {
      MulAtLeast(Pow2(e), p.delay);
      MulAtLeast(U64_MAX, p.delay);
    }
  }

  /** Later attempts wait at least as long, before jitter. */
  lemma DelayGrows(p: RetryPolicy, a: nat, b: nat)
    requires FitsU64(p) && p.delay >= 1 && a <= b
    ensures Capped(p, a) <= Capped(p, b)
  {
    CappedIsIdeal(p, a);
    CappedIsIdeal(p, b);
    Pow2Grows(Doublings(a), Doublings(b));
    MulMonotone(p.delay, Pow2(Doublings(a)), Pow2(Doublings(b)));
  }

  lemma JitterRange(c: nat, hash: nat)
    ensures c - c / 4 <= c - hash % (c / 4 + 1) <= c
  {
  }

  /** With jitter the delay stays within a quarter below the ideal one, never underflows, never
      exceeds either ceiling, and is positive exactly when the base and both ceilings are. */
  lemma RetryDelayInRange(p: RetryPolicy, attempt: nat, hash: nat)
    requires FitsU64(p)
    ensures p.delay >= 1 ==>
              var c := IdealDelay(p, attempt);
              c - c / 4 <= RetryDelay(p, attempt, hash) <= c
    ensures 0 <= RetryDelay(p, attempt, hash) <= Min(p.delayMax, p.horizon)
    ensures RetryDelay(p, attempt, hash) > 0 <==> p.delay >= 1 && p.delayMax >= 1 && p.horizon >= 1
  {
    if p.delay >= 1 {
      CappedIsIdeal(p, attempt);
      JitterRange(Capped(p, attempt), hash);
      MulAtLeast(p.delay, Pow2(Doublings(attempt)));
    }
  }

  // ---- Limits ------------------------------------------------------------------------------

  /** The limits that feed operations, resolved for one queue. */
  datatype Limits = Limits(maxLease: nat, defaultMaxAttempts: nat, attemptsCeiling: nat, defaultPriority: nat,
                           retryDelay: nat, backoff: Backoff, retryDelayMax: nat, horizon: nat, dedupWindow: nat,
                           maxDepth: Option<nat>)

  /** A `[[queues]]` entry: each limit may be overridden. */
  datatype Override = Override(name: Queue, maxLease: Option<nat>, defaultMaxAttempts: Option<nat>,
                               attemptsCeiling: Option<nat>, defaultPriority: Option<nat>, retryDelay: Option<nat>,
                               backoff: Option<Backoff>, retryDelayMax: Option<nat>, horizon: Option<nat>,
                               dedupWindow: Option<nat>, maxDepth: Option<nat>)

  datatype Config = Config(defaults: Limits, queues: seq<Override>)

  function Or<T>(o: Option<T>, d: T): T {
    if o.Some? then o.value else d
  }

  /** `merged_with`. */
  function Merged(d: Limits, q: Override): Limits {
    Limits(Or(q.maxLease, d.maxLease), Or(q.defaultMaxAttempts, d.defaultMaxAttempts),
           Or(q.attemptsCeiling, d.attemptsCeiling),
           Or(q.defaultPriority, d.defaultPriority), Or(q.retryDelay, d.retryDelay), Or(q.backoff, d.backoff),
           Or(q.retryDelayMax, d.retryDelayMax), Or(q.horizon, d.horizon), Or(q.dedupWindow, d.dedupWindow),
           if q.maxDepth.Some? then q.maxDepth else d.maxDepth)
  }

  predicate LimitsOk(l: Limits) {
    && 1 <= l.maxLease <= U64_MAX && 1 <= l.defaultMaxAttempts <= l.attemptsCeiling && l.defaultPriority <= 9
    && l.retryDelay <= l.retryDelayMax <= U64_MAX && l.retryDelayMax >= 1 && 1 <= l.horizon <= U64_MAX
    && l.dedupWindow >= 1
  }

  /** `Config::validate`: the defaults and every merged entry are in range and no name is
      declared twice. */
  predicate ConfigOk(cfg: Config) {
    && LimitsOk(cfg.defaults)
    && (forall i :: 0 <= i < |cfg.queues| ==> LimitsOk(Merged(cfg.defaults, cfg.queues[i])))
    && (forall i, j :: 0 <= i < j < |cfg.queues| ==> cfg.queues[i].name != cfg.queues[j].name)
  }

  // ---- The registry ----------------------------------------------------------------------------

  datatype Registry = Registry(defaults: Limits, declared: map<Queue, Override>, anyRetryPolicy: bool, minMaxLease: nat)

  function Declared(queues: seq<Override>): map<Queue, Override> {
    if queues == [] then map[]
    else Declared(queues[..|queues| - 1])[queues[|queues| - 1].name := queues[|queues| - 1]]
  }

  predicate AnyPositive(queues: seq<Override>) {
    exists i :: 0 <= i < |queues| && queues[i].retryDelay.Some? && queues[i].retryDelay.value > 0
  }

  function LeastLease(queues: seq<Override>, floor: nat): nat {
    if queues == [] then floor
    else
      var l := LeastLease(queues[..|queues| - 1], floor);
      var o := queues[|queues| - 1].maxLease;
      if o.Some? then Min(l, o.value) else l
  }

  /** `from_config`. */
  function FromConfig(cfg: Config): Registry {
    Registry(cfg.defaults, Declared(cfg.queues), cfg.defaults.retryDelay > 0 || AnyPositive(cfg.queues),
             LeastLease(cfg.queues, cfg.defaults.maxLease))
  }

  function Effective(r: Registry, q: Queue): Limits {
    if q in r.declared then Merged(r.defaults, r.declared[q]) else r.defaults
  }

  /** `retry_policy`: read field by field, without building the limits. */
  function RetryPolicyOf(r: Registry, q: Queue): RetryPolicy {
    var o := Lookup(r.declared, q);
    var d := r.defaults;
    RetryPolicy(if o.Some? && o.value.retryDelay.Some? then o.value.retryDelay.value else d.retryDelay,
                if o.Some? && o.value.backoff.Some? then o.value.backoff.value else d.backoff,
                if o.Some? && o.value.retryDelayMax.Some? then o.value.retryDelayMax.value else d.retryDelayMax,
                if o.Some? && o.value.horizon.Some? then o.value.horizon.value else d.horizon)
  }

  function DedupWindow(r: Registry, q: Queue): nat {
    if q in r.declared && r.declared[q].dedupWindow.Some?
    then r.declared[q].dedupWindow.value else r.defaults.dedupWindow
  }

  /** The two cheap readers are projections of the full resolution. */
  lemma ReadersProject(r: Registry, q: Queue)
    ensures var l := Effective(r, q);
            && RetryPolicyOf(r, q) == RetryPolicy(l.retryDelay, l.backoff, l.retryDelayMax, l.horizon)
            && DedupWindow(r, q) == l.dedupWindow
  {
  }

  lemma {:induction false} DeclaredIs(queues: seq<Override>, q: Queue)
    ensures q in Declared(queues) <==> exists i :: 0 <= i < |queues| && queues[i].name == q
    ensures q in Declared(queues) ==>
              exists i :: 0 <= i < |queues| && queues[i].name == q && Declared(queues)[q] == queues[i]
  {
    if queues != [] {
      var n := |queues| - 1;
      DeclaredIs(queues[..n], q);
      if q in Declared(queues[..n]) {
        var i :| 0 <= i < n && queues[..n][i].name == q && Declared(queues[..n])[q] == queues[..n][i];
        assert queues[i].name == q;
      }
      assert queues[n].name == queues[n].name;
    }
  }

  lemma DeclaredAt(cfg: Config, i: nat)
    requires ConfigOk(cfg) && i < |cfg.queues|
    ensures cfg.queues[i].name in Declared(cfg.queues) && Declared(cfg.queues)[cfg.queues[i].name] == cfg.queues[i]
  {
    DeclaredIs(cfg.queues, cfg.queues[i].name);
  }

  /** Queue names are unbounded, so some name is never declared. */
  lemma {:induction false} FreshName(queues: seq<Override>) returns (q: Queue)
    ensures forall i :: 0 <= i < |queues| ==> |queues[i].name| < |q|
  {
    if queues == [] {
      q := [];
    } else {
      q := FreshName(queues[..|queues| - 1]);
      var last := queues[|queues| - 1].name;
      q := q + last + [0];
    }
  }

  lemma Undeclared(cfg: Config) returns (q: Queue)
    ensures Effective(FromConfig(cfg), q) == cfg.defaults
  {
    q := FreshName(cfg.queues);
    DeclaredIs(cfg.queues, q);
  }

  /** Every queue's limits are valid once the config is. */
  lemma EffectiveOk(cfg: Config, q: Queue)
    requires ConfigOk(cfg)
    ensures LimitsOk(Effective(FromConfig(cfg), q))
  {
    DeclaredIs(cfg.queues, q);
  }

  lemma {:induction false} LeastLeaseIs(queues: seq<Override>, floor: nat)
    ensures LeastLease(queues, floor) <= floor
    ensures forall i :: 0 <= i < |queues| && queues[i].maxLease.Some? ==>
              LeastLease(queues, floor) <= queues[i].maxLease.value
    ensures LeastLease(queues, floor) == floor
         || exists i :: 0 <= i < |queues| && queues[i].maxLease == Some(LeastLease(queues, floor))
  {
    if queues != [] {
      var n := |queues| - 1;
      LeastLeaseIs(queues[..n], floor);
      assert forall i :: 0 <= i < n ==> queues[..n][i] == queues[i];
      var l := LeastLease(queues[..n], floor);
      if queues[n].maxLease.Some? && queues[n].maxLease.value < l {
        assert queues[n].maxLease == Some(LeastLease(queues, floor));
      } else if l != floor {
        var i :| 0 <= i < n && queues[..n][i].maxLease == Some(l);
        assert queues[i].maxLease == Some(LeastLease(queues, floor));
      }
    }
  }

  /** What a queue declares holds for it, limit by limit; the defaults hold for the rest and for every
      queue that declares nothing. */
  lemma DeclaredLimits(cfg: Config, q: Queue, i: nat)
    requires ConfigOk(cfg)
    ensures (forall k :: 0 <= k < |cfg.queues| ==> cfg.queues[k].name != q) ==>
              Effective(FromConfig(cfg), q) == cfg.defaults
    ensures i < |cfg.queues| && cfg.queues[i].name == q ==>
              var (o, d, l) := (cfg.queues[i], cfg.defaults, Effective(FromConfig(cfg), q));
              && l.maxLease == (if o.maxLease.Some? then o.maxLease.value else d.maxLease)
              && l.defaultMaxAttempts == (if o.defaultMaxAttempts.Some? then o.defaultMaxAttempts.value
                                          else d.defaultMaxAttempts)
              && l.attemptsCeiling == (if o.attemptsCeiling.Some? then o.attemptsCeiling.value else d.attemptsCeiling)
              && l.defaultPriority == (if o.defaultPriority.Some? then o.defaultPriority.value else d.defaultPriority)
              && l.retryDelay == (if o.retryDelay.Some? then o.retryDelay.value else d.retryDelay)
              && l.backoff == (if o.backoff.Some? then o.backoff.value else d.backoff)
              && l.retryDelayMax == (if o.retryDelayMax.Some? then o.retryDelayMax.value else d.retryDelayMax)
              && l.horizon == (if o.horizon.Some? then o.horizon.value else d.horizon)
              && l.dedupWindow == (if o.dedupWindow.Some? then o.dedupWindow.value else d.dedupWindow)
              && l.maxDepth == (if o.maxDepth.Some? then o.maxDepth else d.maxDepth)
  {
    DeclaredIs(cfg.queues, q);
    if i < |cfg.queues| && cfg.queues[i].name == q { DeclaredAt(cfg, i); }
  }

  // ---- Shortcuts ------------------------------------------------------------------------------------

  /** The nack shortcut is exact: the flag is down exactly when no queue and no attempt can
      ever resolve to a delay. */
  lemma NackShortcutExact(cfg: Config)
    requires ConfigOk(cfg)
    ensures !FromConfig(cfg).anyRetryPolicy <==>
            forall q, attempt: nat, hash: nat :: RetryDelay(RetryPolicyOf(FromConfig(cfg), q), attempt, hash) == 0
  {
    var r := FromConfig(cfg);
    if r.anyRetryPolicy {
      var q: Queue;
      if cfg.defaults.retryDelay > 0 {
        q := Undeclared(cfg);
      } else {
        var i :| 0 <= i < |cfg.queues| && cfg.queues[i].retryDelay.Some? && cfg.queues[i].retryDelay.value > 0;
        DeclaredAt(cfg, i);
        q := cfg.queues[i].name;
      }
      EffectiveOk(cfg, q);
      ReadersProject(r, q);
      RetryDelayInRange(RetryPolicyOf(r, q), 1, 0);
      assert RetryDelay(RetryPolicyOf(r, q), 1, 0) != 0;
    } else {
      forall q, attempt: nat, hash: nat ensures RetryDelay(RetryPolicyOf(r, q), attempt, hash) == 0 {
        DeclaredIs(cfg.queues, q);
      }
    }
  }

  /** `resolve_retry_delay` past the shortcut: `queue` is what the inflight lookup finds. */
  function LookedUpDelay(r: Registry, explicit: Option<nat>, queue: Option<Queue>, attempt: nat, hash: nat): int {
    if queue.None? then 0
    else
      var p := RetryPolicyOf(r, queue.value);
      if explicit.Some? then Min(explicit.value, p.horizon) else RetryDelay(p, attempt, hash)
  }

  function ResolvedDelay(r: Registry, explicit: Option<nat>, queue: Option<Queue>, attempt: nat, hash: nat): int {
    if explicit.None? && !r.anyRetryPolicy then 0 else LookedUpDelay(r, explicit, queue, attempt, hash)
  }

  /** The delay of a nack, shortcut or not: none without a queue, what was asked up to the queue's horizon,
      and otherwise what the queue's policy says, which is none, or within a quarter below the ideal delay. */
  lemma NackDelayIs(cfg: Config, explicit: Option<nat>, queue: Option<Queue>, attempt: nat, hash: nat)
    requires ConfigOk(cfg)
    ensures var r := FromConfig(cfg);
            var d := ResolvedDelay(r, explicit, queue, attempt, hash);
            if queue.None? then d == 0
            else
              var l := Effective(r, queue.value);
              var ideal := IdealDelay(RetryPolicy(l.retryDelay, l.backoff, l.retryDelayMax, l.horizon), attempt);
              && d <= l.horizon
              && (explicit.Some? ==> d == if explicit.value <= l.horizon then explicit.value else l.horizon)
              && (explicit.None? ==> if l.retryDelay == 0 then d == 0 else ideal - ideal / 4 <= d <= ideal && d >= 1)
  {
    var r := FromConfig(cfg);
    NackShortcutExact(cfg);
    if queue.Some? {
      EffectiveOk(cfg, queue.value);
      ReadersProject(r, queue.value);
      RetryDelayInRange(RetryPolicyOf(r, queue.value), attempt, hash);
      assert !r.anyRetryPolicy ==> RetryDelay(RetryPolicyOf(r, queue.value), attempt, hash) == 0;
    }
  }

  /** Skipping the lookup never changes the delay, and no delay passes the horizon. */
  lemma NackShortcutRefines(cfg: Config, explicit: Option<nat>, queue: Option<Queue>, attempt: nat, hash: nat)
    requires ConfigOk(cfg)
    ensures var r := FromConfig(cfg);
            var d := ResolvedDelay(r, explicit, queue, attempt, hash);
            && d == LookedUpDelay(r, explicit, queue, attempt, hash) && d >= 0
            && (queue.Some? ==> d <= Effective(r, queue.value).horizon)
  {
    NackShortcutExact(cfg);
    NackDelayIs(cfg, explicit, queue, attempt, hash);
    assert queue.Some? && !FromConfig(cfg).anyRetryPolicy ==>
             RetryDelay(RetryPolicyOf(FromConfig(cfg), queue.value), attempt, hash) == 0;
  }

  function ClampLease(r: Registry, q: Queue, requested: nat): nat {
    Min(requested, Effective(r, q).maxLease)
  }

  /** The extend shortcut is exact: at or under the floor no queue's clamp changes a lease, and
      above it some queue's does. */
  lemma ExtendShortcutExact(cfg: Config, requested: nat)
    requires ConfigOk(cfg)
    ensures requested <= FromConfig(cfg).minMaxLease <==>
              forall q :: ClampLease(FromConfig(cfg), q, requested) == requested
  {
    var r := FromConfig(cfg);
    LeastLeaseIs(cfg.queues, cfg.defaults.maxLease);
    if requested <= r.minMaxLease {
      forall q ensures ClampLease(r, q, requested) == requested { DeclaredIs(cfg.queues, q); }
    } else if r.minMaxLease == cfg.defaults.maxLease {
      var q := Undeclared(cfg);
      assert ClampLease(r, q, requested) != requested;
    } else {
      var i :| 0 <= i < |cfg.queues| && cfg.queues[i].maxLease == Some(r.minMaxLease);
      DeclaredAt(cfg, i);
      assert ClampLease(r, cfg.queues[i].name, requested) != requested;
    }
  }

  /** `resolve_extend_lease` once the job's queue is known. */
  function ExtendLease(r: Registry, q: Queue, requestedMs: nat): nat {
    var requested := Max(requestedMs, 1);
    if requested <= r.minMaxLease then requested else ClampLease(r, q, requested)
  }

  /** `reserve`'s clamp: the tightest ceiling of the queues asked for, and at least 1 ms. */
  method ReserveLease(r: Registry, queues: seq<Queue>, requestedMs: nat) returns (lease: nat)
    ensures lease >= 1
    ensures lease <= Max(1, requestedMs) && forall q :: q in queues ==> lease <= Max(1, Effective(r, q).maxLease)
    ensures || lease == Max(1, requestedMs) || lease == U64_MAX
            || exists q :: q in queues && lease == Max(1, Effective(r, q).maxLease)
  {
    var least := U64_MAX;
    for i := 0 to |queues|
      invariant forall j :: 0 <= j < i ==> least <= Effective(r, queues[j]).maxLease
      invariant least == U64_MAX || exists j :: 0 <= j < i && least == Effective(r, queues[j]).maxLease
    {
      var l := Effective(r, queues[i]).maxLease;
      if l < least { least := l; }
    }
    lease := Max(Min(requestedMs, least), 1);
  }

  /** Every granted lease, by reserve or by extend, is at least 1 ms and at most the ceiling of
      the job's queue, and extending through the shortcut or not makes no difference. */
  lemma ExtendLeaseInRange(cfg: Config, q: Queue, requestedMs: nat)
    requires ConfigOk(cfg)
    ensures var r := FromConfig(cfg);
            && 1 <= ExtendLease(r, q, requestedMs) <= Effective(r, q).maxLease
            && ExtendLease(r, q, requestedMs) == Min(Max(requestedMs, 1), Effective(r, q).maxLease)
  {
    EffectiveOk(cfg, q);
    ExtendShortcutExact(cfg, Max(requestedMs, 1));
    assert Max(requestedMs, 1) <= FromConfig(cfg).minMaxLease ==>
             ClampLease(FromConfig(cfg), q, Max(requestedMs, 1)) == Max(requestedMs, 1);
  }

  method GrantLease(cfg: Config, queues: seq<Queue>, requestedMs: nat) returns (lease: nat)
    requires ConfigOk(cfg)
    ensures lease >= 1 && forall q :: q in queues ==> lease <= Effective(FromConfig(cfg), q).maxLease
  {
    forall q | q in queues ensures Effective(FromConfig(cfg), q).maxLease >= 1 { EffectiveOk(cfg, q); }
    lease := ReserveLease(FromConfig(cfg), queues, requestedMs);
  }

  // ---- Job limits -----------------------------------------------------------------------------------

  datatype Request = Request(queue: Queue, body: Body, priority: Option<nat>, maxAttempts: Option<nat>,
                             scheduledAt: Option<int>, key: Option<Bytes>)

  /** What request validation lets through. */
  predicate RequestOk(req: Request) {
    (req.priority.Some? ==> req.priority.value <= 9) && (req.maxAttempts.Some? ==> req.maxAttempts.value >= 1)
  }

  /** `PreparedJob::new`: limits of the live registry, the dedup window of the one at boot. */
  function Prepare(req: Request, id: Id, live: Registry, boot: Registry): Prepared {
    var l := Effective(live, req.queue);
    Prepared(id, req.queue,
             req.body.(priority := Or(req.priority, l.defaultPriority),
                       maxAttempts := Min(Or(req.maxAttempts, l.defaultMaxAttempts), l.attemptsCeiling)),
             req.scheduledAt, req.key, DedupWindow(boot, req.queue), l.maxDepth)
  }

  /** Under valid configs a prepared job has 1 to ceiling attempts, a priority of 0 to 9 and a
      positive dedup window, so inserting it never starts past its attempts. */
  lemma PreparedInRange(req: Request, id: Id, live: Config, boot: Config)
    requires RequestOk(req) && ConfigOk(live) && ConfigOk(boot)
    ensures var j := Prepare(req, id, FromConfig(live), FromConfig(boot));
            var l := Effective(FromConfig(live), req.queue);
            && 1 <= j.body.maxAttempts <= l.attemptsCeiling && j.body.priority <= 9
            && (req.maxAttempts.Some? ==> j.body.maxAttempts == Min(req.maxAttempts.value, l.attemptsCeiling))
            && (req.maxAttempts.None? ==> j.body.maxAttempts == l.defaultMaxAttempts)
            && j.body.priority == (if req.priority.Some? then req.priority.value else l.defaultPriority)
            && j.cap == l.maxDepth && j.id == id && j.queue == req.queue && j.scheduledAt == req.scheduledAt
            && j.key == req.key
            && j.body.(priority := 0, maxAttempts := 0) == req.body.(priority := 0, maxAttempts := 0)
            && j.dedupWindow == Effective(FromConfig(boot), req.queue).dedupWindow >= 1
            && forall now :: JobOk(InsertMove(j, now).job)
  {
    EffectiveOk(live, req.queue);
    EffectiveOk(boot, req.queue);
    ReadersProject(FromConfig(boot), req.queue);
  }
}
