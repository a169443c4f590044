/** What a reserve hands out: the first jobs, queue by queue in the order asked for. */
module Scheduling {
  import opened Bytes
  import opened Keys
  import opened Listing
  import opened Machine
  import opened Ops
  import opened Legality

  /** Where a queue first stands in the request. */
  function Index(queues: seq<Queue>, q: Queue): nat {
    if queues == [] || queues[0] == q then 0 else 1 + Index(queues[1..], q)
  }

  /** Ready jobs of the requested queues. */
  ghost predicate Available(s: State, queues: seq<Queue>, id: Id) {
    IsReady(s, id) && s.live[id].queue in queues
  }

  /** The order in which a reserve prefers jobs. */
  ghost predicate Preferred(s: State, queues: seq<Queue>, a: Id, b: Id)
    requires a in s.live && b in s.live
  {
    var (i, j) := (Index(queues, s.live[a].queue), Index(queues, s.live[b].queue));
    i < j || (i == j && KeyLess(ReadyKeyOf(a, s.live[a]), ReadyKeyOf(b, s.live[b])))
  }

  ghost predicate Delivered(ds: seq<Delivery>, id: Id) {
    exists i :: 0 <= i < |ds| && ds[i].id == id
  }

  /** `ds` is the preferred-first listing of the available jobs, cut off at `n`. */
  ghost predicate Serves(s: State, queues: seq<Queue>, expiry: int, n: nat, ds: seq<Delivery>) {
    && |ds| <= n
    && (forall i :: 0 <= i < |ds| ==> Available(s, queues, ds[i].id) && ds[i] == DeliveryOf(s, ds[i].id, expiry))
    && (forall i, j :: 0 <= i < j < |ds| ==> Preferred(s, queues, ds[i].id, ds[j].id))
    && (forall id :: Available(s, queues, id) && !Delivered(ds, id) ==> |ds| == n)
    && (forall id, i :: Available(s, queues, id) && !Delivered(ds, id) && 0 <= i < |ds|
                        ==> Preferred(s, queues, ds[i].id, id))
  }

  lemma LaterIndex(queues: seq<Queue>, q: Queue)
    requires queues != [] && q != queues[0]
    ensures Index(queues, q) == 1 + Index(queues[1..], q)
    ensures q in queues ==> q in queues[1..]
  {
  }

  /** A queue with nothing ready can be left out of the request. */
  lemma ServeSkip(s: State, queues: seq<Queue>, expiry: int, n: nat, ds: seq<Delivery>)
    requires queues != [] && OwnedBy(s, ReadyKeys(s), queues[0]) == {} && Serves(s, queues[1..], expiry, n, ds)
    ensures Serves(s, queues, expiry, n, ds)
  {
    forall id ensures Available(s, queues, id) <==> Available(s, queues[1..], id)
      ensures Available(s, queues, id) ==> Index(queues, s.live[id].queue) == 1 + Index(queues[1..], s.live[id].queue)
    {
      if Available(s, queues, id) {
        assert s.live[id].queue != queues[0] by {
          assert InReady(s, ReadyKeyOf(id, s.live[id]));
          assert ReadyKeyOf(id, s.live[id]) !in OwnedBy(s, ReadyKeys(s), queues[0]);
        }
        LaterIndex(queues, s.live[id].queue);
      }
    }
    forall i, j | 0 <= i < j < |ds| ensures Preferred(s, queues, ds[i].id, ds[j].id) {
      assert Available(s, queues, ds[i].id) && Available(s, queues, ds[j].id);
      assert Preferred(s, queues[1..], ds[i].id, ds[j].id);
    }
    forall id, i | Available(s, queues, id) && !Delivered(ds, id) && 0 <= i < |ds| ensures Preferred(s, queues,
                                                                                                     ds[i].id, id) {
      assert Available(s, queues, ds[i].id);
      assert Preferred(s, queues[1..], ds[i].id, id);
    }
  }

  /** After the lease of `id` the same jobs are available but for it, and all as before. */
  lemma AfterLease(s: State, id: Id, expiry: int, x: Id)
    requires IsReady(s, id)
    ensures var t := Step(s, Lease(id, expiry));
            (IsReady(t, x) <==> IsReady(s, x) && x != id) && (IsReady(t, x) ==> t.live[x] == s.live[x])
  {
    if x != id {
      StepFrame(s, Lease(id, expiry), x);
      assert Lookup(Step(s, Lease(id, expiry)).live, x) == Lookup(s.live, x);
    }
  }

  /** The first queue's least key is preferred to every other available job. */
  lemma NextIsPreferred(s: State, queues: seq<Queue>, x: Id)
    requires queues != [] && OwnedBy(s, ReadyKeys(s), queues[0]) != {}
    ensures var id := JobIdOf(NextKey(s, queues[0]));
            Available(s, queues, id) && (Available(s, queues, x) && x != id ==> Preferred(s, queues, id, x))
  {
    var k := NextKey(s, queues[0]);
    assert InReady(s, k) && k.queue == queues[0];
    if Available(s, queues, x) && x != k.jobId {
      var k' := ReadyKeyOf(x, s.live[x]);
      assert InReady(s, k');
      if k'.queue == queues[0] {
        assert k' in OwnedBy(s, ReadyKeys(s), queues[0]);
      } else {
        LaterIndex(queues, k'.queue);
      }
    }
  }

  /** `t` is `s` without the availability of `id`. */
  ghost predicate Leaves(s: State, t: State, id: Id) {
    && (forall x :: IsReady(t, x) <==> IsReady(s, x) && x != id)
    && (forall x :: IsReady(t, x) ==> t.live[x] == s.live[x])
  }

  lemma ServeNext(s: State, t: State, queues: seq<Queue>, expiry: int, n: nat, id: Id, ds: seq<Delivery>)
    requires n > 0 && Available(s, queues, id) && Leaves(s, t, id) && Serves(t, queues, expiry, n - 1, ds)
    requires forall x :: Available(s, queues, x) && x != id ==> Preferred(s, queues, id, x)
    ensures Serves(s, queues, expiry, n, [DeliveryOf(s, id, expiry)] + ds)
  {
    var all := [DeliveryOf(s, id, expiry)] + ds;
    forall i | 0 <= i < |all| ensures Available(s, queues, all[i].id) && all[i] == DeliveryOf(s, all[i].id, expiry) {
      if i > 0 { assert Available(t, queues, ds[i - 1].id); }
    }
    forall i, j | 0 <= i < j < |all| ensures Preferred(s, queues, all[i].id, all[j].id) {
      assert Available(t, queues, ds[j - 1].id);
      if i > 0 {
        assert Available(t, queues, ds[i - 1].id);
        assert Preferred(t, queues, ds[i - 1].id, ds[j - 1].id);
      }
    }
    forall x | Available(s, queues, x) && !Delivered(all, x)
      ensures |all| == n && forall i :: 0 <= i < |all| ==> Preferred(s, queues, all[i].id, x)
    {
      assert all[0].id == id;
      assert Available(t, queues, x);
      assert forall i :: 0 <= i < |ds| ==> all[i + 1] == ds[i];
      assert !Delivered(ds, x);
      forall i | 0 <= i < |all| ensures Preferred(s, queues, all[i].id, x) {
        if i > 0 {
          assert Available(t, queues, ds[i - 1].id);
          assert Preferred(t, queues, ds[i - 1].id, x);
        }
      }
    }
  }

  /** A reserve returns exactly the first min(max_jobs, available) jobs: queues in the
      order listed, within a queue most urgent and then oldest first. */
  lemma {:induction false} ReserveExact(s: State, queues: seq<Queue>, expiry: int, n: nat)
    ensures Serves(s, queues, expiry, n, ReservePlan(s, queues, expiry, n).1)
    decreases |queues|, n
  {
    if queues == [] || n == 0 {
      assert ReservePlan(s, queues, expiry, n).1 == [];
    } else if OwnedBy(s, ReadyKeys(s), queues[0]) == {} {
      ReserveExact(s, queues[1..], expiry, n);
      ServeSkip(s, queues, expiry, n, ReservePlan(s, queues[1..], expiry, n).1);
    } else {
      var id := JobIdOf(NextKey(s, queues[0]));
      var t := Step(s, Lease(id, expiry));
      NextIsPreferred(s, queues, id);
      ReserveExact(t, queues, expiry, n - 1);
      forall x ensures (IsReady(t, x) <==> IsReady(s, x) && x != id) && (IsReady(t, x) ==> t.live[x] == s.live[x]) {
        AfterLease(s, id, expiry, x);
      }
      forall x | Available(s, queues, x) && x != id ensures Preferred(s, queues, id, x) {
        NextIsPreferred(s, queues, x);
      }
      ServeNext(s, t, queues, expiry, n, id, ReservePlan(t, queues, expiry, n - 1).1);
    }
  }

  /** It leases exactly the jobs it returns, in that order. */
  lemma {:induction false} ReserveLeasesWhatItReturns(s: State, queues: seq<Queue>, expiry: int, n: nat)
    ensures var (ms, ds) := ReservePlan(s, queues, expiry, n);
            |ms| == |ds| && (forall i :: 0 <= i < |ds| ==> ms[i] == Lease(ds[i].id, expiry))
    decreases |queues|, n
  {
    hide Step, NextKey, OwnedBy, ReadyKeys;
    if queues != [] && n != 0 {
      if OwnedBy(s, ReadyKeys(s), queues[0]) == {} {
        ReserveLeasesWhatItReturns(s, queues[1..], expiry, n);
      } else {
        ReserveLeasesWhatItReturns(Step(s, Lease(JobIdOf(NextKey(s, queues[0])), expiry)), queues, expiry, n - 1);
      }
    }
  }

  /** An empty answer to a request for at least one job means the queues are empty. */
  lemma EmptyReserve(s: State, queues: seq<Queue>, expiry: int, n: nat, q: Queue)
    requires n >= 1 && ReservePlan(s, queues, expiry, n).1 == [] && q in queues
    ensures !HasReady(s, q)
  {
    ReserveExact(s, queues, expiry, n);
    if HasReady(s, q) {
      var id :| IsReady(s, id) && s.live[id].queue == q;
      assert Available(s, queues, id);
    }
  }
}
