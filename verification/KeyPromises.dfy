/** What the admin operations do with the keys they are handed: each key that names a job of the queue
    acts once, every other key is missing. */
module KeyPromises {
  import opened Bytes
  import opened Keys
  import opened Machine
  import opened Ops
  import opened Legality
  import opened Lockstep
  import opened Promises

  predicate OnKeys(op: Op) {
    op.RequeueOp? || op.DeleteOp? || (op.BuryOp? && (op.state.PeekReady? || op.state.PeekScheduled?))
  }

  /** The key is the current key of a job of the operation's queue, in the place it acts on. */
  predicate Names(s: State, op: Op, k: Key)
    requires OnKeys(op)
  {
    if op.BuryOp? && op.state.PeekReady? then
      && k.ReadyKey? && k.jobId in s.live && s.live[k.jobId].place.Ready?
      && var j := s.live[k.jobId];
         k == ReadyKey(op.queue, if j.body.priority <= 9 then j.body.priority else 9, j.enqueuedAt, k.jobId)
         && j.queue == op.queue
    else if op.BuryOp? then
      && k.TimerKey? && k.jobId in s.live && s.live[k.jobId].place.Scheduled?
      && k.deadline == s.live[k.jobId].place.deadline && s.live[k.jobId].queue == op.queue
    else
      && k.DeadLetterKey? && k.jobId in s.dead
      && k == DeadLetterKey(s.dead[k.jobId].failedAt, op.queue, k.jobId) && s.dead[k.jobId].queue == op.queue
  }

  /** The jobs named, each at its first key, in the order of the keys. */
  function Picked(s: State, op: Op, keys: seq<Key>): seq<Id>
    requires OnKeys(op)
  {
    if keys == [] then []
    else
      var (ids, k) := (Picked(s, op, keys[..|keys| - 1]), keys[|keys| - 1]);
      ids + if Names(s, op, k) && JobIdOf(k) !in ids then [JobIdOf(k)] else []
  }

  /** Dead letters as jobs new in line. */
  function Back(s: State, now: int, ids: set<Id>): map<Id, Job> {
    map id | id in ids && id in s.dead :: Job(s.dead[id].queue, s.dead[id].body, now, None, Ready(1))
  }

  /** Live jobs as letters an admin made. */
  function Buried(s: State, now: int, reason: Option<Blob>, ids: set<Id>): map<Id, Dead> {
    map id | id in ids && id in s.live ::
      Dead(s.live[id].queue, s.live[id].body, s.live[id].enqueuedAt, s.live[id].scheduledAt, now,
           s.live[id].place.attempt, Admin, reason)
  }

  /** What becomes of the jobs picked: back in line as new, dropped, or dead-lettered by an admin. */
  function Acted(s: State, op: Op, ids: set<Id>): State
    requires OnKeys(op)
  {
    match op
    case RequeueOp(_, _, now) => s.(live := s.live + Back(s, now, ids), dead := s.dead - ids)
    case DeleteOp(_, _) => s.(dead := s.dead - ids)
    case BuryOp(_, _, _, reason, keep, now) =>
      s.(live := s.live - ids, dead := if keep then s.dead + Buried(s, now, reason, ids) else s.dead)
    case _ => s
  }

  // ---- One key --------------------------------------------------------------------------------------

  lemma NamesMove(s: State, op: Op, k: Key)
    requires OnKeys(op)
    ensures Names(s, op, k) <==> KeyMove(s, op, k) != []
    ensures Names(s, op, k) ==> MoveIds(KeyMove(s, op, k)) == [JobIdOf(k)] && |KeyMove(s, op, k)| == 1
    ensures Names(s, op, k) ==> !k.DedupTimerKey?
  {
  }

  /** A job already acted on is named no more; the others are as before. */
  lemma NamesLater(s: State, op: Op, ids: set<Id>, k: Key)
    requires OnKeys(op)
    ensures Names(Acted(s, op, ids), op, k) <==> Names(s, op, k) && JobIdOf(k) !in ids
  {
  }

  lemma ActNone(s: State, op: Op)
    requires OnKeys(op)
    ensures Acted(s, op, {}) == s
  {
    assert s.live - {} == s.live && s.dead - {} == s.dead;
    if op.RequeueOp? { assert s.live + Back(s, op.now, {}) == s.live; }
    if op.BuryOp? { assert s.dead + Buried(s, op.now, op.reason, {}) == s.dead; }
  }

  lemma ReviveIs(s: State, id: Id, now: int)
    requires id in s.dead
    ensures Step(s, Revive(id, now))
         == s.(live := s.live[id := Job(s.dead[id].queue, s.dead[id].body, now, None, Ready(1))], dead := s.dead - {id})
  {
  }

  lemma BackMore(s: State, now: int, ids: set<Id>, id: Id)
    requires id in s.dead
    ensures (s.live + Back(s, now, ids))[id := Job(s.dead[id].queue, s.dead[id].body, now, None, Ready(1))]
         == s.live + Back(s, now, ids + {id})
    ensures (s.dead - ids) - {id} == s.dead - (ids + {id})
  {
  }

  lemma RequeueOne(s: State, op: Op, ids: set<Id>, k: Key)
    requires op.RequeueOp? && Names(s, op, k) && k.jobId !in ids
    ensures Run(Acted(s, op, ids), KeyMove(Acted(s, op, ids), op, k)) == Acted(s, op, ids + {k.jobId})
  {
    hide Step, Back;
    var t := Acted(s, op, ids);
    NamesLater(s, op, ids, k);
    RunOne(t, Revive(k.jobId, op.now));
    ReviveIs(t, k.jobId, op.now);
    BackMore(s, op.now, ids, k.jobId);
  }

  lemma DeleteOne(s: State, op: Op, ids: set<Id>, k: Key)
    requires op.DeleteOp? && Names(s, op, k) && k.jobId !in ids
    ensures Run(Acted(s, op, ids), KeyMove(Acted(s, op, ids), op, k)) == Acted(s, op, ids + {k.jobId})
  {
    var t := Acted(s, op, ids);
    NamesLater(s, op, ids, k);
    RunOne(t, DropDead(k.jobId));
    var u := Acted(s, op, ids + {k.jobId});
    assert Step(t, DropDead(k.jobId)).live == u.live;
    assert Step(t, DropDead(k.jobId)).dead == u.dead;
  }

  lemma BuryIs(s: State, id: Id, now: int, reason: Option<Blob>, keep: bool)
    requires id in s.live && !s.live[id].place.Leased?
    ensures var j := s.live[id];
            var letter := Dead(j.queue, j.body, j.enqueuedAt, j.scheduledAt, now, j.place.attempt, Admin, reason);
            Step(s, Bury(id, now, reason, keep))
            == s.(live := s.live - {id}, dead := if keep then s.dead[id := letter] else s.dead)
  {
  }

  lemma BuriedMore(s: State, now: int, reason: Option<Blob>, ids: set<Id>, id: Id)
    requires id in s.live
    ensures var j := s.live[id];
            var letter := Dead(j.queue, j.body, j.enqueuedAt, j.scheduledAt, now, j.place.attempt, Admin, reason);
            (s.dead + Buried(s, now, reason, ids))[id := letter] == s.dead + Buried(s, now, reason, ids + {id})
    ensures (s.live - ids) - {id} == s.live - (ids + {id})
  {
  }

  lemma BuryOne(s: State, op: Op, ids: set<Id>, k: Key)
    requires op.BuryOp? && OnKeys(op) && Names(s, op, k) && k.jobId !in ids
    ensures Run(Acted(s, op, ids), KeyMove(Acted(s, op, ids), op, k)) == Acted(s, op, ids + {k.jobId})
  {
    hide Step, Buried;
    var t := Acted(s, op, ids);
    NamesLater(s, op, ids, k);
    RunOne(t, Bury(k.jobId, op.now, op.reason, op.keep));
    BuryIs(t, k.jobId, op.now, op.reason, op.keep);
    BuriedMore(s, op.now, op.reason, ids, k.jobId);
  }

  // ---- All keys ---------------------------------------------------------------------------------------

  /** One more key, on top of the jobs already acted on. */
  lemma KeyActs(s: State, op: Op, ids: set<Id>, k: Key)
    requires OnKeys(op)
    ensures var (t, hit) := (Acted(s, op, ids), Names(s, op, k) && JobIdOf(k) !in ids);
            && MoveIds(KeyMove(t, op, k)) == (if hit then [JobIdOf(k)] else [])
            && Run(t, KeyMove(t, op, k)) == Acted(s, op, if hit then ids + {JobIdOf(k)} else ids)
  {
    hide Acted, Run, MoveIds, KeyMove;
    var t := Acted(s, op, ids);
    NamesMove(t, op, k);
    NamesLater(s, op, ids, k);
    if Names(s, op, k) && JobIdOf(k) !in ids {
      if op.RequeueOp? {
        RequeueOne(s, op, ids, k);
      } else if op.DeleteOp? {
        DeleteOne(s, op, ids, k);
      } else {
        BuryOne(s, op, ids, k);
      }
    } else {
      RunNone(t);
      NoIds();
    }
  }

  lemma AsSetMore(ids: seq<Id>, id: Id)
    ensures AsSet(ids + [id]) == AsSet(ids) + {id} && AsSet([]) == {}
    ensures ids + [] == ids && (id in ids <==> id in AsSet(ids))
  {
  }

  lemma {:induction false} KeysRun(s: State, op: Op, keys: seq<Key>)
    requires OnKeys(op)
    ensures var ms := KeyMoves(s, op, keys);
            MoveIds(ms) == Picked(s, op, keys) && Run(s, ms) == Acted(s, op, AsSet(Picked(s, op, keys)))
  {
    hide Names, KeyMove, KeyMoves, Acted, Run, MoveIds, Picked, AsSet, JobIdOf;
    if keys == [] {
      NoKeyMoves(s, op);
      NonePicked(s, op);
      RunNone(s);
      ActNone(s, op);
      AsSetMore([], []);
    } else {
      var (n, front) := (|keys| - 1, keys[..|keys| - 1]);
      KeysRun(s, op, front);
      var (ms, ids) := (KeyMoves(s, op, front), Picked(s, op, front));
      assert keys[..n + 1] == keys;
      KeyMovesSnoc(s, op, keys, n);
      PickedLast(s, op, keys);
      KeyActs(s, op, AsSet(ids), keys[n]);
      AsSetMore(ids, JobIdOf(keys[n]));
      RunConcat(s, ms, KeyMove(Run(s, ms), op, keys[n]));
      MoveIdsConcat(ms, KeyMove(Run(s, ms), op, keys[n]));
    }
  }

  lemma NoIds()
    ensures MoveIds([]) == []
  {
  }

  /** Requeue, delete and dead-letter answer the jobs picked and count every other key as missing; the
      jobs picked are acted on and nothing else changes. */
  lemma KeysDo(s: State, op: Op)
    requires OnKeys(op)
    ensures var ids := Picked(s, op, op.keys);
            |ids| <= |op.keys| && Does(s, op, KeysHandled(ids, |op.keys| - |ids|), Acted(s, op, AsSet(ids)))
  {
    hide Names, Acted, Run;
    KeysRun(s, op, op.keys);
    assert |MoveIds(KeyMoves(s, op, op.keys))| == |KeyMoves(s, op, op.keys)|;
  }

  /** Only waiting jobs can be dead-lettered. */
  lemma BuryRefused(s: State, op: Op)
    requires op.BuryOp? && (op.state.PeekInflight? || op.state.PeekDeadLetter?)
    ensures Does(s, op, InvalidState, s)
  {
    RunNone(s);
  }

  ghost predicate NamedBy(s: State, op: Op, keys: seq<Key>, id: Id)
    requires OnKeys(op)
  {
    exists i :: 0 <= i < |keys| && Names(s, op, keys[i]) && JobIdOf(keys[i]) == id
  }

  lemma PickedLast(s: State, op: Op, keys: seq<Key>)
    requires OnKeys(op) && keys != []
    ensures var (was, k) := (Picked(s, op, keys[..|keys| - 1]), keys[|keys| - 1]);
            Picked(s, op, keys) == if Names(s, op, k) && JobIdOf(k) !in was then was + [JobIdOf(k)] else was
  {
    hide Names;
  }

  lemma {:induction false} PickedIsNamed(s: State, op: Op, keys: seq<Key>, id: Id)
    requires OnKeys(op)
    ensures id in Picked(s, op, keys) <==> NamedBy(s, op, keys, id)
  {
    hide Names, Picked;
    if keys == [] {
      assert Picked(s, op, []) == [] by { NonePicked(s, op); }
    } else {
      var (n, front) := (|keys| - 1, keys[..|keys| - 1]);
      PickedIsNamed(s, op, front, id);
      PickedLast(s, op, keys);
      if NamedBy(s, op, front, id) {
        var i :| 0 <= i < n && Names(s, op, front[i]) && JobIdOf(front[i]) == id;
        assert keys[i] == front[i];
      }
      if i :| 0 <= i < |keys| && Names(s, op, keys[i]) && JobIdOf(keys[i]) == id && i < n {
        assert front[i] == keys[i];
      }
    }
  }

  lemma NonePicked(s: State, op: Op)
    requires OnKeys(op)
    ensures Picked(s, op, []) == []
  {
  }

  /** The jobs picked are those some key names, none twice. */
  lemma {:induction false} PickedAre(s: State, op: Op, keys: seq<Key>)
    requires OnKeys(op)
    ensures var ids := Picked(s, op, keys);
            && (forall i, j :: 0 <= i < j < |ids| ==> ids[i] != ids[j])
            && (forall id :: id in ids <==> NamedBy(s, op, keys, id))
  {
    hide Names, Picked, NamedBy;
    forall id ensures id in Picked(s, op, keys) <==> NamedBy(s, op, keys, id) { PickedIsNamed(s, op, keys, id); }
    if keys == [] {
      NonePicked(s, op);
    } else {
      PickedAre(s, op, keys[..|keys| - 1]);
      PickedLast(s, op, keys);
    }
  }
}
