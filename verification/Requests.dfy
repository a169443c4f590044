/** The request path's own bookkeeping: times on the wire and the slots of a batch. */
module Requests {
  import opened Bytes

  // ---- Times on the wire -------------------------------------------------------------------------------

  const I64_MIN: int := -0x8000_0000_0000_0000

  datatype Timestamp = Timestamp(seconds: int, nanos: int)

  function Saturate(v: int): int {
    if v < I64_MIN then I64_MIN else if v > I64_MAX then I64_MAX else v
  }

  /** Euclidean division keeps nanos non-negative, so the value is already normalized. */
  function MillisToTimestamp(ms: int): Timestamp {
    Timestamp(ms / 1000, ms % 1000 * 1_000_000)
  }

  function TimestampToMillis(t: Timestamp): int {
    Saturate(Saturate(t.seconds * 1000) + t.nanos / 1_000_000)
  }

  /** Milliseconds survive the round trip exactly from the first whole second an i64 of
      milliseconds can hold: below it the multiplication saturates. */
  lemma TimestampRoundTrip(ms: int)
    requires I64_MIN <= ms <= I64_MAX
    ensures TimestampToMillis(MillisToTimestamp(ms)) == ms <==> ms >= -9_223_372_036_854_775_000
  {
    var t := MillisToTimestamp(ms);
    assert ms == t.seconds * 1000 + ms % 1000;
    assert t.nanos / 1_000_000 == ms % 1000;
  }

  function MillisToDuration(ms: nat): Timestamp {
    Timestamp(ms / 1000, ms % 1000 * 1_000_000)
  }

  function DurationToMillis(d: Timestamp): nat {
    Min(Min(Max(d.seconds, 0) * 1000, U64_MAX) + Max(d.nanos, 0) / 1_000_000, U64_MAX)
  }

  /** Every u64 of milliseconds fits a duration and comes back unchanged. */
  lemma DurationRoundTrip(ms: nat)
    requires ms <= U64_MAX
    ensures MillisToDuration(ms).seconds <= I64_MAX && DurationToMillis(MillisToDuration(ms)) == ms
  {
    var d := MillisToDuration(ms);
    assert ms == d.seconds * 1000 + ms % 1000;
    assert d.nanos / 1_000_000 == ms % 1000;
  }

  // ---- Batches --------------------------------------------------------------------------------------------

  /** How many of the first `i` slots are left for the committer to fill. */
  function Open<R>(slots: seq<Option<R>>, i: nat): nat
    requires i <= |slots|
  {
    if i == 0 then 0 else Open(slots, i - 1) + if slots[i - 1].None? then 1 else 0
  }

  /** `enqueue_batch`, before the commit: rejected requests get their slot at once. */
  method SplitBatch<T, R>(jobs: seq<T>, rejection: T -> Option<R>) returns (valid: seq<T>, slots: seq<Option<R>>)
    ensures |slots| == |jobs| && forall i :: 0 <= i < |jobs| ==> slots[i] == rejection(jobs[i])
    ensures |valid| == Open(slots, |slots|)
    ensures forall i :: 0 <= i < |jobs| && slots[i].None? ==>
              Open(slots, i) < |valid| && valid[Open(slots, i)] == jobs[i]
  {
    valid, slots := [], [];
    for i := 0 to |jobs|
      invariant |slots| == i && |valid| == Open(slots, i)
      invariant forall j :: 0 <= j < i ==> slots[j] == rejection(jobs[j])
      invariant forall j :: 0 <= j < i && slots[j].None? ==>
                  Open(slots, j) < |valid| && valid[Open(slots, j)] == jobs[j]
    {
      var r := rejection(jobs[i]);
      ghost var was := slots;
      slots := slots + [r];
      forall j | 0 <= j <= i ensures Open(slots, j) == Open(was, j) { OpenPrefix(was, r, j); }
      if r.None? { valid := valid + [jobs[i]]; }
    }
  }

  lemma {:induction false} OpenPrefix<R>(slots: seq<Option<R>>, r: Option<R>, i: nat)
    requires i <= |slots|
    ensures Open(slots + [r], i) == Open(slots, i)
  {
    if i > 0 { OpenPrefix(slots, r, i - 1); }
  }

  lemma {:induction false} OpenGrows<R>(slots: seq<Option<R>>, i: nat, j: nat)
    requires i <= j <= |slots|
    ensures Open(slots, i) <= Open(slots, j)
  {
    if i < j { OpenGrows(slots, i, j - 1); }
  }

  /** After the commit: the results go to the open slots in order. */
  method MergeBatch<R>(slots: seq<Option<R>>, results: seq<R>) returns (merged: seq<R>)
    requires |results| == Open(slots, |slots|)
    ensures |merged| == |slots|
    ensures forall i :: 0 <= i < |slots| && slots[i].Some? ==> merged[i] == slots[i].value
    ensures forall i :: 0 <= i < |slots| && slots[i].None? ==>
              Open(slots, i) < |results| && merged[i] == results[Open(slots, i)]
  {
    merged := [];
    for i := 0 to |slots|
      invariant |merged| == i
      invariant forall j :: 0 <= j < i && slots[j].Some? ==> merged[j] == slots[j].value
      invariant forall j :: 0 <= j < i && slots[j].None? ==>
                  Open(slots, j) < |results| && merged[j] == results[Open(slots, j)]
    {
      OpenGrows(slots, i + 1, |slots|);
      merged := merged + [if slots[i].Some? then slots[i].value else results[Open(slots, i)]];
    }
  }
}
