/** The summary of a load test: outcome counts, errors by stage and latency percentiles. */
module Report {
  import opened Collections

  datatype ClientResult = ClientResult(connected: bool, connectionTime: int, stage: string)

  datatype Report = Report(
    total: nat, connected: nat, failed: nat, errorRate: real,
    p50: int, p95: int, p99: int, max: int,
    errorsByStage: map<string, nat>, nodesCount: int)

  // ---------------------------------------------------------------------------------------------------------------
  // What the report is about.

  function Latencies(results: seq<ClientResult>): seq<int> {
    if results == [] then []
    else
      var last := results[|results| - 1];
      Latencies(results[..|results| - 1]) + (if last.connected then [last.connectionTime] else [])
  }

  /** How many clients failed at a stage. */
  function FailedAt(results: seq<ClientResult>, stage: string): nat {
    if results == [] then 0
    else
      var last := results[|results| - 1];
      FailedAt(results[..|results| - 1], stage) + (if !last.connected && last.stage == stage then 1 else 0)
  }

  /** How many values are smaller than v. */
  function Below(s: seq<int>, v: int): nat {
    if s == [] then 0 else (if s[0] < v then 1 else 0) + Below(s[1..], v)
  }

  /** v is a value with at most q percent of all values below it and more than q percent at or below it. */
  predicate IsPercentile(s: seq<int>, q: nat, v: int) {
    v in s && 100 * Below(s, v) <= q * |s| < 100 * Below(s, v + 1)
  }

  /** There is only one such value. */
  lemma PercentileIsUnique(s: seq<int>, q: nat, v: int, w: int)
    requires IsPercentile(s, q, v) && IsPercentile(s, q, w)
    ensures v == w
  {
    if v < w { BelowIsMonotone(s, v + 1, w); } else if w < v { BelowIsMonotone(s, w + 1, v); }
  }

  lemma {:induction false} BelowIsMonotone(s: seq<int>, v: int, w: int)
    requires v <= w
    ensures Below(s, v) <= Below(s, w) <= |s|
  {
    if s != [] { BelowIsMonotone(s[1..], v, w); }
  }

  /** Percentiles are ordered like their percentages. */
  lemma PercentilesAreOrdered(s: seq<int>, q: nat, v: int, r: nat, w: int)
    requires IsPercentile(s, q, v) && IsPercentile(s, r, w) && q <= r
    ensures v <= w
  {
    assert q * |s| <= r * |s|;
    if w < v { BelowIsMonotone(s, w + 1, v); }
  }

  // ---------------------------------------------------------------------------------------------------------------
  // Sorting.

  predicate Sorted(s: seq<int>) { forall i, j :: 0 <= i < j < |s| ==> s[i] <= s[j] }

  function Insert(x: int, s: seq<int>): seq<int> {
    if s == [] || x <= s[0] then [x] + s else [s[0]] + Insert(x, s[1..])
  }

  function Sort(s: seq<int>): seq<int> { if s == [] then [] else Insert(s[0], Sort(s[1..])) }

  lemma {:induction false} InsertKeeps(x: int, s: seq<int>, v: int)
    ensures Below(Insert(x, s), v) == (if x < v then 1 else 0) + Below(s, v)
    ensures |Insert(x, s)| == |s| + 1 && (v in Insert(x, s) <==> v == x || v in s)
  {
    if s == [] || x <= s[0] {
      assert ([x] + s)[1..] == s;
    } else {
      InsertKeeps(x, s[1..], v);
      assert Insert(x, s)[1..] == Insert(x, s[1..]);
      assert s == [s[0]] + s[1..];
    }
  }

  lemma {:induction false} InsertSorts(x: int, s: seq<int>)
    requires Sorted(s)
    ensures Sorted(Insert(x, s))
  {
    if s != [] && x > s[0] {
      InsertSorts(x, s[1..]);
      forall j | 0 <= j < |Insert(x, s[1..])| ensures s[0] <= Insert(x, s[1..])[j] {
        InsertKeeps(x, s[1..], Insert(x, s[1..])[j]);
      }
    }
  }

  /** Sorting orders the values and keeps each as often as it was. */
  lemma {:induction false} SortSorts(s: seq<int>)
    ensures Sorted(Sort(s)) && |Sort(s)| == |s|
    ensures forall v :: v in Sort(s) <==> v in s
    ensures forall v :: Below(Sort(s), v) == Below(s, v)
  {
    if s != [] {
      SortSorts(s[1..]);
      InsertSorts(s[0], Sort(s[1..]));
      InsertKeeps(s[0], Sort(s[1..]), 0);
      assert s == [s[0]] + s[1..];
      forall v ensures v in Sort(s) <==> v in s { InsertKeeps(s[0], Sort(s[1..]), v); }
      forall v ensures Below(Sort(s), v) == Below(s, v) { InsertKeeps(s[0], Sort(s[1..]), v); }
    }
  }

  lemma {:induction false} BelowBounds(s: seq<int>, v: int, i: nat)
    requires i <= |s|
    ensures (forall j :: i <= j < |s| ==> s[j] >= v) ==> Below(s, v) <= i
    ensures (forall j :: 0 <= j < i ==> s[j] < v) ==> Below(s, v) >= i
  {
    if s != [] {
      BelowBounds(s[1..], v, if i > 0 then i - 1 else 0);
      if i == 0 && (forall j :: i <= j < |s| ==> s[j] >= v) {
        forall j | 0 <= j < |s[1..]| ensures s[1..][j] >= v { assert s[1..][j] == s[j + 1]; }
      } else if i > 0 {
        assert (forall j :: i <= j < |s| ==> s[j] >= v) ==> forall j :: i - 1 <= j < |s[1..]| ==> s[1..][j] >= v;
      }
    }
  }

  /** The index of a percentile among so many sorted values. */
  function Index(count: nat, q: nat): nat { count * q / 100 }

  lemma IndexFits(count: nat, q: nat)
    requires count > 0 && q < 100
    ensures Index(count, q) < count && 100 * Index(count, q) <= q * count < 100 * (Index(count, q) + 1)
  {
    assert count * q < count * 100;
  }

  /** The value at an index of the sorted values has that many values below it, and more at or below it. */
  lemma CountsAtIndex(s: seq<int>, i: nat)
    requires i < |s|
    ensures |Sort(s)| == |s|
    ensures var v := Sort(s)[i]; v in s && Below(s, v) <= i < Below(s, v + 1)
  {
    SortSorts(s);
    var v := Sort(s)[i];
    BelowBounds(Sort(s), v, i);
    BelowBounds(Sort(s), v + 1, i + 1);
    assert v in Sort(s);
  }

  /** The index is in range, and the value found there after sorting is the percentile. */
  lemma IndexFindsPercentile(s: seq<int>, q: nat)
    requires s != [] && q < 100
    ensures |Sort(s)| == |s| && Index(|s|, q) < |s|
    ensures IsPercentile(s, q, Sort(s)[Index(|s|, q)])
  {
    IndexFits(|s|, q);
    CountsAtIndex(s, Index(|s|, q));
    var v := Sort(s)[Index(|s|, q)];
    Sandwich(Below(s, v), Below(s, v + 1), Index(|s|, q), q * |s|);
  }

  lemma Sandwich(below: nat, atMost: nat, i: nat, x: int)
    requires below <= i < atMost && 100 * i <= x < 100 * (i + 1)
    ensures 100 * below <= x < 100 * atMost
  {
  }

  /** The error rate in percent. */
  function Rate(failed: nat, total: nat): (r: real)
    requires failed <= total
    ensures 0.0 <= r <= 100.0 && r * total as real == 100.0 * failed as real
  {
    if total == 0 then 0.0
    else
      RateBounds(failed as real, total as real);
      failed as real / total as real * 100.0
  }

  lemma RateBounds(failed: real, total: real)
    requires 0.0 <= failed <= total && total > 0.0
    ensures 0.0 <= failed / total <= 1.0 && failed / total * total == failed
  {
  }

  lemma LastIsLargest(s: seq<int>)
    requires s != []
    ensures |Sort(s)| == |s| && Sort(s)[|s| - 1] in s && forall v :: v in s ==> v <= Sort(s)[|s| - 1]
  {
    SortSorts(s);
    forall v | v in s ensures v <= Sort(s)[|s| - 1] { assert v in Sort(s); }
  }

  // ---------------------------------------------------------------------------------------------------------------
  // Building the report.

  /** Counting one more failure at a stage. */
  lemma ErrorCounted(before: seq<ClientResult>, r: ClientResult, errors: map<string, nat>)
    requires ErrorsCounted(before, errors) && !r.connected
    ensures r.stage == "" ==> ErrorsCounted(before + [r], errors)
    ensures r.stage != "" ==>
              var count := if r.stage in errors then errors[r.stage] else 0;
              && ErrorsCounted(before + [r], errors[r.stage := count + 1])
              && Sum(errors[r.stage := count + 1]) == Sum(errors) + 1
  {
    assert (before + [r])[..|before|] == before;
    forall stage
      ensures FailedAt(before + [r], stage) == FailedAt(before, stage) + if r.stage == stage then 1 else 0
    {
    }
    if r.stage != "" { SumWith(errors, r.stage, (if r.stage in errors then errors[r.stage] else 0) + 1); }
  }

  lemma TakeOneMore<T>(s: seq<T>, i: nat)
    requires i < |s|
    ensures s[..i + 1] == s[..i] + [s[i]] && s[..i + 1][..i] == s[..i]
  {
  }

  ghost predicate ErrorsCounted(results: seq<ClientResult>, errors: map<string, nat>) {
    forall stage :: && (stage in errors <==> stage != "" && FailedAt(results, stage) > 0)
                    && (stage in errors ==> errors[stage] == FailedAt(results, stage))
  }

  method BuildReport(results: seq<ClientResult>, nodesCount: int) returns (rep: Report)
    ensures rep.total == |results| && rep.connected + rep.failed == rep.total && rep.connected == |Latencies(results)|
    ensures rep.nodesCount == nodesCount && rep.errorRate == Rate(rep.failed, rep.total)
    ensures ErrorsCounted(results, rep.errorsByStage) && Sum(rep.errorsByStage) <= rep.failed
    ensures var l := Latencies(results);
            if l == [] then rep.p50 == rep.p95 == rep.p99 == rep.max == 0
            else
              && IsPercentile(l, 50, rep.p50) && IsPercentile(l, 95, rep.p95) && IsPercentile(l, 99, rep.p99)
              && rep.max in l && (forall v :: v in l ==> v <= rep.max)
              && rep.p50 <= rep.p95 <= rep.p99 <= rep.max
  {
    var connected, failed := 0, 0;
    var latencies: seq<int> := [];
    var errors: map<string, nat> := map[];
    for i := 0 to |results|
      invariant connected + failed == i && latencies == Latencies(results[..i]) && connected == |latencies|
      invariant ErrorsCounted(results[..i], errors) && Sum(errors) <= failed
    {
      TakeOneMore(results, i);
      var r := results[i];
      if r.connected {
        connected := connected + 1;
        latencies := latencies + [r.connectionTime];
      } else {
        failed := failed + 1;
        ErrorCounted(results[..i], r, errors);
        if r.stage != "" {
          errors := errors[r.stage := (if r.stage in errors then errors[r.stage] else 0) + 1];
        }
      }
    }
    assert results[..|results|] == results;
    rep := Report(|results|, connected, failed, Rate(failed, |results|), 0, 0, 0, 0, errors, nodesCount);
    if |latencies| > 0 {
      IndexFindsPercentile(latencies, 50);
      IndexFindsPercentile(latencies, 95);
      IndexFindsPercentile(latencies, 99);
      LastIsLargest(latencies);
      var sorted := Sort(latencies);
      rep := rep.(
        p50 := sorted[Index(|sorted|, 50)],
        p95 := sorted[Index(|sorted|, 95)],
        p99 := sorted[Index(|sorted|, 99)],
        max := sorted[|sorted| - 1]);
      PercentilesAreOrdered(latencies, 50, rep.p50, 95, rep.p95);
      PercentilesAreOrdered(latencies, 95, rep.p95, 99, rep.p99);
    }
  }
}
