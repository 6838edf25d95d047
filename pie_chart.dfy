/** The response-code pie (src/components/PieChart.tsx): one slice per
    counter of a `ResponseDistribution`, labelled and coloured from two fixed
    tables, and each slice's share of the total. */
module PieChart {
  import opened Lists
  import opened Types

  /** The keys of a `ResponseDistribution`, in declaration order. */
  datatype Key = Http200 | Http4xx | Http5xx | Timeout

  const Keys: seq<Key> := [Http200, Http4xx, Http5xx, Timeout]

  /** The `LABELS` table. */
  function Label(k: Key): string
  {
    match k
    case Http200 => "HTTP 200"
    case Http4xx => "HTTP 4xx"
    case Http5xx => "HTTP 5xx"
    case Timeout => "Timeout"
  }

  /** The `COLORS` table. */
  function Color(k: Key): string
  {
    match k
    case Http200 => "#22c55e"
    case Http4xx => "#fbbf24"
    case Http5xx => "#ef4444"
    case Timeout => "#6b7280"
  }

  /** No two slices share a label or a colour. */
  lemma TablesDistinct(a: Key, b: Key)
    requires a != b
    ensures Label(a) != Label(b) && Color(a) != Color(b)
  {
  }

  function Value(d: ResponseDistribution, k: Key): int
  {
    match k
    case Http200 => d.http200
    case Http4xx => d.http4xx
    case Http5xx => d.http5xx
    case Timeout => d.timeout
  }

  /** `Object.values(data)`. */
  function Values(d: ResponseDistribution): (values: seq<int>)
    ensures |values| == |Keys|
    ensures forall i :: 0 <= i < |Keys| ==> values[i] == Value(d, Keys[i])
  {
    [d.http200, d.http4xx, d.http5xx, d.timeout]
  }

  datatype Entry = Entry(name: string, value: int, color: string)

  /** `chartData`: one entry per counter, in key order. */
  function ChartData(d: ResponseDistribution): (entries: seq<Entry>)
    ensures |entries| == |Keys|
    ensures forall i :: 0 <= i < |entries| ==>
              entries[i].value == Value(d, Keys[i])
              && entries[i].name == Label(Keys[i])
              && entries[i].color == Color(Keys[i])
  {
    seq(|Keys|, i requires 0 <= i < |Keys| => Entry(Label(Keys[i]), Values(d)[i], Color(Keys[i])))
  }

  function Identity(v: int): int { v }

  /** `total`: the counters added up by `reduce`. With non-negative counters
      it bounds every counter and is 0 only when all of them are. */
  function Total(d: ResponseDistribution): (t: int)
    ensures NonNegative(d) ==> forall k :: 0 <= Value(d, k) <= t
    ensures NonNegative(d) ==> (t == 0 <==> forall k :: Value(d, k) == 0)
  {
    SumOfFour(Identity, d.http200, d.http4xx, d.http5xx, d.timeout);
    assert Value(d, Http200) == d.http200 && Value(d, Http4xx) == d.http4xx;
    assert Value(d, Http5xx) == d.http5xx && Value(d, Timeout) == d.timeout;
    Sum(Identity, Values(d))
  }

  lemma SumOfFour<T>(f: T -> int, a: T, b: T, c: T, e: T)
    ensures Sum(f, [a, b, c, e]) == f(a) + f(b) + f(c) + f(e)
  {
    assert [a, b, c, e][1..] == [b, c, e];
    assert [b, c, e][1..] == [c, e];
    assert [c, e][1..] == [e];
    assert Sum(f, [e]) == f(e);
    assert Sum(f, [c, e]) == f(c) + f(e);
    assert Sum(f, [b, c, e]) == f(b) + f(c) + f(e);
  }

  /** The total is the sum of the four counters. */
  lemma TotalOfCounters(d: ResponseDistribution)
    ensures Total(d) == d.http200 + d.http4xx + d.http5xx + d.timeout
  {
    SumOfFour(Identity, d.http200, d.http4xx, d.http5xx, d.timeout);
  }

  function EntryValue(e: Entry): int { e.value }

  /** The slices drawn add up to the total printed under the legend. */
  lemma ChartSumIsTotal(d: ResponseDistribution)
    ensures Sum(EntryValue, ChartData(d)) == Total(d)
  {
    var entries := ChartData(d);
    assert entries == [entries[0], entries[1], entries[2], entries[3]];
    SumOfFour(EntryValue, entries[0], entries[1], entries[2], entries[3]);
    TotalOfCounters(d);
  }

  /** `value / total * 100`; `None` when the total is 0, where the legend
      shows `NaN`. */
  function Percentage(value: int, total: int): (pct: Option<real>)
    ensures pct.None? <==> total == 0
    ensures pct.Some? ==> pct.value * (total as real) == (value as real) * 100.0
  {
    if total == 0 then None else Some((value as real) / (total as real) * 100.0)
  }

  predicate NonNegative(d: ResponseDistribution)
  {
    d.http200 >= 0 && d.http4xx >= 0 && d.http5xx >= 0 && d.timeout >= 0
  }

  /** A counter between 0 and a positive total has a share between 0 and
      100. */
  lemma ShareInRange(value: int, total: int)
    requires 0 <= value <= total && total > 0
    ensures 0.0 <= Percentage(value, total).value <= 100.0
  {
  }

  /** With counters that are not negative and not all zero, every share lies
      between 0 and 100 and the four shares add up to 100. */
  lemma PercentagesAddUp(d: ResponseDistribution)
    requires NonNegative(d) && Total(d) != 0
    ensures forall k :: 0.0 <= Percentage(Value(d, k), Total(d)).value <= 100.0
    ensures Percentage(d.http200, Total(d)).value + Percentage(d.http4xx, Total(d)).value
            + Percentage(d.http5xx, Total(d)).value + Percentage(d.timeout, Total(d)).value == 100.0
  {
    var total := Total(d);
    forall k ensures 0.0 <= Percentage(Value(d, k), total).value <= 100.0 {
      ShareInRange(Value(d, k), total);
    }
    TotalOfCounters(d);
    FourPercentages(d.http200, d.http4xx, d.http5xx, d.timeout, total);
  }

  lemma FourPercentages(a: int, b: int, c: int, e: int, total: int)
    requires total != 0 && total == a + b + c + e
    ensures Percentage(a, total).value + Percentage(b, total).value
            + Percentage(c, total).value + Percentage(e, total).value == 100.0
  {
    SharesOfWhole(Percentage(a, total).value, Percentage(b, total).value,
                  Percentage(c, total).value, Percentage(e, total).value,
                  a as real, b as real, c as real, e as real, total as real);
  }

  /** Four shares of a whole, each scaled to 100, add up to 100. */
  lemma SharesOfWhole(p0: real, p1: real, p2: real, p3: real, v0: real, v1: real, v2: real, v3: real, t: real)
    requires t != 0.0 && t == v0 + v1 + v2 + v3
    requires p0 * t == v0 * 100.0 && p1 * t == v1 * 100.0 && p2 * t == v2 * 100.0 && p3 * t == v3 * 100.0
    ensures p0 + p1 + p2 + p3 == 100.0
  {
    assert (p0 + p1 + p2 + p3) * t == p0 * t + p1 * t + p2 * t + p3 * t;
    CancelFactor(p0 + p1 + p2 + p3, 100.0, t);
  }

  lemma CancelFactor(a: real, b: real, t: real)
    requires t != 0.0 && a * t == b * t
    ensures a == b
  {
    assert (a - b) * t == 0.0;
  }
}
