/** What the view derives from the navigation state: the "k / N" counter, the lit
    progress segments, the highlighted timeline item and the disabled buttons. */
module Display {
  import opened Navigation

  /** The counter label: the shown position (one-based) and the number of shots. */
  function Counter(v: View, n: nat): (c: (nat, nat))
    requires InRange(v, n)
    ensures 1 <= c.0 <= c.1 && c.1 == n
  {
    (v.index + 1, n)
  }

  /** One flag per progress segment: lit when at or before the shown shot. */
  function Segments(i: nat, n: nat): (s: seq<bool>)
    ensures |s| == n
    ensures forall k :: 0 <= k < n ==> (s[k] <==> k <= i)
  {
    seq(n, k => k <= i)
  }

  /** One flag per timeline item: highlighted for the shown shot only. */
  function Timeline(i: nat, n: nat): (s: seq<bool>)
    ensures |s| == n
    ensures forall k :: 0 <= k < n ==> (s[k] <==> k == i)
  {
    seq(n, k => k == i)
  }

  /** The Previous button is disabled exactly where Prev would change nothing. */
  function PrevDisabled(v: View): (b: bool)
    ensures b <==> PrevState(v) == v
  {
    v.index == 0
  }

  /** The Next button is disabled exactly where Next would change nothing. */
  function NextDisabled(v: View, n: nat): (b: bool)
    ensures InRange(v, n) ==> (b <==> NextState(v, n) == v)
  {
    v.index == n - 1
  }

  /** The number of set flags. */
  function CountActive(s: seq<bool>): (c: nat)
    ensures c <= |s|
  {
    if s == [] then 0 else CountActive(s[..|s| - 1]) + (if s[|s| - 1] then 1 else 0)
  }

  lemma {:induction false} CountSegmentsPrefix(i: nat, n: nat)
    ensures CountActive(Segments(i, n)) == if n <= i then n else i + 1
    decreases n
  {
    if n > 0 {
      assert Segments(i, n)[..n - 1] == Segments(i, n - 1);
      CountSegmentsPrefix(i, n - 1);
    }
  }

  /** Exactly index + 1 segments are lit, the number the counter shows, and the lit
      ones are the first index + 1. */
  lemma ActiveSegmentsMatchCounter(v: View, n: nat)
    requires InRange(v, n)
    ensures CountActive(Segments(v.index, n)) == Counter(v, n).0
    ensures forall k :: 0 <= k < n ==> (Segments(v.index, n)[k] <==> k < Counter(v, n).0)
  {
    CountSegmentsPrefix(v.index, n);
  }

  lemma {:induction false} CountTimelinePrefix(i: nat, n: nat)
    ensures CountActive(Timeline(i, n)) == if i < n then 1 else 0
    decreases n
  {
    if n > 0 {
      assert Timeline(i, n)[..n - 1] == Timeline(i, n - 1);
      CountTimelinePrefix(i, n - 1);
    }
  }

  /** Exactly one timeline item is highlighted, and it is the shown shot's. */
  lemma OneTimelineItemActive(v: View, n: nat)
    requires InRange(v, n)
    ensures CountActive(Timeline(v.index, n)) == 1
    ensures Timeline(v.index, n)[v.index]
  {
    CountTimelinePrefix(v.index, n);
  }
}
