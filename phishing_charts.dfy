/** The counting behind the history charts: the suspicious/safe split and the
    reason frequency table. */
module PhishingCharts {
  import Text
  import Routes

  type Entry = Routes.PhishingCheckResult

  /** `history.filter(e => e.isPhishing).length`. */
  function Suspicious(history: seq<Entry>): (n: nat)
    ensures n <= |history|
    decreases |history|
  {
    if history == [] then 0
    else Suspicious(history[..|history| - 1]) + (if history[|history| - 1].isPhishing then 1 else 0)
  }

  /** `total - suspicious`: never negative, and the two add up to the total. */
  function Safe(history: seq<Entry>): (n: nat)
    ensures Suspicious(history) + n == |history|
  {
    |history| - Suspicious(history)
  }

  /** The entries judged safe, counted directly. */
  function NotPhishing(history: seq<Entry>): nat
    decreases |history|
  {
    if history == [] then 0
    else NotPhishing(history[..|history| - 1]) + (if history[|history| - 1].isPhishing then 0 else 1)
  }

  /** `safe` is the number of entries not judged phishing. */
  lemma {:induction false} SafeCounts(history: seq<Entry>)
    ensures Safe(history) == NotPhishing(history)
    decreases |history|
  {
    if history != [] {
      SafeCounts(history[..|history| - 1]);
    }
  }

  /** `pieData`: the suspicious slice, then the safe one. */
  function PieData(history: seq<Entry>): (pie: seq<(string, nat)>)
    ensures |pie| == 2 && pie[0].0 == "Suspicious" && pie[1].0 == "Safe"
    ensures pie[0].1 + pie[1].1 == |history|
    ensures pie[0].1 == Suspicious(history)
  {
    [("Suspicious", Suspicious(history)), ("Safe", Safe(history))]
  }

  /** All reasons of all entries, in history order. */
  function AllReasons(history: seq<Entry>): seq<string>
    decreases |history|
  {
    if history == [] then [] else AllReasons(history[..|history| - 1]) + history[|history| - 1].reasons
  }

  predicate Distinct(s: seq<string>) {
    forall a, b :: 0 <= a < b < |s| ==> s[a] != s[b]
  }

  /** The distinct values of a sequence in order of first occurrence. */
  function FirstOccurrences(s: seq<string>): (d: seq<string>)
    ensures Distinct(d)
    ensures forall x :: x in d <==> x in s
    decreases |s|
  {
    if s == [] then []
    else
      var init := FirstOccurrences(s[..|s| - 1]);
      var last := s[|s| - 1];
      assert forall x :: x in s <==> x in s[..|s| - 1] || x == last;
      if last in s[..|s| - 1] then init else init + [last]
  }

  /** The counts of the keys of `order`, added up. */
  function Total(order: seq<string>, counts: map<string, nat>): nat
    requires forall x :: x in order ==> x in counts
    decreases |order|
  {
    if order == [] then 0 else Total(order[..|order| - 1], counts) + counts[order[|order| - 1]]
  }

  lemma {:induction false} TotalUnchanged(order: seq<string>, counts: map<string, nat>, x: string, v: nat)
    requires forall y :: y in order ==> y in counts
    requires x !in order
    ensures Total(order, counts[x := v]) == Total(order, counts)
    decreases |order|
  {
    if order != [] {
      assert x != order[|order| - 1];
      TotalUnchanged(order[..|order| - 1], counts, x, v);
    }
  }

  lemma {:induction false} TotalIncrement(order: seq<string>, counts: map<string, nat>, x: string)
    requires forall y :: y in order ==> y in counts
    requires Distinct(order) && x in order
    ensures Total(order, counts[x := counts[x] + 1]) == Total(order, counts) + 1
    decreases |order|
  {
    var init := order[..|order| - 1];
    var last := order[|order| - 1];
    if last == x {
      assert x !in init by {
        forall k | 0 <= k < |init| ensures init[k] != x {
          assert init[k] == order[k];
        }
      }
      TotalUnchanged(init, counts, x, counts[x] + 1);
    } else {
      assert x in init;
      assert Distinct(init) by {
        forall a, b | 0 <= a < b < |init| ensures init[a] != init[b] {
          assert init[a] == order[a] && init[b] == order[b];
        }
      }
      TotalIncrement(init, counts, x);
    }
  }

  /** The keys of `counts` are the reasons of `seen`. */
  ghost predicate KeysOf(counts: map<string, nat>, seen: seq<string>) {
    forall x :: x in counts <==> x in seen
  }

  /** Every key of `counts` holds its number of occurrences in `seen`. */
  ghost predicate CountsOf(counts: map<string, nat>, seen: seq<string>) {
    forall x :: x in counts ==> counts[x] == Text.Occurrences(seen, x)
  }

  /** `counts` and `order` are the frequency table and key order of the reasons `seen`. */
  ghost predicate Counted(counts: map<string, nat>, order: seq<string>, seen: seq<string>) {
    && KeysOf(counts, seen)
    && CountsOf(counts, seen)
    && order == FirstOccurrences(seen)
    && (forall x :: x in order ==> x in counts)
    && Total(order, counts) == |seen|
  }

  lemma CountedFrom(counts: map<string, nat>, order: seq<string>, seen: seq<string>)
    requires KeysOf(counts, seen)
    requires CountsOf(counts, seen)
    requires order == FirstOccurrences(seen)
    requires forall x :: x in order ==> x in counts
    requires Total(order, counts) == |seen|
    ensures Counted(counts, order, seen)
  {
  }

  /** The table after one more reason: its count goes up by one, and a reason seen for
      the first time becomes a new key at the end. */
  method Tally(counts: map<string, nat>, order: seq<string>, ghost seen: seq<string>, reason: string)
    returns (counts': map<string, nat>, order': seq<string>)
    requires Counted(counts, order, seen)
    ensures Counted(counts', order', seen + [reason])
  {
    if reason in counts {
      counts' := counts[reason := counts[reason] + 1];
      order' := order;
      TallySeen(counts, order, seen, reason);
    } else {
      counts' := counts[reason := 1];
      order' := order + [reason];
      TallyNew(counts, order, seen, reason);
    }
  }

  /** A reason already in the table: only its count moves. */
  lemma TallySeen(counts: map<string, nat>, order: seq<string>, seen: seq<string>, reason: string)
    requires Counted(counts, order, seen) && reason in counts
    ensures Counted(counts[reason := counts[reason] + 1], order, seen + [reason])
  {
    var counts' := counts[reason := counts[reason] + 1];
    assert reason in seen && counts[reason] == Text.Occurrences(seen, reason);
    assert reason in order;
    FirstOccurrencesSnoc(seen, reason);
    assert order == FirstOccurrences(seen + [reason]);
    TotalIncrement(order, counts, reason);
    assert Total(order, counts') == |seen + [reason]|;
    KeysSnoc(counts, seen, reason, counts[reason] + 1);
    CountsSnoc(counts, seen, reason, counts[reason] + 1);
    CountedFrom(counts', order, seen + [reason]);
  }

  /** A reason met for the first time: a new key with count one, at the end. */
  lemma TallyNew(counts: map<string, nat>, order: seq<string>, seen: seq<string>, reason: string)
    requires Counted(counts, order, seen) && reason !in counts
    ensures Counted(counts[reason := 1], order + [reason], seen + [reason])
  {
    var counts' := counts[reason := 1];
    var order' := order + [reason];
    FirstOccurrencesSnoc(seen, reason);
    TotalUnchanged(order, counts, reason, 1);
    assert order'[..|order'| - 1] == order;
    KeysSnoc(counts, seen, reason, 1);
    Text.OccurrencesAbsent(seen, reason);
    CountsSnoc(counts, seen, reason, 1);
  }

  lemma KeysSnoc(counts: map<string, nat>, seen: seq<string>, reason: string, v: nat)
    requires KeysOf(counts, seen)
    ensures KeysOf(counts[reason := v], seen + [reason])
  {
    SnocMembers(seen, reason);
  }

  /** Setting the count of `reason` to its new number of occurrences keeps every count right. */
  lemma CountsSnoc(counts: map<string, nat>, seen: seq<string>, reason: string, v: nat)
    requires CountsOf(counts, seen)
    requires v == Text.Occurrences(seen, reason) + 1
    ensures CountsOf(counts[reason := v], seen + [reason])
  {
    var counts' := counts[reason := v];
    forall x | x in counts' ensures counts'[x] == Text.Occurrences(seen + [reason], x) {
      OccurrencesSnoc(seen, reason, x);
    }
  }

  lemma SnocMembers(s: seq<string>, reason: string)
    ensures forall x :: x in s + [reason] <==> x in s || x == reason
  {
  }

  lemma OccurrencesSnoc(s: seq<string>, reason: string, x: string)
    ensures Text.Occurrences(s + [reason], x) == Text.Occurrences(s, x) + (if x == reason then 1 else 0)
  {
    assert (s + [reason])[..|s|] == s;
  }

  lemma FirstOccurrencesSnoc(s: seq<string>, reason: string)
    ensures FirstOccurrences(s + [reason]) ==
      if reason in s then FirstOccurrences(s) else FirstOccurrences(s) + [reason]
  {
    assert (s + [reason])[..|s|] == s;
  }

  /** The inner `entry.reasons.forEach`: every reason of one entry goes into the table. */
  method TallyEntry(counts: map<string, nat>, order: seq<string>, ghost before: seq<string>, reasons: seq<string>)
    returns (counts': map<string, nat>, order': seq<string>)
    requires Counted(counts, order, before)
    ensures Counted(counts', order', before + reasons)
  {
    counts', order' := counts, order;
    assert before + reasons[..0] == before;
    var j := 0;
    while j < |reasons|
      invariant 0 <= j <= |reasons|
      invariant Counted(counts', order', before + reasons[..j])
    {
      assert (before + reasons[..j]) + [reasons[j]] == before + reasons[..j + 1] by {
        assert reasons[..j + 1] == reasons[..j] + [reasons[j]];
      }
      counts', order' := Tally(counts', order', before + reasons[..j], reasons[j]);
      j := j + 1;
    }
    assert reasons[..j] == reasons;
  }

  /** The nested `forEach` that builds `reasonCount`, with the key order that
      `Object.entries` reports (insertion order). */
  method CountReasons(history: seq<Entry>) returns (counts: map<string, nat>, order: seq<string>)
    ensures Counted(counts, order, AllReasons(history))
  {
    counts := map[];
    order := [];
    var i := 0;
    while i < |history|
      invariant 0 <= i <= |history|
      invariant Counted(counts, order, AllReasons(history[..i]))
    {
      assert history[..i + 1][..i] == history[..i];
      counts, order := TallyEntry(counts, order, AllReasons(history[..i]), history[i].reasons);
      i := i + 1;
    }
    assert history[..i] == history;
  }

  /** `barData`: one bar per key, in key order, carrying its count. */
  function BarData(order: seq<string>, counts: map<string, nat>): (bars: seq<(string, nat)>)
    requires forall x :: x in order ==> x in counts
    ensures |bars| == |order|
    ensures forall k :: 0 <= k < |bars| ==> bars[k] == (order[k], counts[order[k]])
  {
    seq(|order|, k requires 0 <= k < |order| => (order[k], counts[order[k]]))
  }

  /** The reasons the bars carry, in bar order. */
  function BarReasons(bars: seq<(string, nat)>): (rs: seq<string>)
    ensures |rs| == |bars| && forall k :: 0 <= k < |bars| ==> rs[k] == bars[k].0
  {
    seq(|bars|, k requires 0 <= k < |bars| => bars[k].0)
  }

  /** The bar heights added up. */
  function BarSum(bars: seq<(string, nat)>): nat
    decreases |bars|
  {
    if bars == [] then 0 else BarSum(bars[..|bars| - 1]) + bars[|bars| - 1].1
  }

  lemma {:induction false} BarSumTotal(order: seq<string>, counts: map<string, nat>)
    requires forall x :: x in order ==> x in counts
    ensures BarSum(BarData(order, counts)) == Total(order, counts)
    decreases |order|
  {
    if order != [] {
      var init := order[..|order| - 1];
      assert BarData(order, counts)[..|order| - 1] == BarData(init, counts);
      BarSumTotal(init, counts);
    }
  }

  /** The bar chart of a history, drawn from the table that `CountReasons` builds: one
      bar per distinct reason of the history, each carrying that reason's number of
      occurrences, the heights adding up to the number of reasons. */
  lemma BarsOfHistory(history: seq<Entry>, counts: map<string, nat>, order: seq<string>)
    requires Counted(counts, order, AllReasons(history))
    ensures Distinct(BarReasons(BarData(order, counts)))
    ensures forall r :: r in BarReasons(BarData(order, counts)) <==> r in AllReasons(history)
    ensures var bars := BarData(order, counts);
      forall k :: 0 <= k < |bars| ==> bars[k].1 == Text.Occurrences(AllReasons(history), bars[k].0)
    ensures BarSum(BarData(order, counts)) == |AllReasons(history)|
  {
    var bars := BarData(order, counts);
    assert BarReasons(bars) == order;
    BarSumTotal(order, counts);
  }
}
