/** The data the analytics dashboard derives from the stored messages
    (echo-voice-agent/src/components/AnalyticsDashboard.tsx): the intent
    histogram and its labels, the sentiment distribution, the live
    recent-activity list, the bar scaling and the average-sentiment label.
    The queries that fetch the rows are not modelled; their results are
    inputs. */
module AnalyticsDashboard {
  import opened Text

  // ---------------------------------------------------------------------
  // Intent histogram.

  /** The key a message's intent is counted under: an empty intent is
      falsy and is counted as "unknown". */
  function KeyOf(intent: string): string {
    if intent == "" then "unknown" else intent
  }

  /** How many of the intents are counted under `key`. */
  function Occurrences(intents: seq<string>, key: string): nat {
    if intents == [] then 0
    else Occurrences(intents[..|intents| - 1], key)
         + (if KeyOf(intents[|intents| - 1]) == key then 1 else 0)
  }

  /** The position of the first intent counted under `key`, or the number of
      intents when there is none. */
  function FirstIndex(intents: seq<string>, key: string): (p: nat)
    ensures p <= |intents|
    ensures p < |intents| ==> KeyOf(intents[p]) == key
    ensures forall q | 0 <= q < p :: KeyOf(intents[q]) != key
  {
    if intents == [] then 0
    else if KeyOf(intents[0]) == key then 0
    else 1 + FirstIndex(intents[1..], key)
  }

  /** The keys in the order they are first seen. */
  function FirstSeen(intents: seq<string>): seq<string> {
    if intents == [] then []
    else
      var seen := FirstSeen(intents[..|intents| - 1]);
      var key := KeyOf(intents[|intents| - 1]);
      if key in seen then seen else seen + [key]
  }

  /** Adding an intent at the end moves no key's first position. */
  lemma FirstIndexSnoc(intents: seq<string>, x: string, key: string)
    ensures FirstIndex(intents, key) < |intents| ==> FirstIndex(intents + [x], key) == FirstIndex(intents, key)
    ensures FirstIndex(intents, key) == |intents| && KeyOf(x) == key ==> FirstIndex(intents + [x], key) == |intents|
  {
    assert forall q | 0 <= q < |intents| :: (intents + [x])[q] == intents[q];
    assert (intents + [x])[|intents|] == x;
  }

  /** `FirstSeen` lists exactly the keys that occur, ordered by their first
      position. */
  lemma {:induction false} FirstSeenInOrder(intents: seq<string>)
    ensures forall k :: k in FirstSeen(intents) <==> FirstIndex(intents, k) < |intents|
    ensures forall m, n | 0 <= m < n < |FirstSeen(intents)| ::
              FirstIndex(intents, FirstSeen(intents)[m]) < FirstIndex(intents, FirstSeen(intents)[n])
  {
    if intents != [] {
      var front := intents[..|intents| - 1];
      var x := intents[|intents| - 1];
      assert front + [x] == intents;
      FirstSeenInOrder(front);
      forall k {
        FirstIndexSnoc(front, x, k);
      }
    }
  }

  predicate Distinct(keys: seq<string>) {
    forall i, j | 0 <= i < j < |keys| :: keys[i] != keys[j]
  }

  /** The sum of the counts of the listed keys. */
  function SumCounts(keys: seq<string>, counts: map<string, nat>): nat
    requires forall k | k in keys :: k in counts
  {
    if keys == [] then 0
    else SumCounts(keys[..|keys| - 1], counts) + counts[keys[|keys| - 1]]
  }

  /** Changing the count of a key that is not listed leaves the sum alone. */
  lemma {:induction false} SumCountsIgnoresOthers(keys: seq<string>, counts: map<string, nat>, key: string, n: nat)
    requires forall k | k in keys :: k in counts
    requires key !in keys
    ensures SumCounts(keys, counts[key := n]) == SumCounts(keys, counts)
  {
    if keys != [] {
      SumCountsIgnoresOthers(keys[..|keys| - 1], counts, key, n);
    }
  }

  /** Incrementing the count of a listed key adds one to the sum. */
  lemma {:induction false} SumCountsIncrement(keys: seq<string>, counts: map<string, nat>, key: string)
    requires forall k | k in keys :: k in counts
    requires Distinct(keys) && key in keys
    ensures SumCounts(keys, counts[key := counts[key] + 1]) == SumCounts(keys, counts) + 1
  {
    var last := keys[|keys| - 1];
    var init := keys[..|keys| - 1];
    if last == key {
      assert key !in init;
      SumCountsIgnoresOthers(init, counts, key, counts[key] + 1);
    } else {
      assert key in init;
      SumCountsIncrement(init, counts, key);
    }
  }

  /** `counts` maps a key iff it occurs, to its number of occurrences. */
  ghost predicate Counted(intents: seq<string>, counts: map<string, nat>) {
    && (forall k :: k in counts <==> Occurrences(intents, k) > 0)
    && (forall k | k in counts :: counts[k] == Occurrences(intents, k))
  }

  /** `keys` lists the counted keys once each in first-seen order, and their
      counts add up to the number of intents. */
  ghost predicate Listed(intents: seq<string>, keys: seq<string>, counts: map<string, nat>) {
    && (forall k :: k in keys <==> k in counts)
    && Distinct(keys)
    && keys == FirstSeen(intents)
    && SumCounts(keys, counts) == |intents|
  }

  /** `keys` and `counts` are the histogram of `intents`. */
  ghost predicate Tallied(intents: seq<string>, keys: seq<string>, counts: map<string, nat>) {
    Counted(intents, counts) && Listed(intents, keys, counts)
  }

  /** One more intent adds one to its own key's occurrences only. */
  lemma OccurrencesSnoc(intents: seq<string>, x: string, k: string)
    ensures Occurrences(intents + [x], k) == Occurrences(intents, k) + (if KeyOf(x) == k then 1 else 0)
  {
    assert (intents + [x])[..|intents|] == intents;
  }

  /** One more intent lists its key last when the key is new. */
  lemma FirstSeenSnoc(intents: seq<string>, x: string)
    ensures FirstSeen(intents + [x])
            == if KeyOf(x) in FirstSeen(intents) then FirstSeen(intents) else FirstSeen(intents) + [KeyOf(x)]
  {
    assert (intents + [x])[..|intents|] == intents;
  }

  /** Counting one more intent adds one under its key. */
  lemma CountedSnoc(intents: seq<string>, x: string, counts: map<string, nat>)
    requires Counted(intents, counts)
    ensures var key := KeyOf(x);
            Counted(intents + [x], counts[key := if key in counts then counts[key] + 1 else 1])
  {
    var s, key := intents + [x], KeyOf(x);
    var counts' := counts[key := if key in counts then counts[key] + 1 else 1];
    forall k
      ensures (k in counts' <==> Occurrences(s, k) > 0)
      ensures k in counts' ==> counts'[k] == Occurrences(s, k)
    {
      OccurrencesSnoc(intents, x, k);
    }
  }

  /** A key seen before gets one more. */
  lemma TallySeenKey(intents: seq<string>, x: string, keys: seq<string>, counts: map<string, nat>)
    requires Tallied(intents, keys, counts) && KeyOf(x) in counts
    ensures Tallied(intents + [x], keys, counts[KeyOf(x) := counts[KeyOf(x)] + 1])
  {
    CountedSnoc(intents, x, counts);
    FirstSeenSnoc(intents, x);
    SumCountsIncrement(keys, counts, KeyOf(x));
  }

  /** A new key is listed last with one. */
  lemma TallyNewKey(intents: seq<string>, x: string, keys: seq<string>, counts: map<string, nat>)
    requires Tallied(intents, keys, counts) && KeyOf(x) !in counts
    ensures Tallied(intents + [x], keys + [KeyOf(x)], counts[KeyOf(x) := 1])
  {
    CountedSnoc(intents, x, counts);
    ListedNewKey(intents, x, keys, counts);
  }

  lemma ListedNewKey(intents: seq<string>, x: string, keys: seq<string>, counts: map<string, nat>)
    requires Listed(intents, keys, counts) && KeyOf(x) !in counts
    ensures Listed(intents + [x], keys + [KeyOf(x)], counts[KeyOf(x) := 1])
  {
    var s, key := intents + [x], KeyOf(x);
    var keys', counts' := keys + [key], counts[key := 1];
    assert key !in keys;
    FirstSeenSnoc(intents, x);
    assert Distinct(keys');
    assert SumCounts(keys', counts') == |s| by {
      SumCountsIgnoresOthers(keys, counts, key, 1);
      assert keys'[..|keys|] == keys;
    }
  }

  /** The reduce that counts messages per intent. `keys` lists the keys in
      the order they were first seen (the order `Object.entries` gives back
      for these keys). */
  method IntentCounts(intents: seq<string>) returns (keys: seq<string>, counts: map<string, nat>)
    ensures forall k :: k in counts <==> Occurrences(intents, k) > 0
    ensures forall k | k in counts :: counts[k] == Occurrences(intents, k) && counts[k] >= 1
    ensures forall k :: k in keys <==> k in counts
    ensures Distinct(keys)
    ensures keys == FirstSeen(intents)
    ensures forall i, j | 0 <= i < j < |keys| :: FirstIndex(intents, keys[i]) < FirstIndex(intents, keys[j])
    ensures SumCounts(keys, counts) == |intents|
  {
    keys, counts := [], map[];
    for i := 0 to |intents|
      invariant Tallied(intents[..i], keys, counts)
    {
      var key := KeyOf(intents[i]);
      assert intents[..i + 1] == intents[..i] + [intents[i]];
      if key in counts {
        TallySeenKey(intents[..i], intents[i], keys, counts);
        counts := counts[key := counts[key] + 1];
      } else {
        TallyNewKey(intents[..i], intents[i], keys, counts);
        keys := keys + [key];
        counts := counts[key := 1];
      }
    }
    assert intents[..|intents|] == intents;
    assert Counted(intents, counts) && Listed(intents, keys, counts);
    FirstSeenInOrder(intents);
  }

  /** `s.slice(1).replace(/_/g, ' ')` */
  function UnderscoresToSpaces(s: string): (r: string)
    ensures |r| == |s|
    ensures forall i | 0 <= i < |s| :: r[i] == (if s[i] == '_' then ' ' else s[i])
  {
    if s == [] then []
    else [if s[0] == '_' then ' ' else s[0]] + UnderscoresToSpaces(s[1..])
  }

  /** The chart label of an intent key: the first character upper-cased,
      every later underscore a space. */
  function FormatLabel(key: string): (title: string)
    ensures |title| == |key|
    ensures key != [] ==> title[0] == UpperChar(key[0])
    ensures forall i | 1 <= i < |key| :: title[i] == (if key[i] == '_' then ' ' else key[i])
    ensures forall i | 1 <= i < |key| :: title[i] != '_'
  {
    if key == [] then [] else [UpperChar(key[0])] + UnderscoresToSpaces(key[1..])
  }

  datatype IntentBar = IntentBar(intent: string, count: nat)

  /** The bars of the intent chart, one per counted key, in key order. */
  function IntentBars(keys: seq<string>, counts: map<string, nat>): seq<IntentBar>
    requires forall k | k in keys :: k in counts
  {
    seq(|keys|, i requires 0 <= i < |keys| => IntentBar(FormatLabel(keys[i]), counts[keys[i]]))
  }

  /** The sum of the bar counts. */
  function BarTotal(bars: seq<IntentBar>): nat {
    if bars == [] then 0 else BarTotal(bars[..|bars| - 1]) + bars[|bars| - 1].count
  }

  /** The bars carry the whole histogram: their counts add up to the total
      of the counted keys. */
  lemma {:induction false} BarTotalOfIntentBars(keys: seq<string>, counts: map<string, nat>)
    requires forall k | k in keys :: k in counts
    ensures BarTotal(IntentBars(keys, counts)) == SumCounts(keys, counts)
  {
    if keys != [] {
      var front := keys[..|keys| - 1];
      BarTotalOfIntentBars(front, counts);
      assert IntentBars(keys, counts)[..|keys| - 1] == IntentBars(front, counts);
    }
  }

  /** `fetchIntentDistribution` once the rows have arrived: count, then
      format. There is one bar per distinct key, in the order the keys first
      occur. Each bar is labelled from its key and carries that key's number
      of occurrences, at least one, and the bars add up to the number of
      rows. */
  method IntentDistribution(intents: seq<string>) returns (keys: seq<string>, bars: seq<IntentBar>)
    ensures |bars| == |keys| && Distinct(keys)
    ensures forall k :: k in keys <==> Occurrences(intents, k) > 0
    ensures forall i, j | 0 <= i < j < |keys| :: FirstIndex(intents, keys[i]) < FirstIndex(intents, keys[j])
    ensures forall i | 0 <= i < |bars| ::
              bars[i].intent == FormatLabel(keys[i])
              && bars[i].count == Occurrences(intents, keys[i]) && bars[i].count >= 1
    ensures BarTotal(bars) == |intents|
  {
    var counts;
    keys, counts := IntentCounts(intents);
    bars := IntentBars(keys, counts);
    BarTotalOfIntentBars(keys, counts);
  }

  function BarCounts(bars: seq<IntentBar>): seq<nat> {
    seq(|bars|, i requires 0 <= i < |bars| => bars[i].count)
  }

  /** `Math.max(...counts, 1)`: the scale of the intent bars. */
  function MaxCount(counts: seq<nat>): (m: nat)
    ensures m >= 1
    ensures forall i | 0 <= i < |counts| :: counts[i] <= m
    ensures m == 1 || exists i | 0 <= i < |counts| :: counts[i] == m
  {
    if counts == [] then 1
    else
      var rest := MaxCount(counts[1..]);
      if counts[0] > rest then counts[0] else rest
  }

  /** Every bar's width, `count / maxIntentCount`, lies in [0, 1]. */
  lemma BarWidthInUnitRange(bars: seq<IntentBar>, i: nat)
    requires i < |bars|
    ensures 0.0 <= bars[i].count as real / MaxCount(BarCounts(bars)) as real <= 1.0
  {
    var m := MaxCount(BarCounts(bars));
    assert BarCounts(bars)[i] == bars[i].count;
    RatioInUnitRange(bars[i].count as real, m as real);
  }

  lemma RatioInUnitRange(c: real, m: real)
    requires 0.0 <= c <= m && m > 0.0
    ensures 0.0 <= c / m <= 1.0
  {
    assert (c / m) * m == c;
  }

  // ---------------------------------------------------------------------
  // Sentiment distribution.

  datatype Band = Positive | Neutral | Negative

  /** The three `filter` conditions of the sentiment chart. */
  predicate InBand(b: Band, x: real) {
    match b
    case Positive => x > 0.6
    case Neutral => x >= 0.4 && x <= 0.6
    case Negative => x < 0.4
  }

  /** `data.filter(m => InBand(b, m.sentiment)).length` */
  function Tally(xs: seq<real>, b: Band): (n: nat)
    ensures n <= |xs|
  {
    if xs == [] then 0
    else Tally(xs[..|xs| - 1], b) + (if InBand(b, xs[|xs| - 1]) then 1 else 0)
  }

  /** The band a sentiment falls in. */
  function BandOf(x: real): (b: Band)
    ensures InBand(b, x)
    ensures forall c: Band | c != b :: !InBand(c, x)
  {
    if x > 0.6 then Positive else if x >= 0.4 then Neutral else Negative
  }

  /** The three tallies partition the rows: they add up to the row count. */
  lemma {:induction false} TalliesPartition(xs: seq<real>)
    ensures Tally(xs, Positive) + Tally(xs, Neutral) + Tally(xs, Negative) == |xs|
  {
    if xs != [] {
      TalliesPartition(xs[..|xs| - 1]);
      var _ := BandOf(xs[|xs| - 1]);
    }
  }

  datatype Slice = Slice(name: string, value: nat, color: string)

  /** The data of the sentiment chart. */
  function SentimentData(xs: seq<real>): (slices: seq<Slice>)
    ensures |slices| == 3
    ensures slices[0].name == "Positive" && slices[1].name == "Neutral" && slices[2].name == "Negative"
    ensures slices[0].value == Tally(xs, Positive) && slices[1].value == Tally(xs, Neutral)
            && slices[2].value == Tally(xs, Negative)
    ensures slices[0].value + slices[1].value + slices[2].value == |xs|
  {
    TalliesPartition(xs);
    [ Slice("Positive", Tally(xs, Positive), "#10B981"),
      Slice("Neutral", Tally(xs, Neutral), "#3B82F6"),
      Slice("Negative", Tally(xs, Negative), "#EF4444") ]
  }

  // ---------------------------------------------------------------------
  // Average-sentiment label.

  function BandName(b: Band): string {
    match b
    case Positive => "Positive"
    case Neutral => "Neutral"
    case Negative => "Negative"
  }

  /** The word under the average-sentiment figure. */
  function AvgSentimentLabel(avg: real): string {
    if avg > 0.6 then "Positive" else if avg > 0.4 then "Neutral" else "Negative"
  }

  /** The label agrees with the chart's bands everywhere except at exactly
      0.4, which the chart counts as neutral and the label calls negative. */
  lemma AvgLabelAgreesWithBands(avg: real)
    ensures AvgSentimentLabel(avg) == BandName(BandOf(avg)) <==> avg != 0.4
  {
  }

  // ---------------------------------------------------------------------
  // Recent activity.

  const RecentLimit: nat := 10

  function Min(a: nat, b: nat): nat {
    if a < b then a else b
  }

  /** A realtime insert: the new row goes in front and the list is cut to
      at most ten rows. */
  function PushRecent<T>(prev: seq<T>, x: T): (r: seq<T>)
    ensures |r| == Min(|prev| + 1, RecentLimit)
    ensures r[0] == x
    ensures forall i | 1 <= i < |r| :: r[i] == prev[i - 1]
  {
    ([x] + prev)[..Min(|prev| + 1, RecentLimit)]
  }

  function Reverse<T>(xs: seq<T>): (r: seq<T>)
    ensures |r| == |xs|
    ensures forall i | 0 <= i < |xs| :: r[i] == xs[|xs| - 1 - i]
  {
    if xs == [] then [] else [xs[|xs| - 1]] + Reverse(xs[..|xs| - 1])
  }

  /** The list after the inserts `xs`, oldest first, starting from `init`. */
  function PushAll<T>(init: seq<T>, xs: seq<T>): seq<T> {
    if xs == [] then init else PushRecent(PushAll(init, xs[..|xs| - 1]), xs[|xs| - 1])
  }

  /** An insert into a prefix of `s` is a prefix of `s` with the new row in
      front. */
  lemma PushOntoPrefix<T>(s: seq<T>, x: T, n: nat)
    requires n <= |s|
    ensures PushRecent(s[..n], x) == ([x] + s)[..Min(n + 1, RecentLimit)]
  {
    var r := PushRecent(s[..n], x);
    forall i | 1 <= i < |r|
      ensures r[i] == ([x] + s)[i]
    {
      assert r[i] == s[..n][i - 1];
    }
  }

  /** After any run of inserts the list holds the newest rows first: the
      inserts in reverse arrival order, then the rows that were there
      before, cut to ten. The list starts as the ten newest stored rows at
      most. */
  lemma {:induction false} PushAllNewestFirst<T>(init: seq<T>, xs: seq<T>)
    requires |init| <= RecentLimit
    ensures PushAll(init, xs) == (Reverse(xs) + init)[..Min(|xs| + |init|, RecentLimit)]
  {
    if xs == [] {
      assert init[..|init|] == init;
    } else {
      var front := xs[..|xs| - 1];
      var x := xs[|xs| - 1];
      PushAllNewestFirst(init, front);
      PushOntoPrefix(Reverse(front) + init, x, Min(|front| + |init|, RecentLimit));
      assert [x] + (Reverse(front) + init) == Reverse(xs) + init;
    }
  }
}
