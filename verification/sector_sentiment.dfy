/** src/components/predictions/SectorSentiment.tsx: per-sector signal bars. */
module SectorSentiment {
  import opened Prelude
  import opened PredictionTypes

  /** `buySignals + sellSignals + holdSignals || 1`. */
  function TotalSignals(s: SectorPrediction): (t: nat)
    ensures t >= 1
    ensures s.buySignals + s.sellSignals + s.holdSignals > 0 ==> t == s.buySignals + s.sellSignals + s.holdSignals
    ensures s.buySignals + s.sellSignals + s.holdSignals == 0 ==> t == 1
  {
    var sum := s.buySignals + s.sellSignals + s.holdSignals;
    if sum == 0 then 1 else sum
  }

  /** `count / totalSignals * 100`. */
  function Width(count: nat, total: nat): (w: real)
    requires total >= 1
    ensures w * total as real == count as real * 100.0
  {
    count as real / total as real * 100.0
  }

  datatype Segment = Segment(signal: Signal, width: real)

  /** The sector's count of one signal. */
  function CountOf(s: SectorPrediction, signal: Signal): nat
  {
    match signal
    case Buy => s.buySignals
    case Hold => s.holdSignals
    case Sell => s.sellSignals
  }

  function SignalsOf(r: seq<Segment>): (signals: seq<Signal>)
    ensures |signals| == |r| && forall k :: 0 <= k < |r| ==> signals[k] == r[k].signal
  {
    seq(|r|, k requires 0 <= k < |r| => r[k].signal)
  }

  /** One segment for a positive count, none otherwise. */
  function Part(s: SectorPrediction, signal: Signal): (r: seq<Segment>)
    ensures CountOf(s, signal) > 0 ==> r == [Segment(signal, Width(CountOf(s, signal), TotalSignals(s)))]
    ensures CountOf(s, signal) == 0 ==> r == []
  {
    if CountOf(s, signal) > 0 then [Segment(signal, Width(CountOf(s, signal), TotalSignals(s)))] else []
  }

  /** The bar: a buy, a hold and a sell segment in that order, each only when its count
      is positive, each as wide as its share of the total. */
  function Segments(s: SectorPrediction): (r: seq<Segment>)
    ensures forall k :: 0 <= k < |r| ==> r[k].width == Width(CountOf(s, r[k].signal), TotalSignals(s)) && r[k].width > 0.0
  {
    Part(s, Buy) + Part(s, Hold) + Part(s, Sell)
  }

  /** Which segments are drawn, and in which order. */
  lemma SegmentsShown(s: SectorPrediction)
    ensures SignalsOf(Segments(s)) ==
      (if s.buySignals > 0 then [Buy] else []) + (if s.holdSignals > 0 then [Hold] else []) +
      (if s.sellSignals > 0 then [Sell] else [])
    ensures forall signal :: signal in SignalsOf(Segments(s)) <==> CountOf(s, signal) > 0
    ensures IsSubsequence(SignalsOf(Segments(s)), [Buy, Hold, Sell])
  {
    var b := if s.buySignals > 0 then [Buy] else [];
    var h := if s.holdSignals > 0 then [Hold] else [];
    var l := if s.sellSignals > 0 then [Sell] else [];
    assert SignalsOf(Part(s, Buy)) == b;
    assert SignalsOf(Part(s, Hold)) == h;
    assert SignalsOf(Part(s, Sell)) == l;
    SignalsOfAppend(Part(s, Buy), Part(s, Hold));
    SignalsOfAppend(Part(s, Buy) + Part(s, Hold), Part(s, Sell));
    SegmentOrder(s.buySignals > 0, s.holdSignals > 0, s.sellSignals > 0);
  }

  lemma SegmentOrder(b: bool, h: bool, l: bool)
    ensures IsSubsequence((if b then [Buy] else []) + (if h then [Hold] else []) + (if l then [Sell] else []), [Buy, Hold, Sell])
  {
    var tail := (if h then [Hold] else []) + (if l then [Sell] else []);
    var last: seq<Signal> := if l then [Sell] else [];
    assert IsSubsequence(last, [Sell]);
    assert [Hold, Sell][1..] == [Sell];
    assert IsSubsequence(tail, [Hold, Sell]) by {
      if h {
        assert tail[1..] == last;
      } else {
        assert tail == last;
      }
    }
    assert [Buy, Hold, Sell][1..] == [Hold, Sell];
    if b {
      assert ([Buy] + tail)[1..] == tail;
    }
  }

  lemma SignalsOfAppend(a: seq<Segment>, b: seq<Segment>)
    ensures SignalsOf(a + b) == SignalsOf(a) + SignalsOf(b)
  {
  }

  function Widths(r: seq<Segment>): (w: seq<real>)
    ensures |w| == |r| && forall k :: 0 <= k < |r| ==> w[k] == r[k].width
  {
    seq(|r|, k requires 0 <= k < |r| => r[k].width)
  }

  /** With at least one signal the segments fill the bar exactly; with none the bar
      is empty. */
  lemma SegmentsFillBar(s: SectorPrediction)
    ensures s.buySignals + s.sellSignals + s.holdSignals > 0 ==> Sum(Widths(Segments(s))) == 100.0
    ensures s.buySignals + s.sellSignals + s.holdSignals == 0 ==> Segments(s) == []
  {
    var total := TotalSignals(s);
    WidthsAppend(Part(s, Buy), Part(s, Hold));
    WidthsAppend(Part(s, Buy) + Part(s, Hold), Part(s, Sell));
    SumAppend(Widths(Part(s, Buy)) + Widths(Part(s, Hold)), Widths(Part(s, Sell)));
    SumAppend(Widths(Part(s, Buy)), Widths(Part(s, Hold)));
    PartSum(s, Buy);
    PartSum(s, Hold);
    PartSum(s, Sell);
    if s.buySignals + s.sellSignals + s.holdSignals > 0 {
      WidthsAddUp(s.buySignals, s.holdSignals, s.sellSignals, total);
    }
  }

  lemma WidthsAppend(a: seq<Segment>, b: seq<Segment>)
    ensures Widths(a + b) == Widths(a) + Widths(b)
  {
  }

  /** A missing segment adds nothing: its count is 0, and so is its share. */
  lemma PartSum(s: SectorPrediction, signal: Signal)
    ensures Sum(Widths(Part(s, signal))) == Width(CountOf(s, signal), TotalSignals(s))
  {
    if CountOf(s, signal) > 0 {
      assert Widths(Part(s, signal)) == [Width(CountOf(s, signal), TotalSignals(s))];
    } else {
      assert Widths(Part(s, signal)) == [];
      assert Width(0, TotalSignals(s)) * TotalSignals(s) as real == 0.0;
    }
  }

  lemma WidthsAddUp(b: nat, h: nat, l: nat, total: nat)
    requires total >= 1 && b + h + l == total
    ensures Width(b, total) + Width(h, total) + Width(l, total) == 100.0
  {
    var t := total as real;
    assert (Width(b, total) + Width(h, total) + Width(l, total)) * t == (b + h + l) as real * 100.0;
  }

  /** `topPicks.join(', ')`. */
  function Join(picks: seq<string>, sep: string): (r: string)
    ensures picks == [] ==> r == []
    ensures picks != [] ==> |r| == TotalLength(picks) + (|picks| - 1) * |sep|
    ensures picks != [] ==> r[..|picks[0]|] == picks[0]
  {
    if picks == [] then ""
    else if |picks| == 1 then picks[0]
    else picks[0] + sep + Join(picks[1..], sep)
  }

  /** The lengths of all the picks together. */
  function TotalLength(picks: seq<string>): nat
  {
    if picks == [] then 0 else |picks[0]| + TotalLength(picks[1..])
  }

  lemma {:induction false} JoinAppend(picks: seq<string>, sep: string, x: string)
    requires picks != []
    ensures Join(picks + [x], sep) == Join(picks, sep) + sep + x
  {
    if |picks| == 1 {
      assert (picks + [x])[1..] == [x];
    } else {
      assert (picks + [x])[1..] == picks[1..] + [x];
      JoinAppend(picks[1..], sep, x);
    }
  }

  /** The top-picks line: only for a non-empty list, the picks joined with ", ". */
  function TopPicksLine(s: SectorPrediction): (r: Option<string>)
    ensures r.None? <==> s.topPicks == []
    ensures |s.topPicks| == 1 ==> r == Some(s.topPicks[0])
  {
    if s.topPicks == [] then None else Some(Join(s.topPicks, ", "))
  }

  /** With two or more picks, the line is the earlier picks joined, ", ", and the last. */
  lemma TopPicksLineEndsWithLast(s: SectorPrediction)
    requires |s.topPicks| >= 2
    ensures var n := |s.topPicks|;
      TopPicksLine(s) == Some(Join(s.topPicks[..n - 1], ", ") + ", " + s.topPicks[n - 1])
  {
    var n := |s.topPicks|;
    JoinAppend(s.topPicks[..n - 1], ", ", s.topPicks[n - 1]);
    assert s.topPicks[..n - 1] + [s.topPicks[n - 1]] == s.topPicks;
  }
}
