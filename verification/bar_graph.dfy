/**
 The scrolling bar graph control as an immutable state record and pure
 transitions: data ingestion, bar-width changes, layout, rebuilding the bar
 layers, the per-scroll selection and highlight swap, the snap to the
 nearest bar, and the delayed highlight resets.

 The control's delegate is modelled by the log `notified` of every
 `(value, index)` pair the control reports, in order. The pending
 highlight resets, scheduled 0.1 s ahead on the main queue in the control,
 are the list `pendingResets` of bar indices, fired in the order they were
 scheduled.
 */
module BarGraph {
  import opened Geometry
  import opened Series

  /** One bar layer: the left edge and width of its frame, its height, and whether it shows the highlight colour. */
  datatype Bar = Bar(x: real, width: real, height: real, highlighted: bool)

  /** A delegate notification: the selected bar's value truncated to an integer, and the bar's index. */
  datatype Selection = Selection(value: int, index: int)

  datatype Graph = Graph(
    data: seq<real>,          // the series last passed to SetBarData
    largest: real,            // running maximum used to normalise bar heights
    barCount: nat,            // number of bars, kept alongside the data
    barWidth: real,           // width of one bar; one point of spacing follows it
    totalWidth: real,         // width of the content holding every bar
    offset: real,             // horizontal scroll offset
    draggingIndex: int,       // bar highlighted by the last drag
    layers: seq<Bar>,         // bar layers built by the last LoadGraphData
    pendingResets: seq<int>,  // bars whose highlight reset is scheduled, oldest first
    notified: seq<Selection>  // every selection reported to the delegate, oldest first
  )

  /** A freshly created control: no data, bars 10 points wide, scrolled to the origin. */
  function Init(): (g: Graph)
    ensures Valid(g)
    ensures g.data == [] && g.layers == [] && g.notified == []
    ensures g.barWidth == 10.0 && g.largest == 0.0 && g.offset == 0.0 && g.draggingIndex == 0 && g.pendingResets == []
  {
    Graph([], 0.0, 0, 10.0, 0.0, 0.0, 0, [], [], [])
  }

  /** The count, the content width and the running maximum agree with the data. */
  ghost predicate Coherent(g: Graph)
  {
    && g.barCount == |g.data|
    && g.totalWidth == ContentWidth(g.barCount, g.barWidth)
    && (forall k :: 0 <= k < |g.data| ==> g.data[k] <= g.largest)
  }

  /** Every highlighted bar is the bar being dragged over or has a reset scheduled. */
  ghost predicate HighlightAccounted(g: Graph)
  {
    forall k :: 0 <= k < |g.layers| && g.layers[k].highlighted ==> k == g.draggingIndex || k in g.pendingResets
  }

  ghost predicate Valid(g: Graph)
  {
    Coherent(g) && HighlightAccounted(g)
  }

  /** The bar the current scroll offset selects. */
  function Selected(g: Graph): int
    requires g.barWidth + 1.0 != 0.0
  {
    IndexForOffset(g.offset, g.barWidth, |g.data|)
  }

  /** Everything but the scroll offset, the layers' highlights and the logs is the same in both states. */
  predicate SameConfiguration(g: Graph, r: Graph)
  {
    && r.data == g.data && r.largest == g.largest && r.barCount == g.barCount
    && r.barWidth == g.barWidth && r.totalWidth == g.totalWidth
  }

  /** Layers `r` equal layers `g` except bar `i`, whose highlight is set to `on`. */
  predicate LayersExcept(g: seq<Bar>, r: seq<Bar>, i: int, on: bool)
  {
    && |r| == |g|
    && 0 <= i < |g|
    && r[i] == g[i].(highlighted := on)
    && (forall k :: 0 <= k < |g| && k != i ==> r[k] == g[k])
  }

  /**
   Scrolls to the end of the data: the offset becomes the content width.
   The content is inset by half the view's width, so this puts the right
   end of the last bar's slot at the centre of the view.
   */
  function LayoutScrollview(g: Graph): (r: Graph)
    ensures r.offset == g.totalWidth
    ensures r.(offset := g.offset) == g
  {
    g.(offset := g.totalWidth)
  }

  /**
   Replaces the data. The running maximum only grows; the bar count and
   content width follow the new data, and the view scrolls to the end.
   The layers are not rebuilt until LoadGraphData.
   */
  function SetBarData(g: Graph, values: seq<real>): (r: Graph)
    ensures r.data == values
    ensures g.largest <= r.largest
    ensures forall k :: 0 <= k < |values| ==> values[k] <= r.largest
    ensures r.largest == g.largest || exists k :: 0 <= k < |values| && values[k] == r.largest
    ensures r.barCount == |values| && r.totalWidth == ContentWidth(|values|, g.barWidth)
    ensures r.offset == r.totalWidth
    ensures r.barWidth == g.barWidth && r.layers == g.layers && r.draggingIndex == g.draggingIndex
    ensures r.pendingResets == g.pendingResets && r.notified == g.notified
    ensures Valid(g) ==> Valid(r)
  {
    var count := |values|;
    LayoutScrollview(g.(data := values,
                        largest := RunningMax(g.largest, values),
                        barCount := count,
                        totalWidth := ContentWidth(count, g.barWidth)))
  }

  /**
   Changes the bar width without validating it. The content width is
   recomputed from the existing count, the data is kept, and the view
   scrolls to the end.
   */
  function SetGraphBarWidth(g: Graph, newWidth: int): (r: Graph)
    ensures r.barWidth == newWidth as real
    ensures r.totalWidth == ContentWidth(g.barCount, newWidth as real)
    ensures r.offset == r.totalWidth
    ensures r.data == g.data && r.largest == g.largest && r.barCount == g.barCount
    ensures r.layers == g.layers && r.draggingIndex == g.draggingIndex
    ensures r.pendingResets == g.pendingResets && r.notified == g.notified
    ensures Valid(g) ==> Valid(r)
  {
    var width := newWidth as real;
    LayoutScrollview(g.(barWidth := width, totalWidth := ContentWidth(g.barCount, width)))
  }

  /** What SnapToBar needs to run without indexing past the layers. */
  predicate CanSnap(g: Graph)
  {
    |g.data| > 0 ==> g.barWidth + 1.0 != 0.0 && IndexForOffset(g.offset, g.barWidth, |g.data|) < |g.layers|
  }

  /**
   Snaps to the bar under the current offset: reports that bar, scrolls to
   its centre and, when the animation completes, resets its highlight.
   With no data it reports `(0, 0)` and changes nothing else.
   */
  function SnapToBar(g: Graph): (r: Graph)
    requires CanSnap(g)
    ensures |r.notified| == |g.notified| + 1 && r.notified[..|g.notified|] == g.notified
    ensures SameConfiguration(g, r) && r.draggingIndex == g.draggingIndex && r.pendingResets == g.pendingResets
    ensures |g.data| == 0 ==> r == g.(notified := g.notified + [Selection(0, 0)])
    ensures |g.data| > 0 ==>
      var s := r.notified[|g.notified|];
      && s.index == Selected(g)
      && 0 <= s.index < |g.data|
      && s.value == TruncToInt(g.data[s.index])
      && r.offset == SnapOffset(s.index, g.barWidth)
      && LayersExcept(g.layers, r.layers, s.index, false)
    ensures HighlightAccounted(g) ==> HighlightAccounted(r)
  {
    if |g.data| > 0 then
      var i := Selected(g);
      g.(notified := g.notified + [Selection(TruncToInt(g.data[i]), i)],
         offset := SnapOffset(i, g.barWidth),
         layers := g.layers[i := g.layers[i].(highlighted := false)])
    else
      g.(notified := g.notified + [Selection(0, 0)])
  }

  /**
   Rebuilds one layer per value, left to right, none highlighted, then
   snaps. Resets scheduled for the discarded layers no longer affect any
   visible bar, so they are dropped.
   */
  function LoadGraphData(g: Graph, viewHeight: real): (r: Graph)
    requires |g.data| > 0 ==> g.barWidth + 1.0 != 0.0
    ensures |r.layers| == |g.data|
    ensures forall i :: 0 <= i < |r.layers| ==> r.layers[i].x == BarX(i, g.barWidth) && r.layers[i].width == g.barWidth
    ensures forall i :: 0 <= i < |r.layers| ==> r.layers[i].height == BarHeight(g.data[i], g.largest, viewHeight)
    ensures forall i :: 0 <= i < |r.layers| ==> !r.layers[i].highlighted
    ensures r.pendingResets == []
    ensures |r.notified| == |g.notified| + 1 && r.notified[..|g.notified|] == g.notified
    ensures |g.data| > 0 ==>
      && r.offset == SnapOffset(Selected(g), g.barWidth)
      && r.notified[|g.notified|] == Selection(TruncToInt(g.data[Selected(g)]), Selected(g))
    ensures SameConfiguration(g, r) && r.draggingIndex == g.draggingIndex
    ensures Valid(g) ==> Valid(r)
  {
    var layers := seq(|g.data|, i requires 0 <= i < |g.data| =>
      Bar(BarX(i, g.barWidth), g.barWidth, BarHeight(g.data[i], g.largest, viewHeight), false));
    SnapToBar(g.(layers := layers, pendingResets := []))
  }

  /**
   What a scroll event needs to run without indexing past the layers: the
   old and the new dragged-over bar must both have a layer whenever the
   highlight is swapped.
   */
  predicate CanScroll(g: Graph, dragging: bool)
  {
    |g.data| > 0 ==>
      && g.barWidth + 1.0 != 0.0
      && (dragging && |g.layers| > 0 && Selected(g) != g.draggingIndex ==>
            0 <= g.draggingIndex < |g.layers| && Selected(g) < |g.layers|)
  }

  /** Whether a scroll event swaps the highlight: dragging, layers built, and a different bar selected. */
  predicate Swaps(g: Graph, dragging: bool)
    requires |g.data| > 0 ==> g.barWidth + 1.0 != 0.0
  {
    |g.data| > 0 && dragging && |g.layers| > 0 && Selected(g) != g.draggingIndex
  }

  /**
   A scroll event. With data, the selected bar is reported every time; if
   the user is dragging over a different bar than before, the old bar's
   reset is scheduled, it becomes the dragged-over bar and is highlighted
   at once. With no data nothing happens.
   */
  function DidScroll(g: Graph, dragging: bool): (r: Graph)
    requires CanScroll(g, dragging)
    ensures |g.data| == 0 ==> r == g
    ensures |g.data| > 0 ==>
      && 0 <= Selected(g) < |g.data|
      && r.notified == g.notified + [Selection(TruncToInt(g.data[Selected(g)]), Selected(g))]
    ensures r.draggingIndex != g.draggingIndex <==> Swaps(g, dragging)
    ensures Swaps(g, dragging) ==>
      && r.draggingIndex == Selected(g)
      && r.pendingResets == g.pendingResets + [g.draggingIndex]
      && LayersExcept(g.layers, r.layers, Selected(g), true)
    ensures !Swaps(g, dragging) ==> r.layers == g.layers && r.pendingResets == g.pendingResets && r.draggingIndex == g.draggingIndex
    ensures SameConfiguration(g, r) && r.offset == g.offset
    ensures HighlightAccounted(g) ==> HighlightAccounted(r)
  {
    if |g.data| == 0 then g
    else
      var i := Selected(g);
      var reported := g.(notified := g.notified + [Selection(TruncToInt(g.data[i]), i)]);
      if dragging && |g.layers| > 0 && i != g.draggingIndex then
        reported.(pendingResets := g.pendingResets + [g.draggingIndex],
                  draggingIndex := i,
                  layers := g.layers[i := g.layers[i].(highlighted := true)])
      else
        reported
  }

  /** The user's finger lifts: without deceleration the graph snaps at once, otherwise it waits for EndDecelerating. */
  function EndDragging(g: Graph, decelerate: bool): (r: Graph)
    requires !decelerate ==> CanSnap(g)
    ensures decelerate ==> r == g
    ensures !decelerate ==> |r.notified| == |g.notified| + 1 && r.notified[..|g.notified|] == g.notified
    ensures !decelerate ==> SameConfiguration(g, r) && r.draggingIndex == g.draggingIndex && r.pendingResets == g.pendingResets
    ensures !decelerate ==> (HighlightAccounted(g) ==> HighlightAccounted(r))
    ensures !decelerate && |g.data| == 0 ==> r == g.(notified := g.notified + [Selection(0, 0)])
    ensures !decelerate && |g.data| > 0 ==>
      && r.notified[|g.notified|] == Selection(TruncToInt(g.data[Selected(g)]), Selected(g))
      && r.offset == SnapOffset(Selected(g), g.barWidth)
      && LayersExcept(g.layers, r.layers, Selected(g), false)
  {
    if !decelerate then SnapToBar(g) else g
  }

  /** The scroll view comes to rest after a flick: the graph snaps. */
  function EndDecelerating(g: Graph): (r: Graph)
    requires CanSnap(g)
    ensures |r.notified| == |g.notified| + 1 && r.notified[..|g.notified|] == g.notified
    ensures SameConfiguration(g, r) && r.draggingIndex == g.draggingIndex && r.pendingResets == g.pendingResets
    ensures HighlightAccounted(g) ==> HighlightAccounted(r)
    ensures |g.data| == 0 ==> r == g.(notified := g.notified + [Selection(0, 0)])
    ensures |g.data| > 0 ==>
      && r.notified[|g.notified|] == Selection(TruncToInt(g.data[Selected(g)]), Selected(g))
      && r.offset == SnapOffset(Selected(g), g.barWidth)
      && LayersExcept(g.layers, r.layers, Selected(g), false)
  {
    SnapToBar(g)
  }

  /** The oldest scheduled highlight reset fires; with none scheduled nothing changes. */
  function FireReset(g: Graph): (r: Graph)
    ensures |g.pendingResets| == 0 ==> r == g
    ensures |g.pendingResets| > 0 ==> r.pendingResets == g.pendingResets[1..]
    ensures |g.pendingResets| > 0 && 0 <= g.pendingResets[0] < |g.layers| ==>
      LayersExcept(g.layers, r.layers, g.pendingResets[0], false)
    ensures |g.pendingResets| > 0 && !(0 <= g.pendingResets[0] < |g.layers|) ==> r.layers == g.layers
    ensures SameConfiguration(g, r) && r.offset == g.offset && r.draggingIndex == g.draggingIndex && r.notified == g.notified
    ensures HighlightAccounted(g) ==> HighlightAccounted(r)
  {
    if |g.pendingResets| == 0 then g
    else
      var k := g.pendingResets[0];
      var layers := if 0 <= k < |g.layers| then g.layers[k := g.layers[k].(highlighted := false)] else g.layers;
      g.(layers := layers, pendingResets := g.pendingResets[1..])
  }

  /**
   Every scheduled reset fires, oldest first. A reset is never cancelled,
   so a bar scheduled for reset ends unhighlighted even if a newer
   selection came after it; every other layer is untouched.
   */
  function SettleResets(g: Graph): (r: Graph)
    ensures r.pendingResets == []
    ensures |r.layers| == |g.layers|
    ensures forall k :: 0 <= k < |g.layers| && k in g.pendingResets ==> r.layers[k] == g.layers[k].(highlighted := false)
    ensures forall k :: 0 <= k < |g.layers| && k !in g.pendingResets ==> r.layers[k] == g.layers[k]
    ensures SameConfiguration(g, r) && r.offset == g.offset && r.draggingIndex == g.draggingIndex && r.notified == g.notified
    decreases |g.pendingResets|
  {
    if |g.pendingResets| == 0 then g
    else
      var next := FireReset(g);
      assert forall k :: k in g.pendingResets <==> k == g.pendingResets[0] || k in next.pendingResets;
      SettleResets(next)
  }

  /**
   After new data arrives the view rests at the end of the content, where
   the offset selects the last bar.
   */
  lemma DataShowsLastBar(g: Graph, values: seq<real>)
    requires |values| > 0 && g.barWidth + 1.0 != 0.0
    ensures Selected(SetBarData(g, values)) == |values| - 1
  {
    EndOffsetSelectsLast(|values|, g.barWidth);
  }

  /** The same holds after a bar-width change, for any width the index arithmetic accepts. */
  lemma WidthShowsLastBar(g: Graph, newWidth: int)
    requires Valid(g) && |g.data| > 0 && newWidth != -1
    ensures Selected(SetGraphBarWidth(g, newWidth)) == |g.data| - 1
  {
    EndOffsetSelectsLast(|g.data|, newWidth as real);
  }

  /**
   The content width divided by the slot width is exactly the bar count,
   whatever the sign of the slot width, so that offset selects the last bar.
   */
  lemma EndOffsetSelectsLast(count: nat, barWidth: real)
    requires count > 0 && barWidth + 1.0 != 0.0
    ensures IndexForOffset(ContentWidth(count, barWidth), barWidth, count) == count - 1
  {
    var p := barWidth + 1.0;
    var n := count as real;
    assert ContentWidth(count, barWidth) == n * p;
    MultipleOfSlot(n, p);
  }

  /**
   A release settles on a bar: after the snap that ends a drag or a
   deceleration, the resting offset selects the very bar that was reported.
   `g` is the state the snap starts from: for a release without
   deceleration, the state when the finger lifts; for a flick, the state
   once deceleration has carried the offset to rest.
   */
  lemma ReleaseSettlesOnReportedBar(g: Graph, decelerate: bool)
    requires CanSnap(g) && |g.data| > 0 && g.barWidth >= 0.0
    ensures var r := if decelerate then EndDecelerating(g) else EndDragging(g, false);
      && Selected(r) == r.notified[|g.notified|].index
      && !r.layers[Selected(r)].highlighted
  {
    SnapRoundTrip(Selected(g), g.barWidth, |g.data|);
  }

  /**
   The running maximum is never reset: feeding two series one after the
   other leaves the maximum of the earlier maximum and both series.
   */
  lemma LargestSurvivesNewData(g: Graph, a: seq<real>, b: seq<real>)
    ensures SetBarData(SetBarData(g, a), b).largest == RunningMax(g.largest, a + b)
    ensures SetBarData(SetBarData(g, a), b).data == b
  {
    RunningMaxConcat(g.largest, a, b);
  }

  /**
   Snapping is stable: a second snap reports the same bar and value as the
   first and leaves the offset where the first put it.
   */
  lemma SnapIsStable(g: Graph)
    requires CanSnap(g) && |g.data| > 0 && g.barWidth >= 0.0
    ensures CanSnap(SnapToBar(g))
    ensures SnapToBar(SnapToBar(g)).offset == SnapToBar(g).offset
    ensures SnapToBar(SnapToBar(g)).notified == SnapToBar(g).notified + [SnapToBar(g).notified[|g.notified|]]
  {
    var r := SnapToBar(g);
    SnapRoundTrip(Selected(g), g.barWidth, |g.data|);
    assert Selected(r) == Selected(g);
  }

  /**
   Dragging stays on a bar without swapping twice: a second scroll event at
   the same offset reports the same selection again and changes no
   highlight.
   */
  lemma RepeatedScrollOnlyReports(g: Graph)
    requires CanScroll(g, true) && |g.data| > 0
    ensures CanScroll(DidScroll(g, true), true)
    ensures DidScroll(DidScroll(g, true), true).layers == DidScroll(g, true).layers
    ensures DidScroll(DidScroll(g, true), true).pendingResets == DidScroll(g, true).pendingResets
    ensures DidScroll(DidScroll(g, true), true).notified
         == DidScroll(g, true).notified + [DidScroll(g, true).notified[|g.notified|]]
  {
  }

  /**
   Once every scheduled reset has fired, at most the bar being dragged over
   is still highlighted.
   */
  lemma SettledHighlightIsDragged(g: Graph)
    requires HighlightAccounted(g)
    ensures forall k :: 0 <= k < |SettleResets(g).layers| && SettleResets(g).layers[k].highlighted ==> k == g.draggingIndex
  {
  }

  /**
   Resets are not cancelled: when a drag moves the highlight from one bar
   to another, the old bar ends unhighlighted once the resets fire, while
   the new bar stays highlighted unless a reset for it was already pending.
   */
  lemma SupersededResetStillApplies(g: Graph)
    requires CanScroll(g, true) && Swaps(g, true)
    ensures !SettleResets(DidScroll(g, true)).layers[g.draggingIndex].highlighted
    ensures Selected(g) !in g.pendingResets ==> SettleResets(DidScroll(g, true)).layers[Selected(g)].highlighted
  {
    var r := DidScroll(g, true);
    assert g.draggingIndex in r.pendingResets;
    assert Selected(g) in g.pendingResets <==> Selected(g) in r.pendingResets;
  }

  /**
   The layers a load builds sit side by side without overlap, and with a
   positive maximum and non-negative data every bar is between two points
   and ten points short of the view's height.
   */
  lemma LoadedBarsAreLaidOut(g: Graph, viewHeight: real)
    requires Valid(g) && (|g.data| > 0 ==> g.barWidth + 1.0 != 0.0)
    ensures forall i :: 0 <= i < |g.data| - 1 ==>
      LoadGraphData(g, viewHeight).layers[i].x + g.barWidth < LoadGraphData(g, viewHeight).layers[i + 1].x
    ensures g.largest > 0.0 && viewHeight >= 10.0 ==>
      forall i :: 0 <= i < |g.data| && 0.0 <= g.data[i] ==>
        2.0 <= LoadGraphData(g, viewHeight).layers[i].height <= viewHeight - 8.0
  {
    var r := LoadGraphData(g, viewHeight);
    forall i | 0 <= i < |g.data| - 1
      ensures r.layers[i].x + g.barWidth < r.layers[i + 1].x
    {
      BarsAreSpaced(i, g.barWidth);
    }
    if g.largest > 0.0 && viewHeight >= 10.0 {
      forall i | 0 <= i < |g.data| && 0.0 <= g.data[i]
        ensures 2.0 <= r.layers[i].height <= viewHeight - 8.0
      {
        BarHeightRange(g.data[i], g.largest, viewHeight);
      }
    }
  }

  /** Loading an empty graph reports `(0, 0)` and builds no layers. */
  lemma EmptyLoadReportsZero(g: Graph, viewHeight: real)
    requires g.data == []
    ensures LoadGraphData(g, viewHeight).notified == g.notified + [Selection(0, 0)]
    ensures LoadGraphData(g, viewHeight).layers == []
    ensures LoadGraphData(g, viewHeight).offset == g.offset
  {
  }
}
