# JMScrollingBarGraph in Dafny

This project models the logic of `JMScrollingBarGraph`, an iOS bar-graph view. The user scrolls it horizontally. It reports the bar under the scroll offset to a delegate as `(value, index)`, highlights bars while the user drags, and snaps to the nearest bar when scrolling stops.

The model is three modules:

- `Geometry` (`geometry.dfy`) holds the pure coordinate arithmetic. It covers the left edge of bar `i` (`i*barWidth + i`), the content width (`count*barWidth + count`), and the clamped offset-to-index formula `max(min(floor(offset/(barWidth+1)), count-1), 0)`. It also covers the snap target `i*barWidth + i + barWidth/2` and the normalised bar height `v/largest*(H-10)+2`, which is `2` when `largest` is not positive.
- `Series` (`series.dfy`) holds the running maximum `largestDataValue` and Swift's `Int(x)` truncation toward zero. The control uses that truncation to turn a bar's value into the reported integer.
- `BarGraph` (`bar_graph.dfy`) holds the control's state as an immutable record `Graph` with pure transitions. These are `SetBarData`, `SetGraphBarWidth`, `LayoutScrollview`, `LoadGraphData`, `DidScroll`, `SnapToBar`, `EndDragging`, `EndDecelerating`, and the firing of scheduled highlight resets (`FireReset`, `SettleResets`).

Modelling choices:

- Offsets, widths and values are `real`, an idealisation of `CGFloat`.
- The delegate is the log `notified` of reported selections, kept in order.
- The 0.1 s delayed highlight resets are the list `pendingResets` of bar indices. They fire oldest first, and a later selection never cancels them. LoadGraphData drops those that target the layers it discards.
- The scroll offset is part of the state. A user's scroll sets it, and `DidScroll` reads it, just as `scrollViewDidScroll` reads `contentOffset.x`.
- The bar width comes from `setGraphBarWidth`'s `Int` with no validation. The index arithmetic only requires `barWidth + 1 != 0`, because Swift traps converting the infinite or NaN quotient to `Int`. The snap round trip is proved for `barWidth >= 0`.
- The source indexes its layer array at lines 214, 221 and 246, and two situations take that indexing past the end:
  - If the data grows without a reload, the selected index can reach past the layers built for the old data (lines 221 and 246).
  - `draggingIndex` is never reset. After a reload with fewer values, it can name a bar that no longer exists, and line 214 reads past the end at the next highlight swap.
  - `CanScroll` and `CanSnap` state exactly the conditions that avoid both cases as preconditions, so the model does not include the crash.

## Model

| member | source | states |
|---|---|---|
| Geometry.IndexForOffset | JMScrollingBarGraph/JMScrollingBarGraph.swift:202 | With at least one bar, the selected index is in `[0, count-1]` for every offset, including negative and past-the-end offsets. With no bars the formula gives 0. |
| Geometry.IndexIsSlot | JMScrollingBarGraph/JMScrollingBarGraph.swift:235 | For `barWidth + 1 > 0`: bar `i` is selected if and only if the offset lies in its slot `[i*(w+1), (i+1)*(w+1))`. The first slot extends without limit to the left and the last slot without limit to the right. |
| Geometry.IndexAtEnds | JMScrollingBarGraph/JMScrollingBarGraph.swift:202 | For `barWidth + 1 > 0`: a negative offset selects the first bar, and an offset at or past the content width selects the last bar. |
| Geometry.SnapOffsetInSlot | JMScrollingBarGraph/JMScrollingBarGraph.swift:244 | For `barWidth >= 0`: the snap target for bar `i` is that bar's centre (left edge plus half a width), so it lies inside slot `i`. |
| Geometry.SnapRoundTrip | JMScrollingBarGraph/JMScrollingBarGraph.swift:235-244 | For every `i` in `[0, count-1]` and every width `>= 0`, the snap offset of bar `i` maps back to index `i`. The offset itself need not round-trip. |
| Geometry.BarsAreSpaced | JMScrollingBarGraph/JMScrollingBarGraph.swift:151 | Consecutive bars start exactly `barWidth + 1` apart, so a bar ends before the next one begins. |
| Geometry.BarsFitContent | JMScrollingBarGraph/JMScrollingBarGraph.swift:101-102 | For `barWidth >= 0`: each of `count` bars starts at or after 0 and ends before the content width, and the last slot ends exactly at the content width. |
| Geometry.BarHeight | JMScrollingBarGraph/JMScrollingBarGraph.swift:149 | When the largest value is not positive, every bar is 2 points tall. A zero value is also 2 points tall. |
| Geometry.BarHeightRange | JMScrollingBarGraph/JMScrollingBarGraph.swift:146-149 | When `largest > 0`, `0 <= v <= largest` and the view is at least 10 points tall, the bar height is in `[2, H-8]`. The largest value reaches `H-8` exactly. |
| Geometry.BarHeightMonotone | JMScrollingBarGraph/JMScrollingBarGraph.swift:149 | When `largest > 0` and the view is at least 10 points tall, a larger value never draws a shorter bar. |
| Series.TruncToInt | JMScrollingBarGraph/JMScrollingBarGraph.swift:204 | `Int(x)` rounds toward zero: for `x >= 0` it is the greatest integer `<= x`, and for negative `x` the least integer `>= x`. |
| Series.RunningMax | JMScrollingBarGraph/JMScrollingBarGraph.swift:95-99 | The new largest value is at least the previous one and at least every element. It equals the previous value or one of the elements. |
| Series.RunningMaxConcat | JMScrollingBarGraph/JMScrollingBarGraph.swift:94-99 | Scanning two series in turn gives the same maximum as scanning their concatenation once. |
| BarGraph.Init | JMScrollingBarGraph/JMScrollingBarGraph.swift:32-40 | A fresh control has no data, no layers, no reports and no pending resets. The bar width is the default 10, the largest value 0, the dragging index 0 and the offset 0. It satisfies the state invariant. |
| BarGraph.LayoutScrollview | JMScrollingBarGraph/JMScrollingBarGraph.swift:84-85 | Layout moves the offset to the content width and changes nothing else. |
| BarGraph.SetBarData | JMScrollingBarGraph/JMScrollingBarGraph.swift:90-104 | The data is replaced. The largest value is the maximum of its old value and the new array and never decreases. Count and content width follow the new data, the offset moves to the content width, and the layers, dragging index, pending resets and reports are unchanged. The state invariant is kept. |
| BarGraph.SetGraphBarWidth | JMScrollingBarGraph/JMScrollingBarGraph.swift:108-113 | The content width is recomputed from the existing count and the new width. The data, count and largest value are unchanged, and the offset moves to the new content width. The state invariant is kept. |
| BarGraph.DataShowsLastBar | JMScrollingBarGraph/JMScrollingBarGraph.swift:85 | After non-empty data arrives, the offset selects the last bar, `count-1`. This holds for every bar width except -1. |
| BarGraph.WidthShowsLastBar | JMScrollingBarGraph/JMScrollingBarGraph.swift:110-112 | After a width change on non-empty data, the offset selects the last bar. This holds for every new width except -1. |
| BarGraph.EndOffsetSelectsLast | JMScrollingBarGraph/JMScrollingBarGraph.swift:85 | The content width divided by the slot width is exactly the bar count, for either sign of the slot width. So the offset layout sets selects bar `count-1`. |
| BarGraph.LargestSurvivesNewData | JMScrollingBarGraph/JMScrollingBarGraph.swift:95-99 | After two data sets, the largest value is the maximum over the original value and both arrays. It is never reset. |
| BarGraph.SnapToBar | JMScrollingBarGraph/JMScrollingBarGraph.swift:231-255 | With data, one report goes out: the bar under the offset with its truncated value. The offset moves to that bar's centre and only that bar's highlight is cleared. With no data, it reports exactly `(0, 0)` and changes nothing else. |
| BarGraph.SnapIsStable | JMScrollingBarGraph/JMScrollingBarGraph.swift:235-244 | For `barWidth >= 0`: a second snap reports the same selection again and leaves the offset where the first snap put it. |
| BarGraph.LoadGraphData | JMScrollingBarGraph/JMScrollingBarGraph.swift:138-180 | One unhighlighted layer is built per value. Each layer's frame has the bar's position and width and its normalised height. Then the graph snaps. With data, the offset moves to the centre of the bar under the old offset, and that bar is reported with its truncated value. Pending resets are dropped. |
| BarGraph.LoadedBarsAreLaidOut | JMScrollingBarGraph/JMScrollingBarGraph.swift:146-155 | Loaded layers do not overlap. With a positive maximum, a view at least 10 points tall and non-negative data, every bar height is in `[2, H-8]`. |
| BarGraph.EmptyLoadReportsZero | JMScrollingBarGraph/JMScrollingBarGraph.swift:249-253 | Loading with empty data builds no layers, reports exactly `(0, 0)` and leaves the offset unchanged. |
| BarGraph.DidScroll | JMScrollingBarGraph/JMScrollingBarGraph.swift:198-227 | With data, every scroll reports the selected bar and its value, even if the bar is unchanged. The dragging index changes if and only if the user is dragging, layers exist and a different bar is selected. In that case exactly the old index is appended to the pending resets and only the new bar is highlighted. Otherwise only the report is added. With no data, nothing changes. |
| BarGraph.RepeatedScrollOnlyReports | JMScrollingBarGraph/JMScrollingBarGraph.swift:206-213 | A second drag event at the same offset repeats the report and changes no highlight or pending reset. |
| BarGraph.SettledHighlightIsDragged | JMScrollingBarGraph/JMScrollingBarGraph.swift:210-223 | If every highlighted bar is the dragged-over bar or has a reset pending, then after all resets fire at most the dragged-over bar stays highlighted. |
| BarGraph.SupersededResetStillApplies | JMScrollingBarGraph/JMScrollingBarGraph.swift:214-219 | When a drag moves the highlight, the old bar's reset is not cancelled. Once resets fire the old bar is unhighlighted, and the new bar stays highlighted unless it already had a pending reset. |
| BarGraph.FireReset | JMScrollingBarGraph/JMScrollingBarGraph.swift:259-262 | The oldest pending reset clears that bar's highlight, if the bar has a layer, and is removed. All other state is unchanged. |
| BarGraph.SettleResets | JMScrollingBarGraph/JMScrollingBarGraph.swift:215-218 | After every pending reset fires, each bar that had a reset pending is unhighlighted, every other layer is untouched, and none remain pending. |
| BarGraph.EndDragging | JMScrollingBarGraph/JMScrollingBarGraph.swift:184-190 | With deceleration, nothing changes and any state is accepted. Without deceleration the graph snaps at once: it reports the selected bar and its truncated value, moves to that bar's centre and clears only that bar's highlight. Data, largest value, width, dragging index and pending resets are unchanged, and the highlight invariant is kept. With no data, it only reports `(0, 0)`. |
| BarGraph.EndDecelerating | JMScrollingBarGraph/JMScrollingBarGraph.swift:192-196 | When deceleration ends the graph snaps: it reports the selected bar and its truncated value, moves to that bar's centre and clears only that bar's highlight. Data, largest value, width, dragging index and pending resets are unchanged, and the highlight invariant is kept. With no data, it only reports `(0, 0)`. |
| BarGraph.ReleaseSettlesOnReportedBar | JMScrollingBarGraph/JMScrollingBarGraph.swift:184-196 | For `barWidth >= 0`: after either way a drag can end, with or without deceleration, the resting offset selects exactly the bar that was reported, and that bar is not highlighted. The starting state is the one the snap reads: after a flick, the state once deceleration has carried the offset to rest. |

## Left out

- View construction (`init(frame:)`, `init(coder:)`), frames, content size, `CAShapeLayer` paths, stroke line width and colours are presentational glue over UIKit and Core Animation. A layer is reduced to its frame's left edge, width and height, plus whether it shows the highlight colour.
- The colour setters `setBarColorTo`, `setBarHighlightColorTo` and `setGraphBackgroundColorTo` only store colours and compute nothing.
- LoadGraphData: the `animate` flag only chooses between a stroke animation and a background colour, so it has no logical effect and is not a parameter.
- Durations are not modelled: the 0.2 s snap, the 0.5 s stroke reveal and the 0.1 s reset delay. Only the final effects are kept. The snap's completion reset is applied as part of the snap. Scheduled resets fire through FireReset and SettleResets.
- SnapToBar: the scroll events that UIKit sends while the snap animation is running are not modelled. Only the final offset is kept.
- LayoutScrollview: the scroll event that UIKit sends when line 85 assigns the offset is not modelled. With data, that event reports the last bar, and during a drag it can move the highlight. The model's offset change sends no report.
- SetBarData: through LayoutScrollview, the UIKit scroll event that follows the new offset is not modelled, so `notified` is unchanged. The real control reports the last bar.
- SetGraphBarWidth: through LayoutScrollview, the UIKit scroll event that follows the new offset is not modelled, so `notified` is unchanged. The real control reports the last bar.
- LoadGraphData drops resets still pending when it runs. Those resets target the layers it discards, so they no longer affect any visible bar.
- `CGFloat` rounding and the traps in `Int(...)` for huge values are not modelled. The model uses exact `real` arithmetic and unbounded integers.
- The delegate's weak-reference lifetime is not modelled. Every report is logged, whether or not a delegate is attached.
- Layer indexing past the end at lines 214, 221 and 246 is a crash in the source. It happens when the data grows without a reload (lines 221 and 246), or when a reload with fewer values leaves `draggingIndex` past the new layers (line 214). DidScroll, SnapToBar and EndDecelerating, and EndDragging when it snaps, require the conditions that avoid it (`CanScroll`, `CanSnap`) instead of modelling the crash.
- IndexIsSlot, IndexAtEnds, BarsFitContent, SnapOffsetInSlot, SnapRoundTrip, SnapIsStable and ReleaseSettlesOnReportedBar cover only the bar widths they state. For other widths the source accepts, the facts fail. With width -3, a negative offset can select the last bar. With width -2, the snap offset of bar 0 selects bar 1.
- BarHeightMonotone and BarHeightRange cover views at least 10 points tall. In a shorter view, `H - 10` is negative and a larger value draws a shorter bar.
