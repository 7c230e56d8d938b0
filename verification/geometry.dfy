/**
 The coordinate arithmetic of the scrolling bar graph: where bar `i` sits,
 how wide the scrollable content is, which bar a horizontal scroll offset
 selects, where a snap to bar `i` lands, and how tall a bar is drawn.

 Offsets and widths are `real`, an idealisation of `CGFloat`. Bars are laid
 out left to right with one point of spacing after each, so bar `i`
 occupies the slot `[BarX(i), BarX(i + 1))` of width `barWidth + 1`.
 */
module Geometry {

  function Min(a: int, b: int): int { if a <= b then a else b }
  function Max(a: int, b: int): int { if a <= b then b else a }

  /** Left edge of bar `i`: `i` bars and `i` one-point gaps precede it. */
  function BarX(i: int, barWidth: real): real
  {
    (i as real) * barWidth + (i as real)
  }

  /** Width of the content that holds `count` bars and their gaps. */
  function ContentWidth(count: nat, barWidth: real): real
  {
    (count as real) * barWidth + (count as real)
  }

  /** The offset a snap to bar `i` scrolls to: the middle of that bar. */
  function SnapOffset(i: int, barWidth: real): real
  {
    (i as real) * barWidth + (i as real) + barWidth / 2.0
  }

  /**
   The bar selected by a horizontal scroll offset: the slot the offset falls
   in, clamped to the bars that exist. With no bars the formula yields 0;
   callers check for empty data before they use it.
   */
  function IndexForOffset(offset: real, barWidth: real, count: nat): (r: int)
    requires barWidth + 1.0 != 0.0
    ensures count > 0 ==> 0 <= r < count
    ensures count == 0 ==> r == 0
  {
    Max(Min((offset / (barWidth + 1.0)).Floor, count - 1), 0)
  }

  /**
   Height of the bar for value `v`, normalised so that `largest` reaches
   `height - 10` plus a two-point base; every bar is two points tall when
   `largest` is not positive.
   */
  function BarHeight(v: real, largest: real, height: real): (h: real)
    ensures largest <= 0.0 ==> h == 2.0
    ensures largest > 0.0 && v == 0.0 ==> h == 2.0
  {
    if largest > 0.0 then v / largest * (height - 10.0) + 2.0 else 2.0
  }

  /**
   A value between zero and the largest value draws a bar between the
   two-point base and the top of the drawable area, ten points below the
   view's top edge.
   */
  lemma BarHeightRange(v: real, largest: real, height: real)
    requires largest > 0.0 && height >= 10.0
    requires 0.0 <= v <= largest
    ensures 2.0 <= BarHeight(v, largest, height) <= height - 8.0
    ensures v == largest ==> BarHeight(v, largest, height) == height - 8.0
  {
    var t := v / largest;
    assert 0.0 <= t <= 1.0;
    ScaleWithinUnit(t, height - 10.0);
    assert BarHeight(v, largest, height) == t * (height - 10.0) + 2.0;
    if v == largest {
      assert t == 1.0;
    }
  }

  /** Scaling a non-negative length by a fraction in `[0, 1]` stays within `[0, length]`. */
  lemma ScaleWithinUnit(t: real, length: real)
    requires 0.0 <= t <= 1.0 && 0.0 <= length
    ensures 0.0 <= t * length <= length
  {
  }

  /** Dividing a multiple of a non-zero slot width by that width gives the multiplier back. */
  lemma MultipleOfSlot(n: real, p: real)
    requires p != 0.0
    ensures (n * p) / p == n
  {
  }

  /** Consecutive bars are exactly one slot apart and never overlap. */
  lemma BarsAreSpaced(i: int, barWidth: real)
    ensures BarX(i + 1, barWidth) - BarX(i, barWidth) == barWidth + 1.0
    ensures BarX(i, barWidth) + barWidth < BarX(i + 1, barWidth)
  {
  }

  /** Every one of `count` bars lies inside the content width, and the last slot ends exactly at it. */
  lemma BarsFitContent(count: nat, barWidth: real, i: int)
    requires barWidth >= 0.0
    requires 0 <= i < count
    ensures 0.0 <= BarX(i, barWidth)
    ensures BarX(i, barWidth) + barWidth < ContentWidth(count, barWidth)
    ensures BarX(count, barWidth) == ContentWidth(count, barWidth)
  {
    assert ((i + 1) as real) * barWidth <= (count as real) * barWidth;
  }

  /** A slot's floor: `offset` lies at or past the left edge of slot `k` exactly when its quotient's floor is at least `k`. */
  lemma SlotFloor(offset: real, barWidth: real, k: int)
    requires barWidth + 1.0 > 0.0
    ensures (offset / (barWidth + 1.0)).Floor >= k <==> BarX(k, barWidth) <= offset
  {
    var p := barWidth + 1.0;
    var q := offset / p;
    assert BarX(k, barWidth) == (k as real) * p;
    assert offset == q * p;
    if q.Floor >= k {
      assert (k as real) <= q;
      assert (k as real) * p <= q * p;
    } else {
      assert q < (k as real);
      assert q * p < (k as real) * p;
    }
  }

  /**
   Which bar an offset selects, exactly: bar `i` is selected if and only if
   the offset lies in slot `i`, where the first slot extends to the left
   without end and the last slot to the right without end.
   */
  lemma IndexIsSlot(offset: real, barWidth: real, count: nat, i: int)
    requires barWidth + 1.0 > 0.0
    requires 0 <= i < count
    ensures IndexForOffset(offset, barWidth, count) == i
        <==> (i == 0 || BarX(i, barWidth) <= offset) && (i == count - 1 || offset < BarX(i + 1, barWidth))
  {
    SlotFloor(offset, barWidth, i);
    SlotFloor(offset, barWidth, i + 1);
  }

  /** Offsets left of the content select the first bar; offsets at or past its end select the last. */
  lemma IndexAtEnds(offset: real, barWidth: real, count: nat)
    requires barWidth + 1.0 > 0.0
    requires count > 0
    ensures offset < 0.0 ==> IndexForOffset(offset, barWidth, count) == 0
    ensures offset >= ContentWidth(count, barWidth) ==> IndexForOffset(offset, barWidth, count) == count - 1
  {
    IndexIsSlot(offset, barWidth, count, 0);
    IndexIsSlot(offset, barWidth, count, count - 1);
    assert BarX(count - 1 + 1, barWidth) == ContentWidth(count, barWidth);
  }

  /** The snap offset of bar `i` is the centre of that bar, so it lies in slot `i`. */
  lemma SnapOffsetInSlot(i: int, barWidth: real)
    requires barWidth >= 0.0
    ensures SnapOffset(i, barWidth) == BarX(i, barWidth) + barWidth / 2.0
    ensures BarX(i, barWidth) <= SnapOffset(i, barWidth) < BarX(i + 1, barWidth)
  {
    assert BarX(i + 1, barWidth) == BarX(i, barWidth) + barWidth + 1.0;
  }

  /**
   Snapping round-trips through the index: the offset a snap to bar `i`
   scrolls to selects bar `i` again.
   */
  lemma SnapRoundTrip(i: int, barWidth: real, count: nat)
    requires barWidth >= 0.0
    requires 0 <= i < count
    ensures IndexForOffset(SnapOffset(i, barWidth), barWidth, count) == i
  {
    SnapOffsetInSlot(i, barWidth);
    IndexIsSlot(SnapOffset(i, barWidth), barWidth, count, i);
  }

  /** Taller values draw taller bars: the normalisation is monotone. */
  lemma BarHeightMonotone(v: real, w: real, largest: real, height: real)
    requires largest > 0.0 && height >= 10.0
    requires v <= w
    ensures BarHeight(v, largest, height) <= BarHeight(w, largest, height)
  {
    assert v / largest <= w / largest;
    assert v / largest * (height - 10.0) <= w / largest * (height - 10.0);
  }
}
