/** What the wrapped tool list promises: width, order, and as few lines as possible. */
module ToolListWrapping {
  import opened ToolList

  /** Some way of breaking exactly these items into lines, in order. */
  ghost predicate LaysOut(layout: Layout, items: seq<string>, firstPrefix: string) {
    Concat(layout) == items && Fits(layout, firstPrefix)
  }

  predicate NonEmpty(items: seq<string>) { forall x :: x in items ==> x != "" }

  lemma ItemsAreNonEmpty(names: seq<string>)
    ensures NonEmpty(Items(names))
  {
    forall x | x in Items(names)
      ensures x != ""
    {
      var i :| 0 <= i < |names| && Items(names)[i] == x;
    }
  }

  lemma ConcatExtended(layout: Layout, item: string)
    ensures Concat(Extended(layout, item)) == Concat(layout) + [item]
    ensures Concat(layout + [[item]]) == Concat(layout) + [item]
  {
    var k := |layout| - 1;
    assert Extended(layout, item)[..k] == layout[..k];
    assert (layout + [[item]])[..|layout|] == layout;
  }

  lemma GreedyOfMore(before: seq<string>, item: string, firstPrefix: string)
    ensures Greedy(before + [item], firstPrefix) == Place(Greedy(before, firstPrefix), firstPrefix, item)
    ensures Concat(Greedy(before + [item], firstPrefix)) == Concat(Greedy(before, firstPrefix)) + [item]
    ensures var g := Greedy(before + [item], firstPrefix); g[|g| - 1] != []
  {
    assert (before + [item])[..|before|] == before;
    ConcatExtended(Greedy(before, firstPrefix), item);
  }

  lemma {:induction false} GreedyKeepsItems(items: seq<string>, firstPrefix: string)
    ensures Concat(Greedy(items, firstPrefix)) == items
  {
    if items != [] {
      var last := |items| - 1;
      assert items[..last] + [items[last]] == items;
      GreedyKeepsItems(items[..last], firstPrefix);
      GreedyOfMore(items[..last], items[last], firstPrefix);
    }
  }

  /** Greedy `g` is no worse than `other`: fewer lines, or as many with the last one
      no wider; and it fits. */
  predicate Ahead(g: Layout, other: Layout, firstPrefix: string) {
    && NonEmpty(g[|g| - 1]) && Fits(g, firstPrefix)
    && |g| <= |other|
    && (|g| == |other| ==> |LastText(g, firstPrefix)| <= |LastText(other, firstPrefix)|)
  }

  lemma FitsLess(layout: Layout, firstPrefix: string, item: string)
    requires Fits(Extended(layout, item), firstPrefix)
    ensures Fits(layout, firstPrefix)
  {
    ExtendedText(layout, firstPrefix, item);
    forall k | 0 <= k < |layout| - 1
      ensures LineText(layout, firstPrefix, k) == LineText(Extended(layout, item), firstPrefix, k)
    {
    }
    assert LastText(Extended(layout, item), firstPrefix) == LineText(Extended(layout, item), firstPrefix, |layout| - 1);
  }

  lemma FitsExtended(layout: Layout, firstPrefix: string, item: string)
    requires Fits(layout, firstPrefix) && |LastText(Extended(layout, item), firstPrefix)| <= TOOL_LIST_WIDTH
    ensures Fits(Extended(layout, item), firstPrefix)
  {
    forall k | 0 <= k < |layout| - 1
      ensures LineText(Extended(layout, item), firstPrefix, k) == LineText(layout, firstPrefix, k)
    {
    }
  }

  lemma FitsBroken(layout: Layout, firstPrefix: string, item: string)
    requires Fits(layout, firstPrefix) && |CONTINUATION + item| <= TOOL_LIST_WIDTH
    ensures Fits(layout + [[item]], firstPrefix)
  {
    BrokenText(layout, firstPrefix, item);
    forall k | 0 <= k < |layout|
      ensures LineText(layout + [[item]], firstPrefix, k) == LineText(layout, firstPrefix, k)
    {
    }
  }

  /** A line with items is wider than its prefix. */
  lemma WiderThanPrefix(layout: Layout, firstPrefix: string)
    requires NonEmpty(layout[|layout| - 1])
    ensures |LastText(layout, firstPrefix)| >= |Prefix(firstPrefix, |layout| - 1)| + |Separator(layout)|
  {
    var line := layout[|layout| - 1];
    if line != [] {
      var k := |line| - 1;
      assert line[k] in line;
      JoinMore(line[..k], line[k]);
      assert line[..k] + [line[k]] == line;
    }
  }

  lemma PlaceStaysAhead(g: Layout, other: Layout, firstPrefix: string, item: string)
    requires Ahead(g, other, firstPrefix) && item != "" && Fits(Extended(other, item), firstPrefix)
    ensures Ahead(Place(g, firstPrefix, item), Extended(other, item), firstPrefix)
  {
    var next := Extended(other, item);
    assert LastText(next, firstPrefix) == LineText(next, firstPrefix, |next| - 1);
    LastTextHolds(other, firstPrefix, item);
    if |g| == |other| {
      NoWider(g, other, firstPrefix, item);
    }
    if |LastText(Extended(g, item), firstPrefix)| <= TOOL_LIST_WIDTH {
      FitsExtended(g, firstPrefix, item);
    } else {
      BrokenText(g, firstPrefix, item);
      FitsBroken(g, firstPrefix, item);
    }
  }

  lemma NoWider(g: Layout, other: Layout, firstPrefix: string, item: string)
    requires |g| == |other| && NonEmpty(g[|g| - 1]) && |LastText(g, firstPrefix)| <= |LastText(other, firstPrefix)|
    ensures |LastText(Extended(g, item), firstPrefix)| <= |LastText(Extended(other, item), firstPrefix)|
  {
    ExtendedText(g, firstPrefix, item);
    ExtendedText(other, firstPrefix, item);
    WiderThanPrefix(g, firstPrefix);
  }

  lemma LastTextHolds(layout: Layout, firstPrefix: string, item: string)
    ensures |LastText(Extended(layout, item), firstPrefix)| >= |Prefix(firstPrefix, |layout| - 1)| + |item|
    ensures layout[|layout| - 1] == [] ==>
      |LastText(Extended(layout, item), firstPrefix)| == |Prefix(firstPrefix, |layout| - 1)| + |item|
  {
    ExtendedText(layout, firstPrefix, item);
  }

  /** Greedy stays ahead of every layout that fits. */
  lemma {:induction false} GreedyStaysAhead(items: seq<string>, other: Layout, firstPrefix: string)
    requires NonEmpty(items) && LaysOut(other, items, firstPrefix)
    ensures Ahead(Greedy(items, firstPrefix), other, firstPrefix)
    decreases |items|, |other|
  {
    var k := |other| - 1;
    var line := other[k];
    if line == [] {
      if k == 0 {
        assert items == Concat(other[..0]) + [] == [];
        assert LastText(other, firstPrefix) == LineText(other, firstPrefix, 0);
      } else {
        assert Concat(other) == Concat(other[..k]) + [];
        forall j | 0 <= j < k
          ensures LineText(other[..k], firstPrefix, j) == LineText(other, firstPrefix, j)
        {
        }
        GreedyStaysAhead(items, other[..k], firstPrefix);
      }
    } else {
      var last := |items| - 1;
      var fewer: Layout := other[k := line[..|line| - 1]];
      assert line[..|line| - 1] + [line[|line| - 1]] == line;
      assert Extended(fewer, line[|line| - 1]) == other;
      ConcatExtended(fewer, line[|line| - 1]);
      assert items[..last] == Concat(fewer) && items[last] == line[|line| - 1];
      assert items[last] in items && forall x :: x in items[..last] ==> x in items;
      FitsLess(fewer, firstPrefix, items[last]);
      GreedyStaysAhead(items[..last], fewer, firstPrefix);
      PlaceStaysAhead(Greedy(items[..last], firstPrefix), fewer, firstPrefix, items[last]);
    }
  }

  /** The rendered list fits whenever any layout of its items does, and then no layout
      that fits has fewer lines. */
  lemma GreedyIsOptimal(names: seq<string>, firstPrefix: string)
    ensures var items := Items(names);
      var greedy := Greedy(items, firstPrefix);
      && Concat(greedy) == items
      && (Fits(greedy, firstPrefix) <==> exists other: Layout :: LaysOut(other, items, firstPrefix))
      && forall other: Layout :: LaysOut(other, items, firstPrefix) ==> |greedy| <= |other|
  {
    var items := Items(names);
    ItemsAreNonEmpty(names);
    GreedyKeepsItems(items, firstPrefix);
    if Fits(Greedy(items, firstPrefix), firstPrefix) {
      assert LaysOut(Greedy(items, firstPrefix), items, firstPrefix);
    }
    forall other: Layout | LaysOut(other, items, firstPrefix)
      ensures Ahead(Greedy(items, firstPrefix), other, firstPrefix)
    {
      GreedyStaysAhead(items, other, firstPrefix);
    }
  }

  predicate FitsContinuation(items: seq<string>) { forall x :: x in items ==> |CONTINUATION + x| <= 77 }

  lemma {:induction false} ShortItemsFit(items: seq<string>, firstPrefix: string)
    requires |firstPrefix| <= TOOL_LIST_WIDTH && FitsContinuation(items)
    ensures Fits(Greedy(items, firstPrefix), firstPrefix)
  {
    if items == [] {
      assert LineText([[]], firstPrefix, 0) == firstPrefix;
    } else {
      var last := |items| - 1;
      assert items[last] in items;
      ShortItemsFit(items[..last], firstPrefix);
      var greedy := Greedy(items[..last], firstPrefix);
      if |LastText(Extended(greedy, items[last]), firstPrefix)| <= TOOL_LIST_WIDTH {
        FitsExtended(greedy, firstPrefix, items[last]);
      } else {
        FitsBroken(greedy, firstPrefix, items[last]);
      }
    }
  }

  predicate OneLine(text: string, i: nat, j: nat)
    requires i <= j <= |text|
  {
    forall k :: i <= k < j ==> text[k] != '\n'
  }

  /** No line of the text, no stretch without a newline, is wider than the budget. */
  predicate Narrow(text: string) {
    forall i, j :: 0 <= i <= j <= |text| && OneLine(text, i, j) ==> j - i <= 77
  }

  lemma NarrowLines(text: string, line: string)
    requires Narrow(text) && |line| <= TOOL_LIST_WIDTH
    ensures Narrow(text + "\n" + line)
  {
    var whole := text + "\n" + line;
    assert whole[|text|] == '\n';
    forall i, j | 0 <= i <= j <= |whole| && OneLine(whole, i, j)
      ensures j - i <= TOOL_LIST_WIDTH
    {
      if j <= |text| {
        assert forall k :: i <= k < j ==> whole[k] == text[k];
        assert OneLine(text, i, j);
      }
    }
  }

  lemma {:induction false} FittingTextIsNarrow(layout: Layout, firstPrefix: string)
    requires Fits(layout, firstPrefix)
    ensures Narrow(Text(layout, firstPrefix))
    decreases |layout|
  {
    var k := |layout| - 1;
    var line := LastText(layout, firstPrefix);
    assert line == LineText(layout, firstPrefix, k);
    if k == 0 {
      assert Text(layout, firstPrefix) == line;
    } else {
      var finished: Layout := layout[..k];
      forall j | 0 <= j < k
        ensures LineText(finished, firstPrefix, j) == LineText(layout, firstPrefix, j)
      {
      }
      FittingTextIsNarrow(finished, firstPrefix);
      NarrowLines(Text(finished, firstPrefix), line);
      assert Text(layout, firstPrefix) == Text(finished, firstPrefix) + "\n" + line;
    }
  }

  /** With a prefix that fits, and names that fit a continuation line, no rendered line
      is wider than 77 columns. */
  lemma RenderedListIsNarrow(names: seq<string>, firstPrefix: string)
    requires |firstPrefix| <= 77 && FitsContinuation(Items(names))
    ensures Narrow(Text(Greedy(Items(names), firstPrefix), firstPrefix))
  {
    ShortItemsFit(Items(names), firstPrefix);
    FittingTextIsNarrow(Greedy(Items(names), firstPrefix), firstPrefix);
  }
}
