/** The write operation inventory of the safety instructions, wrapped greedily. */
module ToolList {
  const TOOL_LIST_WIDTH := 77

  const CONTINUATION := "   "

  /** Lines of items; the first line opens with the caller's prefix and may have no
      item, and the others open with the continuation indent. */
  type Layout = lines: seq<seq<string>> | |lines| > 0 witness [[]]

  function JoinItems(items: seq<string>): string {
    if items == [] then ""
    else
      var last := |items| - 1;
      JoinItems(items[..last]) + (if last == 0 then "" else " ") + items[last]
  }

  function Prefix(firstPrefix: string, line: nat): string { if line == 0 then firstPrefix else CONTINUATION }

  function LineText(layout: Layout, firstPrefix: string, k: nat): string
    requires k < |layout|
  {
    Prefix(firstPrefix, k) + JoinItems(layout[k])
  }

  function LastText(layout: Layout, firstPrefix: string): string {
    LineText(layout, firstPrefix, |layout| - 1)
  }

  function Text(layout: Layout, firstPrefix: string): string {
    Before(layout, firstPrefix) + LastText(layout, firstPrefix)
  }

  /** The finished lines, each with its newline. */
  function Before(layout: Layout, firstPrefix: string): string
    decreases |layout|, 0
  {
    if |layout| == 1 then ""
    else
      var finished := layout[..|layout| - 1];
      Before(finished, firstPrefix) + LastText(finished, firstPrefix) + "\n"
  }

  function Concat(lines: seq<seq<string>>): seq<string> {
    if lines == [] then [] else Concat(lines[..|lines| - 1]) + lines[|lines| - 1]
  }

  predicate Fits(layout: Layout, firstPrefix: string) {
    forall k :: 0 <= k < |layout| ==> |LineText(layout, firstPrefix, k)| <= 77
  }

  function Extended(layout: Layout, item: string): Layout {
    layout[|layout| - 1 := layout[|layout| - 1] + [item]]
  }

  /** Put the item on the current line if it fits there, and on a new one otherwise. */
  function Place(layout: Layout, firstPrefix: string, item: string): Layout {
    if |LastText(Extended(layout, item), firstPrefix)| > TOOL_LIST_WIDTH then layout + [[item]]
    else Extended(layout, item)
  }

  function Greedy(items: seq<string>, firstPrefix: string): Layout {
    if items == [] then [[]]
    else Place(Greedy(items[..|items| - 1], firstPrefix), firstPrefix, items[|items| - 1])
  }

  /** Every name is followed by a comma, and the last one by the closing parenthesis. */
  function Items(names: seq<string>): (items: seq<string>)
    ensures |items| == |names|
  {
    seq(|names|, i requires 0 <= i < |names| => names[i] + if i == |names| - 1 then ")" else ",")
  }

  /** The builder and the current line, as the loop keeps them, hold the layout. */
  predicate Shows(layout: Layout, firstPrefix: string, b: string, line: string, lineHasItems: bool) {
    && b == Before(layout, firstPrefix) && line == LastText(layout, firstPrefix)
    && (lineHasItems <==> layout[|layout| - 1] != [])
  }

  method RenderToolList(names: seq<string>, firstPrefix: string) returns (text: string)
    ensures text == Text(Greedy(Items(names), firstPrefix), firstPrefix)
  {
    var b := "";
    var line := firstPrefix;
    var lineHasItems := false;
    for i := 0 to |names|
      invariant Shows(Greedy(Items(names)[..i], firstPrefix), firstPrefix, b, line, lineHasItems)
    {
      var item := names[i] + ",";
      if i == |names| - 1 {
        item := names[i] + ")";
      }
      GreedyStep(Items(names), firstPrefix, i);
      ghost var layout := Greedy(Items(names)[..i], firstPrefix);
      PlaceShows(layout, firstPrefix, b, line, lineHasItems, item);
      var sep := "";
      if lineHasItems {
        sep := " ";
      }
      if |line| + |sep| + |item| > TOOL_LIST_WIDTH {
        b := b + line;
        b := b + "\n";
        line, lineHasItems := "   ", false;
        sep := "";
      }
      line := line + (sep + item);
      lineHasItems := true;
    }
    assert Items(names)[..|names|] == Items(names);
    b := b + line;
    text := b;
  }

  lemma GreedyStep(items: seq<string>, firstPrefix: string, i: nat)
    requires i < |items|
    ensures Greedy(items[..i + 1], firstPrefix) == Place(Greedy(items[..i], firstPrefix), firstPrefix, items[i])
  {
    assert items[..i + 1][..i] == items[..i];
  }

  function Separator(layout: Layout): string { if layout[|layout| - 1] == [] then "" else " " }

  lemma JoinMore(line: seq<string>, item: string)
    ensures JoinItems(line + [item]) == JoinItems(line) + ((if line == [] then "" else " ") + item)
  {
    assert (line + [item])[..|line|] == line;
  }

  /** Placed on the current line, an item only makes that line longer. */
  lemma ExtendedText(layout: Layout, firstPrefix: string, item: string)
    ensures LastText(Extended(layout, item), firstPrefix) == LastText(layout, firstPrefix) + (Separator(layout) + item)
    ensures Before(Extended(layout, item), firstPrefix) == Before(layout, firstPrefix)
  {
    var k := |layout| - 1;
    JoinMore(layout[k], item);
    assert Extended(layout, item)[..k] == layout[..k];
    assert Prefix(firstPrefix, k) + (JoinItems(layout[k]) + (Separator(layout) + item))
        == Prefix(firstPrefix, k) + JoinItems(layout[k]) + (Separator(layout) + item);
  }

  /** Placed on a new line, it ends the current one. */
  lemma BrokenText(layout: Layout, firstPrefix: string, item: string)
    ensures LastText(layout + [[item]], firstPrefix) == CONTINUATION + item
    ensures Before(layout + [[item]], firstPrefix) == Before(layout, firstPrefix) + LastText(layout, firstPrefix) + "\n"
  {
    JoinMore([], item);
    assert [] + [item] == [item];
    assert (layout + [[item]])[..|layout|] == layout;
  }

  lemma PlaceShows(layout: Layout, firstPrefix: string, b: string, line: string, lineHasItems: bool, item: string)
    requires Shows(layout, firstPrefix, b, line, lineHasItems)
    ensures var sep, placed := if lineHasItems then " " else "", Place(layout, firstPrefix, item);
      if |line| + |sep| + |item| > TOOL_LIST_WIDTH
      then Shows(placed, firstPrefix, b + line + "\n", "   " + ("" + item), true)
      else Shows(placed, firstPrefix, b, line + (sep + item), true)
  {
    ExtendedText(layout, firstPrefix, item);
    BrokenText(layout, firstPrefix, item);
    assert "" + item == item;
  }
}
