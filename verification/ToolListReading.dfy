/** Splitting the rendered tool list at white space gives the names back, in order. */
module ToolListReading {
  import opened ToolList
  import opened ToolListWrapping
  import Dispatch

  predicate IsBlank(c: char) { c == ' ' || c == '\n' }

  predicate Blanks(s: string) { forall c :: c in s ==> IsBlank(c) }

  predicate Solid(s: string) { forall i :: 0 <= i < |s| ==> !IsBlank(s[i]) }

  predicate Word(s: string) { s != "" && Solid(s) }

  function WordEnd(s: string): (n: nat)
    ensures n <= |s| && (n < |s| ==> IsBlank(s[n])) && forall i :: 0 <= i < n ==> !IsBlank(s[i])
  {
    if s == "" || IsBlank(s[0]) then 0 else 1 + WordEnd(s[1..])
  }

  /** The words between blanks. */
  function Fields(s: string): seq<string>
    decreases |s|
  {
    if s == "" then []
    else if IsBlank(s[0]) then Fields(s[1..])
    else [s[..WordEnd(s)]] + Fields(s[WordEnd(s)..])
  }

  lemma {:induction false} FieldsAppend(t: string, sep: string, word: string)
    requires Word(word) && Blanks(sep) && (t == "" || sep != "")
    ensures Fields(t + sep + word) == Fields(t) + [word]
    decreases |t|, |sep|
  {
    var s := t + sep + word;
    if t == "" && sep == "" {
      assert s == word && WordEnd(word) == |word|;
      assert word[..|word|] == word && word[|word|..] == "";
    } else if t == "" {
      assert s[0] == sep[0] && s[1..] == "" + sep[1..] + word;
      FieldsAppend("", sep[1..], word);
    } else if IsBlank(t[0]) {
      assert s[0] == t[0] && s[1..] == t[1..] + sep + word;
      FieldsAppend(t[1..], sep, word);
    } else {
      var n := WordEnd(t);
      SameWordEnd(t, sep + word);
      assert t + (sep + word) == s && s[0] == t[0];
      assert s[..n] == t[..n] && s[n..] == t[n..] + sep + word;
      FieldsAppend(t[n..], sep, word);
      assert [t[..n]] + (Fields(t[n..]) + [word]) == Fields(t) + [word];
    }
  }

  lemma SameWordEnd(t: string, rest: string)
    requires rest != "" && IsBlank(rest[0])
    ensures WordEnd(t + rest) == WordEnd(t)
  {
    var n, m := WordEnd(t), WordEnd(t + rest);
    assert IsBlank((t + rest)[n]);
    assert forall i :: 0 <= i < n ==> (t + rest)[i] == t[i];
  }

  lemma {:induction false} PrefixStaysInFront(layout: Layout, firstPrefix: string)
    ensures Text(layout, firstPrefix) == firstPrefix + Text(layout, "")
    decreases |layout|
  {
    var k := |layout| - 1;
    if k > 0 {
      PrefixStaysInFront(layout[..k], firstPrefix);
      TextOfMore(layout, firstPrefix);
      TextOfMore(layout, "");
    }
  }

  lemma TextOfMore(layout: Layout, firstPrefix: string)
    requires |layout| > 1
    ensures Text(layout, firstPrefix) ==
      Text(layout[..|layout| - 1], firstPrefix) + ("\n" + (CONTINUATION + JoinItems(layout[|layout| - 1])))
  {
  }

  predicate Words(items: seq<string>) { forall x :: x in items ==> Word(x) }

  lemma BrokenItemIsAField(layout: Layout, item: string)
    requires Word(item)
    ensures Fields(Text(layout + [[item]], "")) == Fields(Text(layout, "")) + [item]
  {
    BrokenText(layout, "", item);
    var t, sep := Text(layout, ""), "\n" + CONTINUATION;
    assert Text(layout + [[item]], "") == t + sep + item;
    FieldsAppend(t, sep, item);
  }

  lemma JoinRight(a: string, b: string, c: string, d: string)
    ensures a + (b + (c + d)) == a + b + c + d
  {
  }

  lemma ExtendedItemIsAField(layout: Layout, item: string)
    requires Word(item) && (layout[|layout| - 1] == [] ==> Text(layout, "") == "")
    ensures Fields(Text(Extended(layout, item), "")) == Fields(Text(layout, "")) + [item]
  {
    ExtendedText(layout, "", item);
    var t, sep := Text(layout, ""), Separator(layout);
    JoinRight(Before(layout, ""), LastText(layout, ""), sep, item);
    FieldsAppend(t, sep, item);
  }

  lemma PlacedItemIsAField(layout: Layout, firstPrefix: string, item: string)
    requires Word(item) && (layout[|layout| - 1] == [] ==> Text(layout, "") == "")
    ensures Fields(Text(Place(layout, firstPrefix, item), "")) == Fields(Text(layout, "")) + [item]
  {
    BrokenItemIsAField(layout, item);
    ExtendedItemIsAField(layout, item);
  }

  lemma EmptyListIsBlank(firstPrefix: string)
    ensures Text(Greedy([], firstPrefix), "") == ""
  {
    var empty: Layout := [[]];
    assert Greedy([], firstPrefix) == empty && Text(empty, "") == "";
  }

  lemma EmptyEndIsBlank(items: seq<string>, firstPrefix: string)
    ensures var g := Greedy(items, firstPrefix); g[|g| - 1] == [] ==> Text(g, "") == ""
  {
    if items == [] {
      EmptyListIsBlank(firstPrefix);
    } else {
      var last := |items| - 1;
      assert items[..last] + [items[last]] == items;
      GreedyOfMore(items[..last], items[last], firstPrefix);
    }
  }

  /** What the text reads as, the first prefix aside. */
  function WordsShown(items: seq<string>, firstPrefix: string): seq<string> {
    Fields(Text(Greedy(items, firstPrefix), ""))
  }

  lemma OneMoreShown(before: seq<string>, item: string, firstPrefix: string)
    requires Word(item)
    ensures WordsShown(before + [item], firstPrefix) == WordsShown(before, firstPrefix) + [item]
  {
    GreedyOfMore(before, item, firstPrefix);
    EmptyEndIsBlank(before, firstPrefix);
    PlacedItemIsAField(Greedy(before, firstPrefix), firstPrefix, item);
  }

  lemma {:induction false} FieldsOfGreedy(items: seq<string>, firstPrefix: string)
    requires Words(items)
    ensures WordsShown(items, firstPrefix) == items
  {
    if items == [] {
      EmptyListIsBlank(firstPrefix);
    } else {
      var last := |items| - 1;
      var before := items[..last];
      assert before + [items[last]] == items;
      assert items[last] in items && forall x :: x in before ==> x in items;
      FieldsOfGreedy(before, firstPrefix);
      OneMoreShown(before, items[last], firstPrefix);
    }
  }

  /** The item without the comma or parenthesis that closes it. */
  function NameIn(item: string): string { if item == "" then "" else item[..|item| - 1] }

  lemma ItemsHoldNames(names: seq<string>)
    requires forall name :: name in names ==> Solid(name)
    ensures Words(Items(names))
    ensures forall i :: 0 <= i < |names| ==> NameIn(Items(names)[i]) == names[i]
  {
    forall i | 0 <= i < |names|
      ensures Word(Items(names)[i]) && NameIn(Items(names)[i]) == names[i]
    {
      assert names[i] in names;
    }
  }

  /** After the prefix, the words of the text are these names, in order, each closed by
      one character. */
  predicate ReadsAs(text: string, firstPrefix: string, names: seq<string>) {
    && firstPrefix <= text
    && var items := Fields(text[|firstPrefix|..]);
      |items| == |names| && forall i :: 0 <= i < |names| ==> NameIn(items[i]) == names[i]
  }

  lemma RenderedListReadsBack(names: seq<string>, firstPrefix: string)
    requires forall name :: name in names ==> Solid(name)
    ensures ReadsAs(Text(Greedy(Items(names), firstPrefix), firstPrefix), firstPrefix, names)
  {
    ItemsHoldNames(names);
    FieldsOfGreedy(Items(names), firstPrefix);
    DropPrefix(Greedy(Items(names), firstPrefix), firstPrefix);
  }

  lemma DropPrefix(layout: Layout, firstPrefix: string)
    ensures var text := Text(layout, firstPrefix); firstPrefix <= text && text[|firstPrefix|..] == Text(layout, "")
  {
    PrefixStaysInFront(layout, firstPrefix);
  }

  /** The first `n` names as they are written: each behind its separator, and closed by a
      comma or, the last one, by a parenthesis. */
  function WrittenNames(names: seq<string>, separators: seq<string>, n: nat): string
    requires n <= |names| == |separators|
  {
    if n == 0 then ""
    else
      WrittenNames(names, separators, n - 1) +
      (separators[n - 1] + (names[n - 1] + if n == |names| then ")" else ","))
  }

  /** Names are separated by a blank, or by a line break and three blanks. */
  predicate Separates(separators: seq<string>) {
    forall i :: 0 <= i < |separators| ==> separators[i] == "\n   " || separators[i] == if i == 0 then "" else " "
  }

  lemma PlacedText(layout: Layout, firstPrefix: string, item: string) returns (separator: string)
    ensures Text(Place(layout, firstPrefix, item), firstPrefix) == Text(layout, firstPrefix) + (separator + item)
    ensures separator == "\n   " || separator == Separator(layout)
  {
    if Place(layout, firstPrefix, item) == Extended(layout, item) {
      separator := Separator(layout);
      ExtendedTextIs(layout, firstPrefix, item);
    } else {
      separator := "\n   ";
      BrokenTextIs(layout, firstPrefix, item);
    }
  }

  lemma ExtendedTextIs(layout: Layout, firstPrefix: string, item: string)
    ensures Text(Extended(layout, item), firstPrefix) == Text(layout, firstPrefix) + (Separator(layout) + item)
  {
    ExtendedText(layout, firstPrefix, item);
    Regroup(Before(layout, firstPrefix), LastText(layout, firstPrefix), Separator(layout) + item);
  }

  lemma BrokenTextIs(layout: Layout, firstPrefix: string, item: string)
    ensures Text(layout + [[item]], firstPrefix) == Text(layout, firstPrefix) + ("\n   " + item)
  {
    BrokenText(layout, firstPrefix, item);
    Regroup(Text(layout, firstPrefix), "\n", CONTINUATION + item);
    assert "\n" + (CONTINUATION + item) == "\n   " + item;
  }

  lemma Regroup(a: string, b: string, c: string)
    ensures a + b + c == a + (b + c)
  {
  }

  /** The last line of a layout of no items is empty, and no other. */
  lemma SeparatorOf(items: seq<string>, firstPrefix: string)
    ensures Separator(Greedy(items, firstPrefix)) == if items == [] then "" else " "
  {
    if items != [] {
      var last := |items| - 1;
      assert items == items[..last] + [items[last]];
      GreedyOfMore(items[..last], items[last], firstPrefix);
    }
  }

  lemma TextOfOneMore(before: seq<string>, item: string, firstPrefix: string) returns (separator: string)
    ensures Text(Greedy(before + [item], firstPrefix), firstPrefix) ==
      Text(Greedy(before, firstPrefix), firstPrefix) + (separator + item)
    ensures separator == "\n   " || separator == if before == [] then "" else " "
  {
    GreedyOfMore(before, item, firstPrefix);
    SeparatorOf(before, firstPrefix);
    separator := PlacedText(Greedy(before, firstPrefix), firstPrefix, item);
  }

  function TextOf(items: seq<string>, firstPrefix: string): string { Text(Greedy(items, firstPrefix), firstPrefix) }

  lemma {:induction false} TextUpTo(names: seq<string>, firstPrefix: string, n: nat) returns (separators: seq<string>)
    requires n <= |names|
    ensures |separators| == |names| && Separates(separators)
    ensures TextOf(Items(names)[..n], firstPrefix) == firstPrefix + WrittenNames(names, separators, n)
  {
    if n == 0 {
      separators := seq(|names|, _ => "\n   ");
      EmptyText(firstPrefix);
    } else {
      var earlier := TextUpTo(names, firstPrefix, n - 1);
      var before, item := Items(names)[..n - 1], Items(names)[n - 1];
      assert Items(names)[..n] == before + [item];
      var separator := TextOfOneMore(before, item, firstPrefix);
      separators := earlier[n - 1 := separator];
      WrittenMore(names, earlier, separator, firstPrefix, n);
    }
  }

  lemma WrittenMore(names: seq<string>, earlier: seq<string>, separator: string, firstPrefix: string, n: nat)
    requires 0 < n <= |names| == |earlier|
    ensures firstPrefix + WrittenNames(names, earlier[n - 1 := separator], n) ==
      firstPrefix + WrittenNames(names, earlier, n - 1) + (separator + Items(names)[n - 1])
  {
    SameWritten(names, earlier, earlier[n - 1 := separator], n - 1);
    Regroup(firstPrefix, WrittenNames(names, earlier, n - 1), separator + Items(names)[n - 1]);
  }

  lemma EmptyText(firstPrefix: string)
    ensures TextOf([], firstPrefix) == firstPrefix
  {
    var empty: Layout := [[]];
    assert Greedy([], firstPrefix) == empty && Before(empty, firstPrefix) == "";
    assert LastText(empty, firstPrefix) == firstPrefix + "";
  }

  lemma {:induction false} SameWritten(names: seq<string>, a: seq<string>, b: seq<string>, n: nat)
    requires n <= |names| == |a| == |b| && a[..n] == b[..n]
    ensures WrittenNames(names, a, n) == WrittenNames(names, b, n)
  {
    if n > 0 {
      assert a[..n - 1] == a[..n][..n - 1] && a[n - 1] == a[..n][n - 1];
      assert b[..n - 1] == b[..n][..n - 1] && b[n - 1] == b[..n][n - 1];
      SameWritten(names, a, b, n - 1);
    }
  }

  /** The text is the prefix and the names in order, separated by blanks or line breaks,
      with commas between and a parenthesis at the end. */
  lemma TextIsWritten(names: seq<string>, firstPrefix: string) returns (separators: seq<string>)
    ensures |separators| == |names| && Separates(separators)
    ensures Text(Greedy(Items(names), firstPrefix), firstPrefix) ==
      firstPrefix + WrittenNames(names, separators, |names|)
  {
    separators := TextUpTo(names, firstPrefix, |names|);
    assert Items(names)[..|names|] == Items(names);
  }

  const WRITE_OPERATIONS := [
    "createKubernetesResource", "patchKubernetesResource", "deleteKubernetesResource", "createProject", "moveNamespace",
    "createCustomCluster", "createImportedCluster", "createK3kCluster", "scaleClusterNodePool"]

  const RULE_PREFIX := "1. The planChange and executeChange tools (operation: "

  function AllWriteOperations(enableExec: bool): seq<string> {
    WRITE_OPERATIONS + if enableExec then ["execPod"] else []
  }

  /** A name without blanks that fits a continuation line with its closing character. */
  predicate IsPlain(name: string) {
    |name| < TOOL_LIST_WIDTH - |CONTINUATION| && Solid(name)
  }

  lemma PlainNamesRender(names: seq<string>, firstPrefix: string)
    requires |firstPrefix| <= TOOL_LIST_WIDTH && forall name :: name in names ==> IsPlain(name)
    ensures var text := Text(Greedy(Items(names), firstPrefix), firstPrefix);
      Narrow(text) && ReadsAs(text, firstPrefix, names)
  {
    PlainItemsFit(names);
    RenderedListIsNarrow(names, firstPrefix);
    RenderedListReadsBack(names, firstPrefix);
  }

  lemma PlainItemsFit(names: seq<string>)
    requires forall name :: name in names ==> IsPlain(name)
    ensures FitsContinuation(Items(names))
  {
    forall x | x in Items(names)
      ensures |CONTINUATION + x| <= TOOL_LIST_WIDTH
    {
      var i :| 0 <= i < |names| && Items(names)[i] == x;
      assert names[i] in names;
    }
  }

  /** In both configurations the first safety rule stays within 77 columns and reads as
      exactly the write operations. */
  lemma SafetyRuleNamesEveryOperation(enableExec: bool)
    ensures var names := AllWriteOperations(enableExec);
      var text := Text(Greedy(Items(names), RULE_PREFIX), RULE_PREFIX);
      Narrow(text) && ReadsAs(text, RULE_PREFIX, names)
  {
    OperationsArePlain(enableExec);
    PlainNamesRender(AllWriteOperations(enableExec), RULE_PREFIX);
  }

  lemma OperationsArePlain(enableExec: bool)
    ensures |RULE_PREFIX| <= TOOL_LIST_WIDTH
    ensures forall name :: name in AllWriteOperations(enableExec) ==> IsPlain(name)
  {
    forall name | name in AllWriteOperations(enableExec)
      ensures IsPlain(name)
    {
      if name in WRITE_OPERATIONS[..3] {
        KubernetesOperationsArePlain(name);
      } else if name in WRITE_OPERATIONS[5..8] {
        ClusterOperationsArePlain(name);
      } else {
        OtherOperationsArePlain(name);
      }
    }
  }

  lemma ClusterOperationsArePlain(name: string)
    requires name in ["createCustomCluster", "createImportedCluster", "createK3kCluster"]
    ensures IsPlain(name)
  {
  }

  lemma KubernetesOperationsArePlain(name: string)
    requires name in ["createKubernetesResource", "patchKubernetesResource", "deleteKubernetesResource"]
    ensures IsPlain(name)
  {
  }

  lemma OtherOperationsArePlain(name: string)
    requires name in ["createProject", "moveNamespace", "scaleClusterNodePool", "execPod"]
    ensures IsPlain(name)
  {
  }

  /** The names are those that the tables of changes know. */
  lemma InventoryIsTheTable(name: string)
    ensures name in AllWriteOperations(true) <==> name in Dispatch.CHANGE_CASES
    ensures name in AllWriteOperations(false) <==> name in Dispatch.CHANGE_CASES && name != "execPod"
  {
  }
}
