/**
 * The slash-command palette's `List` (components/tiptap-ui/slash-dropdown-menu):
 * it turns the already filtered suggestion items into the rendered rows,
 * either flat or grouped by each item's `group` groupLabel, and marks as selected
 * the row whose ORIGINAL index is the menu's `selectedIndex`.
 */
module SlashMenu {
  import opened Wrappers

  datatype SuggestionItem = SuggestionItem(title: string, group: Option<string>)

  /** The `showGroups` option of the menu configuration; the configuration itself may be absent. */
  datatype SlashMenuConfig = SlashMenuConfig(showGroups: Option<bool>)

  /** One rendered `Item`: its index in `items`, the item (what `onSelect` receives) and `isSelected`. */
  datatype RenderedItem = RenderedItem(originalIndex: nat, item: SuggestionItem, isSelected: bool)

  /** A row of the rendered list: an inline item, a horizontal separator, or a labelled group block. */
  datatype Element =
    | Item(entry: RenderedItem)
    | Separator(groupIndex: nat)
    | LabelledGroup(groupIndex: nat, groupLabel: string, entries: seq<RenderedItem>)

  /** The per-group record the grouping pass fills: the items and their original indices. */
  datatype GroupData = GroupData(items: seq<SuggestionItem>, indices: seq<nat>)

  // ---------------------------------------------------------------------------
  // Specification
  // ---------------------------------------------------------------------------

  /** `item.group || ''`: a missing group is the unlabelled group `""`. */
  function GroupLabel(item: SuggestionItem): string
  {
    item.group.GetOr("")
  }

  /** `config?.showGroups !== false`: grouping is switched off only by an explicit `false`. */
  function ShowGroups(config: Option<SlashMenuConfig>): (r: bool)
    ensures !r <==> config == Some(SlashMenuConfig(Some(false)))
  {
    match config
    case None => true
    case Some(c) => c.showGroups != Some(false)
  }

  /** The row for item `i`: selected iff `i` is the selected index. */
  function Entry(items: seq<SuggestionItem>, i: nat, selectedIndex: int): RenderedItem
    requires i < |items|
  {
    RenderedItem(i, items[i], i == selectedIndex)
  }

  /** The flat rendering: one inline row per item, in input order. */
  function FlatList(items: seq<SuggestionItem>, selectedIndex: int): seq<Element>
  {
    seq(|items|, i requires 0 <= i < |items| => Item(Entry(items, i, selectedIndex)))
  }

  /** The group labels in the order the grouping pass creates them. */
  function GroupOrder(items: seq<SuggestionItem>): seq<string>
    decreases |items|
  {
    if items == [] then []
    else
      var n := |items| - 1;
      var rest := GroupOrder(items[..n]);
      var groupLabel := GroupLabel(items[n]);
      if groupLabel in rest then rest else rest + [groupLabel]
  }

  /** The original indices of the items labelled `groupLabel`, in input order. */
  function GroupIndices(items: seq<SuggestionItem>, groupLabel: string): (ix: seq<nat>)
    ensures forall k :: 0 <= k < |ix| ==> ix[k] < |items|
    decreases |items|
  {
    if items == [] then []
    else
      var n := |items| - 1;
      GroupIndices(items[..n], groupLabel) + (if GroupLabel(items[n]) == groupLabel then [n] else [])
  }

  /** The items at the given indices, in that order. */
  function ItemsAt(items: seq<SuggestionItem>, ix: seq<nat>): seq<SuggestionItem>
    requires forall k :: 0 <= k < |ix| ==> ix[k] < |items|
  {
    seq(|ix|, k requires 0 <= k < |ix| => items[ix[k]])
  }

  /** The rows of one group, in the group's order. */
  function GroupEntries(items: seq<SuggestionItem>, groupLabel: string, selectedIndex: int): seq<RenderedItem>
  {
    var ix := GroupIndices(items, groupLabel);
    seq(|ix|, k requires 0 <= k < |ix| => Entry(items, ix[k], selectedIndex))
  }

  /** A labelled group becomes one block; the unlabelled group's rows are spliced in inline. */
  function GroupElements(items: seq<SuggestionItem>, groupLabel: string, groupIndex: nat, selectedIndex: int): seq<Element>
  {
    var es := GroupEntries(items, groupLabel, selectedIndex);
    if groupLabel != "" then [LabelledGroup(groupIndex, groupLabel, es)]
    else seq(|es|, k requires 0 <= k < |es| => Item(es[k]))
  }

  /** The groups `groupLabels` in turn, with a separator before every group but the first. */
  function EmitGroups(items: seq<SuggestionItem>, groupLabels: seq<string>, selectedIndex: int): seq<Element>
    decreases |groupLabels|
  {
    if groupLabels == [] then []
    else
      var k := |groupLabels| - 1;
      EmitGroups(items, groupLabels[..k], selectedIndex)
        + (if k > 0 then [Separator(k)] else [])
        + GroupElements(items, groupLabels[k], k, selectedIndex)
  }

  function GroupedList(items: seq<SuggestionItem>, selectedIndex: int): seq<Element>
  {
    EmitGroups(items, GroupOrder(items), selectedIndex)
  }

  /** What `List` renders for the given props. */
  function RenderedItems(items: seq<SuggestionItem>, selectedIndex: int, config: Option<SlashMenuConfig>): seq<Element>
  {
    if ShowGroups(config) then GroupedList(items, selectedIndex) else FlatList(items, selectedIndex)
  }

  // ---------------------------------------------------------------------------
  // The component
  // ---------------------------------------------------------------------------

  /** The record of group `g` once the first `index` items have been grouped. */
  ghost function Record(items: seq<SuggestionItem>, index: nat, g: string): GroupData
    requires index <= |items|
  {
    var ix := GroupIndices(items[..index], g);
    GroupData(ItemsAt(items, ix), ix)
  }

  /** What the grouping pass has built after the first `index` items. */
  ghost predicate GroupedUpTo(items: seq<SuggestionItem>, index: nat, groups: map<string, GroupData>, order: seq<string>)
    requires index <= |items|
  {
    && order == GroupOrder(items[..index])
    && (forall g :: g in groups <==> g in order)
    && forall g :: g in groups ==> groups[g] == Record(items, index, g)
  }

  /** The grouping pass of `List`: fills `groups[label].items` and `.indices` item by item. */
  method GroupItems(items: seq<SuggestionItem>) returns (groups: map<string, GroupData>, order: seq<string>)
    ensures order == GroupOrder(items)
    ensures forall g :: g in groups <==> g in order
    ensures forall g :: g in groups ==>
              groups[g] == GroupData(ItemsAt(items, GroupIndices(items, g)), GroupIndices(items, g))
  {
    // `order` lists the keys of `groups` in the order they were created.
    groups, order := map[], [];
    var index := 0;
    while index < |items|
      invariant 0 <= index <= |items|
      invariant GroupedUpTo(items, index, groups, order)
    {
      var groupLabel := GroupLabel(items[index]);
      ghost var (groups0, order0) := (groups, order);
      if groupLabel !in groups {
        groups := groups[groupLabel := GroupData([], [])];
        order := order + [groupLabel];
      }
      groups := groups[groupLabel := GroupData(groups[groupLabel].items + [items[index]], groups[groupLabel].indices + [index])];
      GroupingPreserved(items, index, groups0, order0);
      index := index + 1;
    }
    assert items[..|items|] == items;
  }

  /** The `useMemo` body of `List`: builds `rendered` by pushing rows. */
  method RenderList(items: seq<SuggestionItem>, selectedIndex: int, config: Option<SlashMenuConfig>)
    returns (rendered: seq<Element>)
    ensures rendered == RenderedItems(items, selectedIndex, config)
  {
    if !ShowGroups(config) {
      rendered := RenderFlat(items, selectedIndex);
    } else {
      rendered := RenderGrouped(items, selectedIndex);
    }
  }

  /** The pass with grouping switched off: one inline row per item. */
  method RenderFlat(items: seq<SuggestionItem>, selectedIndex: int) returns (rendered: seq<Element>)
    ensures rendered == FlatList(items, selectedIndex)
  {
    rendered := [];
    var index := 0;
    while index < |items|
      invariant 0 <= index <= |items|
      invariant |rendered| == index
      invariant forall i :: 0 <= i < index ==> rendered[i] == Item(Entry(items, i, selectedIndex))
    {
      rendered := rendered + [Item(RenderedItem(index, items[index], index == selectedIndex))];
      index := index + 1;
    }
  }

  /** The grouped pass: the groups in creation order, a separator before each but the first. */
  method RenderGrouped(items: seq<SuggestionItem>, selectedIndex: int) returns (rendered: seq<Element>)
    ensures rendered == GroupedList(items, selectedIndex)
  {
    rendered := [];
    var groups, order := GroupItems(items);
    var groupIndex := 0;
    while groupIndex < |order|
      invariant 0 <= groupIndex <= |order|
      invariant rendered == EmitGroups(items, order[..groupIndex], selectedIndex)
    {
      var groupLabel := order[groupIndex];
      EmitGroupsSnoc(items, order, groupIndex, selectedIndex);
      if groupIndex > 0 {
        rendered := rendered + [Separator(groupIndex)];
      }
      var data := groups[groupLabel];
      var groupItems := seq(|data.items|, k requires 0 <= k < |data.items| =>
        RenderedItem(data.indices[k], data.items[k], data.indices[k] == selectedIndex));
      GroupRowsFromData(items, data, groupLabel, selectedIndex);
      if groupLabel != "" {
        rendered := rendered + [LabelledGroup(groupIndex, groupLabel, groupItems)];
      } else {
        rendered := rendered + seq(|groupItems|, k requires 0 <= k < |groupItems| => Item(groupItems[k]));
      }
      groupIndex := groupIndex + 1;
    }
    assert order[..|order|] == order;
  }

  /** The rows built from a group's record are the group's rows. */
  lemma GroupRowsFromData(items: seq<SuggestionItem>, data: GroupData, groupLabel: string, selectedIndex: int)
    requires data == GroupData(ItemsAt(items, GroupIndices(items, groupLabel)), GroupIndices(items, groupLabel))
    ensures seq(|data.items|, k requires 0 <= k < |data.items| =>
              RenderedItem(data.indices[k], data.items[k], data.indices[k] == selectedIndex))
            == GroupEntries(items, groupLabel, selectedIndex)
  {
  }

  /** Emitting one more group of `order` appends its separator, if any, and its rows. */
  lemma EmitGroupsSnoc(items: seq<SuggestionItem>, order: seq<string>, groupIndex: nat, selectedIndex: int)
    requires groupIndex < |order|
    ensures EmitGroups(items, order[..groupIndex + 1], selectedIndex)
            == EmitGroups(items, order[..groupIndex], selectedIndex)
               + (if groupIndex > 0 then [Separator(groupIndex)] else [])
               + GroupElements(items, order[groupIndex], groupIndex, selectedIndex)
  {
    assert order[..groupIndex + 1][..groupIndex] == order[..groupIndex];
  }

  /** `List`: renders nothing (`null`) when there are no rows, otherwise the card of rows. */
  method List(items: seq<SuggestionItem>, selectedIndex: int, config: Option<SlashMenuConfig>)
    returns (card: Option<seq<Element>>)
    ensures card.None? <==> |items| == 0
    ensures card.Some? ==> card.value == RenderedItems(items, selectedIndex, config)
  {
    var rendered := RenderList(items, selectedIndex, config);
    RenderedEmptyIff(items, selectedIndex, config);
    if |rendered| == 0 {
      return None;
    }
    return Some(rendered);
  }

  // ---------------------------------------------------------------------------
  // Properties
  // ---------------------------------------------------------------------------

  /** The rows a user can pick, in rendering order, including those inside group blocks. */
  function ElementEntries(e: Element): seq<RenderedItem>
  {
    match e
    case Item(r) => [r]
    case Separator(_) => []
    case LabelledGroup(_, _, es) => es
  }

  function Entries(rows: seq<Element>): seq<RenderedItem>
    decreases |rows|
  {
    if rows == [] then [] else Entries(rows[..|rows| - 1]) + ElementEntries(rows[|rows| - 1])
  }

  function Indices(es: seq<RenderedItem>): seq<int>
  {
    seq(|es|, k requires 0 <= k < |es| => es[k].originalIndex as int)
  }

  function Range(n: nat): seq<int>
  {
    seq(n, i => i)
  }

  function SeparatorCount(rows: seq<Element>): nat
    decreases |rows|
  {
    if rows == [] then 0
    else SeparatorCount(rows[..|rows| - 1]) + (if rows[|rows| - 1].Separator? then 1 else 0)
  }

  function SelectedCount(es: seq<RenderedItem>): nat
    decreases |es|
  {
    if es == [] then 0
    else SelectedCount(es[..|es| - 1]) + (if es[|es| - 1].isSelected then 1 else 0)
  }

  lemma {:induction false} EntriesAppend(a: seq<Element>, b: seq<Element>)
    ensures Entries(a + b) == Entries(a) + Entries(b)
    decreases |b|
  {
    if b == [] {
      assert a + b == a;
    } else {
      var m := |b| - 1;
      var ab := a + b;
      assert ab[..|ab| - 1] == a + b[..m];
      assert ab[|ab| - 1] == b[m];
      EntriesAppend(a, b[..m]);
      assert Entries(ab) == Entries(a + b[..m]) + ElementEntries(b[m]);
      assert Entries(b) == Entries(b[..m]) + ElementEntries(b[m]);
    }
  }

  lemma {:induction false} SeparatorCountAppend(a: seq<Element>, b: seq<Element>)
    ensures SeparatorCount(a + b) == SeparatorCount(a) + SeparatorCount(b)
    decreases |b|
  {
    if b == [] {
      assert a + b == a;
    } else {
      var m := |b| - 1;
      var ab := a + b;
      assert ab[..|ab| - 1] == a + b[..m];
      assert ab[|ab| - 1] == b[m];
      SeparatorCountAppend(a, b[..m]);
    }
  }

  lemma {:induction false} EntriesOfInlineRows(rows: seq<Element>)
    requires forall k :: 0 <= k < |rows| ==> rows[k].Item?
    ensures Entries(rows) == seq(|rows|, k requires 0 <= k < |rows| => rows[k].entry)
    ensures SeparatorCount(rows) == 0
    decreases |rows|
  {
    if rows != [] {
      EntriesOfInlineRows(rows[..|rows| - 1]);
    }
  }

  lemma GroupElementsRows(items: seq<SuggestionItem>, g: string, groupIndex: nat, selectedIndex: int)
    ensures Entries(GroupElements(items, g, groupIndex, selectedIndex)) == GroupEntries(items, g, selectedIndex)
    ensures SeparatorCount(GroupElements(items, g, groupIndex, selectedIndex)) == 0
  {
    var rows := GroupElements(items, g, groupIndex, selectedIndex);
    if g != "" {
      assert rows[..0] == [];
    } else {
      EntriesOfInlineRows(rows);
    }
  }

  /** Group `g` holds each item labelled `g` exactly once and nothing else. */
  lemma {:induction false} GroupIndicesCount(items: seq<SuggestionItem>, g: string, v: int)
    ensures multiset(GroupIndices(items, g))[v] == if 0 <= v < |items| && GroupLabel(items[v]) == g then 1 else 0
    decreases |items|
  {
    if items != [] {
      var n := |items| - 1;
      var pre := items[..n];
      var tail: seq<nat> := if GroupLabel(items[n]) == g then [n] else [];
      assert GroupIndices(items, g) == GroupIndices(pre, g) + tail;
      GroupIndicesCount(pre, g, v);
      if 0 <= v < n {
        assert pre[v] == items[v];
      }
      assert multiset(GroupIndices(items, g)) == multiset(GroupIndices(pre, g)) + multiset(tail);
    }
  }

  lemma {:induction false} RangeCount(n: nat, v: int)
    ensures multiset(Range(n))[v] == if 0 <= v < n then 1 else 0
  {
    if n > 0 {
      RangeCount(n - 1, v);
      assert Range(n) == Range(n - 1) + [n - 1];
    }
  }

  /** One more group adds its rows, and a separator unless it is the first. */
  lemma EmitStep(items: seq<SuggestionItem>, groupLabels: seq<string>, selectedIndex: int)
    requires groupLabels != []
    ensures var k := |groupLabels| - 1;
            Entries(EmitGroups(items, groupLabels, selectedIndex))
            == Entries(EmitGroups(items, groupLabels[..k], selectedIndex)) + GroupEntries(items, groupLabels[k], selectedIndex)
    ensures var k := |groupLabels| - 1;
            SeparatorCount(EmitGroups(items, groupLabels, selectedIndex))
            == SeparatorCount(EmitGroups(items, groupLabels[..k], selectedIndex)) + (if k > 0 then 1 else 0)
  {
    var k := |groupLabels| - 1;
    var sep: seq<Element> := if k > 0 then [Separator(k)] else [];
    var rows := EmitGroups(items, groupLabels[..k], selectedIndex);
    var block := GroupElements(items, groupLabels[k], k, selectedIndex);
    assert EmitGroups(items, groupLabels, selectedIndex) == rows + sep + block;
    GroupElementsRows(items, groupLabels[k], k, selectedIndex);
    EmitStepEntries(rows, sep, block);
    EmitStepSeparators(rows, sep, block);
  }

  lemma EmitStepEntries(rows: seq<Element>, sep: seq<Element>, block: seq<Element>)
    requires sep == [] || (|sep| == 1 && sep[0].Separator?)
    ensures Entries(rows + sep + block) == Entries(rows) + Entries(block)
  {
    EntriesAppend(rows + sep, block);
    EntriesAppend(rows, sep);
    if sep != [] {
      assert sep[..0] == [];
      assert Entries(sep) == Entries(sep[..0]) + ElementEntries(sep[0]);
    }
    assert Entries(sep) == [];
  }

  lemma EmitStepSeparators(rows: seq<Element>, sep: seq<Element>, block: seq<Element>)
    requires sep == [] || (|sep| == 1 && sep[0].Separator?)
    ensures SeparatorCount(rows + sep + block) == SeparatorCount(rows) + |sep| + SeparatorCount(block)
  {
    SeparatorCountAppend(rows + sep, block);
    SeparatorCountAppend(rows, sep);
    assert sep != [] ==> sep[..0] == [];
  }

  lemma IndicesAppend(a: seq<RenderedItem>, b: seq<RenderedItem>)
    ensures Indices(a + b) == Indices(a) + Indices(b)
  {
  }

  lemma IndicesOfGroup(items: seq<SuggestionItem>, g: string, selectedIndex: int)
    ensures Indices(GroupEntries(items, g, selectedIndex)) == GroupIndices(items, g)
  {
  }

  lemma {:induction false} EmitCount(items: seq<SuggestionItem>, groupLabels: seq<string>, selectedIndex: int, v: int)
    requires forall a, b :: 0 <= a < b < |groupLabels| ==> groupLabels[a] != groupLabels[b]
    ensures multiset(Indices(Entries(EmitGroups(items, groupLabels, selectedIndex))))[v]
            == if 0 <= v < |items| && GroupLabel(items[v]) in groupLabels then 1 else 0
    decreases |groupLabels|
  {
    if groupLabels != [] {
      var k := |groupLabels| - 1;
      var pre := groupLabels[..k];
      var g := groupLabels[k];
      assert groupLabels == pre + [g];
      assert g !in pre;
      EmitCount(items, pre, selectedIndex, v);
      EmitStep(items, groupLabels, selectedIndex);
      var before := Entries(EmitGroups(items, pre, selectedIndex));
      var es := GroupEntries(items, g, selectedIndex);
      IndicesAppend(before, es);
      IndicesOfGroup(items, g, selectedIndex);
      GroupIndicesCount(items, g, v);
      assert multiset(Indices(before + es)) == multiset(Indices(before)) + multiset(GroupIndices(items, g));
    }
  }

  lemma {:induction false} EmitSeparators(items: seq<SuggestionItem>, groupLabels: seq<string>, selectedIndex: int)
    ensures SeparatorCount(EmitGroups(items, groupLabels, selectedIndex)) == if groupLabels == [] then 0 else |groupLabels| - 1
    decreases |groupLabels|
  {
    if groupLabels != [] {
      EmitSeparators(items, groupLabels[..|groupLabels| - 1], selectedIndex);
      EmitStep(items, groupLabels, selectedIndex);
    }
  }

  lemma {:induction false} EmitEntriesWellFormed(items: seq<SuggestionItem>, groupLabels: seq<string>, selectedIndex: int)
    ensures forall e :: e in Entries(EmitGroups(items, groupLabels, selectedIndex)) ==>
              e.originalIndex < |items| && e == Entry(items, e.originalIndex, selectedIndex)
    decreases |groupLabels|
  {
    if groupLabels != [] {
      EmitEntriesWellFormed(items, groupLabels[..|groupLabels| - 1], selectedIndex);
      EmitStep(items, groupLabels, selectedIndex);
    }
  }

  /** Flat mode: one row per item, in input order, item `i` selected iff `i == selectedIndex`. */
  lemma FlatListInOrder(items: seq<SuggestionItem>, selectedIndex: int)
    ensures |Entries(FlatList(items, selectedIndex))| == |items|
    ensures forall i :: 0 <= i < |items| ==>
              var e := Entries(FlatList(items, selectedIndex))[i];
              e.originalIndex == i && e.item == items[i] && (e.isSelected <==> i == selectedIndex)
    ensures SeparatorCount(FlatList(items, selectedIndex)) == 0
  {
    EntriesOfInlineRows(FlatList(items, selectedIndex));
  }

  /**
   * In either mode every input item is rendered exactly once (the original
   * indices of the rows are a permutation of 0 .. |items|-1), and every row
   * carries its own item and is selected iff its original index is the
   * selected index.
   */
  lemma RowsArePermutationOfItems(items: seq<SuggestionItem>, selectedIndex: int, config: Option<SlashMenuConfig>)
    ensures multiset(Indices(Entries(RenderedItems(items, selectedIndex, config)))) == multiset(Range(|items|))
    ensures forall e :: e in Entries(RenderedItems(items, selectedIndex, config)) ==>
              e.originalIndex < |items| && e.item == items[e.originalIndex]
              && (e.isSelected <==> e.originalIndex == selectedIndex)
  {
    var es := Entries(RenderedItems(items, selectedIndex, config));
    if ShowGroups(config) {
      GroupOrderLabels(items);
      forall v: int ensures multiset(Indices(es))[v] == multiset(Range(|items|))[v] {
        EmitCount(items, GroupOrder(items), selectedIndex, v);
        RangeCount(|items|, v);
      }
      EmitEntriesWellFormed(items, GroupOrder(items), selectedIndex);
    } else {
      EntriesOfInlineRows(FlatList(items, selectedIndex));
      assert Indices(es) == Range(|items|);
    }
  }

  lemma {:induction false} SelectedCountIsMultiplicity(es: seq<RenderedItem>, selectedIndex: int)
    requires forall e :: e in es ==> (e.isSelected <==> e.originalIndex == selectedIndex)
    ensures SelectedCount(es) == multiset(Indices(es))[selectedIndex]
    decreases |es|
  {
    if es != [] {
      var m := |es| - 1;
      SelectedCountIsMultiplicity(es[..m], selectedIndex);
      assert Indices(es) == Indices(es[..m]) + [es[m].originalIndex];
    }
  }

  /** At most one row is selected, and exactly one iff the selected index is an index of `items`. */
  lemma SelectionIsUnique(items: seq<SuggestionItem>, selectedIndex: int, config: Option<SlashMenuConfig>)
    ensures SelectedCount(Entries(RenderedItems(items, selectedIndex, config)))
            == if 0 <= selectedIndex < |items| then 1 else 0
  {
    RowsArePermutationOfItems(items, selectedIndex, config);
    SelectedCountIsMultiplicity(Entries(RenderedItems(items, selectedIndex, config)), selectedIndex);
    RangeCount(|items|, selectedIndex);
  }

  /** Grouped mode: a separator between consecutive groups, so one fewer than the groups. */
  lemma SeparatorsBetweenGroups(items: seq<SuggestionItem>, selectedIndex: int)
    ensures SeparatorCount(GroupedList(items, selectedIndex)) == if items == [] then 0 else |GroupOrder(items)| - 1
  {
    var order := GroupOrder(items);
    EmitSeparators(items, order, selectedIndex);
    assert items != [] ==> order != [];
  }

  /** One iteration of the grouping pass keeps `GroupedUpTo`. */
  lemma GroupingPreserved(items: seq<SuggestionItem>, index: nat, groups: map<string, GroupData>, order: seq<string>)
    requires index < |items| && GroupedUpTo(items, index, groups, order)
    ensures var l := GroupLabel(items[index]);
            var groups1 := if l in groups then groups else groups[l := GroupData([], [])];
            var order1 := if l in groups then order else order + [l];
            GroupedUpTo(items, index + 1,
                        groups1[l := GroupData(groups1[l].items + [items[index]], groups1[l].indices + [index])],
                        order1)
  {
    var l := GroupLabel(items[index]);
    var groups1 := if l in groups then groups else groups[l := GroupData([], [])];
    var order1 := if l in groups then order else order + [l];
    var groups2 := groups1[l := GroupData(groups1[l].items + [items[index]], groups1[l].indices + [index])];
    GroupOrderStep(items, index);
    if l !in groups {
      GroupOrderLabels(items[..index]);
      AbsentLabelHasNoIndices(items[..index], l);
      assert Record(items, index, l) == GroupData([], []);
    }
    forall g | g in groups2
      ensures groups2[g] == Record(items, index + 1, g)
    {
      RecordStep(items, index, g);
    }
  }

  /** The record of a group after one more item: the item and its index are appended iff it carries the label. */
  lemma RecordStep(items: seq<SuggestionItem>, index: nat, g: string)
    requires index < |items|
    ensures Record(items, index + 1, g)
            == if GroupLabel(items[index]) == g
               then GroupData(Record(items, index, g).items + [items[index]], Record(items, index, g).indices + [index])
               else Record(items, index, g)
  {
    GroupIndicesStep(items, index, g);
    var ix := GroupIndices(items[..index], g);
    if GroupLabel(items[index]) == g {
      assert ItemsAt(items, ix + [index]) == ItemsAt(items, ix) + [items[index]];
    }
  }

  /** Some item before position `j` is labelled `g`. */
  ghost predicate OccursBefore(items: seq<SuggestionItem>, g: string, j: int)
  {
    exists i :: 0 <= i < j && i < |items| && GroupLabel(items[i]) == g
  }

  /** Taking one more item: the group order gains the item's label if it is new. */
  lemma GroupOrderStep(items: seq<SuggestionItem>, index: nat)
    requires index < |items|
    ensures var g := GroupLabel(items[index]);
            var o := GroupOrder(items[..index]);
            GroupOrder(items[..index + 1]) == if g in o then o else o + [g]
  {
    assert items[..index + 1][..index] == items[..index];
    assert items[..index + 1][index] == items[index];
  }

  /** Taking one more item: the indices of its group gain its index. */
  lemma GroupIndicesStep(items: seq<SuggestionItem>, index: nat, g: string)
    requires index < |items|
    ensures GroupIndices(items[..index + 1], g)
            == GroupIndices(items[..index], g) + (if GroupLabel(items[index]) == g then [index] else [])
  {
    assert items[..index + 1][..index] == items[..index];
    assert items[..index + 1][index] == items[index];
  }

  /** Each label is created once, and exactly the labels that occur are created. */
  lemma {:induction false} GroupOrderLabels(items: seq<SuggestionItem>)
    ensures forall a, b :: 0 <= a < b < |GroupOrder(items)| ==> GroupOrder(items)[a] != GroupOrder(items)[b]
    ensures forall g :: g in GroupOrder(items) <==> OccursBefore(items, g, |items|)
    decreases |items|
  {
    if items != [] {
      var n := |items| - 1;
      var pre := items[..n];
      GroupOrderLabels(pre);
      forall g ensures OccursBefore(pre, g, n) <==> OccursBefore(items, g, n) {
        if OccursBefore(pre, g, n) {
          var i :| 0 <= i < n && i < |pre| && GroupLabel(pre[i]) == g;
          assert pre[i] == items[i];
        }
        if OccursBefore(items, g, n) {
          var i :| 0 <= i < n && i < |items| && GroupLabel(items[i]) == g;
          assert pre[i] == items[i];
        }
      }
      forall g ensures OccursBefore(items, g, n + 1) <==> OccursBefore(items, g, n) || GroupLabel(items[n]) == g {
        if OccursBefore(items, g, n + 1) && GroupLabel(items[n]) != g {
          var i :| 0 <= i < n + 1 && i < |items| && GroupLabel(items[i]) == g;
          assert i < n;
        }
      }
    }
  }

  lemma {:induction false} AbsentLabelHasNoIndices(items: seq<SuggestionItem>, g: string)
    requires !OccursBefore(items, g, |items|)
    ensures GroupIndices(items, g) == []
    decreases |items|
  {
    if items != [] {
      var n := |items| - 1;
      var pre := items[..n];
      forall i | 0 <= i < n ensures GroupLabel(pre[i]) != g {
        assert pre[i] == items[i];
      }
      AbsentLabelHasNoIndices(pre, g);
    }
  }

  /** Within a group the rows keep their original relative order: indices strictly increase, all labelled `g`. */
  lemma {:induction false} GroupIndicesIncrease(items: seq<SuggestionItem>, g: string)
    ensures forall k :: 0 <= k < |GroupIndices(items, g)| ==> GroupLabel(items[GroupIndices(items, g)[k]]) == g
    ensures forall a, b :: 0 <= a < b < |GroupIndices(items, g)| ==> GroupIndices(items, g)[a] < GroupIndices(items, g)[b]
    decreases |items|
  {
    if items != [] {
      var n := |items| - 1;
      var pre := items[..n];
      GroupIndicesIncrease(pre, g);
      var ix := GroupIndices(pre, g);
      forall k | 0 <= k < |ix| ensures GroupLabel(items[ix[k]]) == g {
        assert pre[ix[k]] == items[ix[k]];
      }
    }
  }

  /** Groups come in order of first occurrence: every item of a later group has an item of each earlier group before it. */
  lemma {:induction false} GroupOrderIsFirstOccurrence(items: seq<SuggestionItem>)
    ensures forall a, b, j :: 0 <= a < b < |GroupOrder(items)| && 0 <= j < |items| && GroupLabel(items[j]) == GroupOrder(items)[b]
              ==> OccursBefore(items, GroupOrder(items)[a], j)
    decreases |items|
  {
    if items != [] {
      var n := |items| - 1;
      var pre := items[..n];
      var o := GroupOrder(pre);
      var order := GroupOrder(items);
      GroupOrderIsFirstOccurrence(pre);
      GroupOrderLabels(pre);
      assert forall k | 0 <= k < n :: pre[k] == items[k];
      forall a, b, j | 0 <= a < b < |order| && 0 <= j < |items| && GroupLabel(items[j]) == order[b]
        ensures OccursBefore(items, order[a], j)
      {
        assert order[a] == o[a];
        assert o[a] in o;
        var i' :| 0 <= i' < n && i' < |pre| && GroupLabel(pre[i']) == o[a];
        if b < |o| {
          assert order[b] == o[b];
          var j' := j;
          if j == n {
            assert o[b] in o;
            j' :| 0 <= j' < n && j' < |pre| && GroupLabel(pre[j']) == o[b];
          }
          assert pre[j'] == items[j'];
          assert OccursBefore(pre, o[a], j');
          var i :| 0 <= i < j' && i < |pre| && GroupLabel(pre[i]) == o[a];
          assert pre[i] == items[i];
        } else {
          // `order[b]` is new, so no item of `pre` carries it and `j` is the last index
          assert pre[i'] == items[i'];
        }
      }
    }
  }

  /** The unlabelled group alone holds every item, in input order. */
  lemma {:induction false} SingleGroupIndices(items: seq<SuggestionItem>, g: string)
    requires forall i :: 0 <= i < |items| ==> GroupLabel(items[i]) == g
    ensures GroupIndices(items, g) == seq(|items|, i => i)
    decreases |items|
  {
    if items != [] {
      var n := |items| - 1;
      SingleGroupIndices(items[..n], g);
    }
  }

  lemma {:induction false} UngroupedOrder(items: seq<SuggestionItem>)
    requires forall i :: 0 <= i < |items| ==> GroupLabel(items[i]) == ""
    ensures GroupOrder(items) == if items == [] then [] else [""]
    decreases |items|
  {
    if items != [] {
      UngroupedOrder(items[..|items| - 1]);
    }
  }

  /** When no item has a group, the grouped rendering is the flat one. */
  lemma UngroupedIsFlat(items: seq<SuggestionItem>, selectedIndex: int)
    requires forall i :: 0 <= i < |items| ==> GroupLabel(items[i]) == ""
    ensures GroupedList(items, selectedIndex) == FlatList(items, selectedIndex)
  {
    UngroupedOrder(items);
    if items != [] {
      SingleGroupIndices(items, "");
      assert EmitGroups(items, [""], selectedIndex) == GroupElements(items, "", 0, selectedIndex);
    }
  }

  /** `List` renders nothing exactly when there are no items. */
  lemma RenderedEmptyIff(items: seq<SuggestionItem>, selectedIndex: int, config: Option<SlashMenuConfig>)
    ensures RenderedItems(items, selectedIndex, config) == [] <==> items == []
  {
    RowsArePermutationOfItems(items, selectedIndex, config);
    RangeCount(|items|, 0);
    if items == [] {
      assert GroupOrder(items) == [];
    }
  }

  // ---------------------------------------------------------------------------
  // The grouping pass as written: `groups` is a plain object literal
  // ---------------------------------------------------------------------------

  /**
   * The members every plain object inherits from `Object.prototype`. Looking one
   * of them up on `groups` before the pass has created it yields the inherited,
   * truthy member rather than `undefined`.
   */
  const ObjectPrototypeKeys: set<string> :=
    {"constructor", "__proto__", "toString", "toLocaleString", "valueOf", "hasOwnProperty",
     "isPrototypeOf", "propertyIsEnumerable", "__defineGetter__", "__defineSetter__",
     "__lookupGetter__", "__lookupSetter__"}

  /**
   * The own keys of `groups` after the pass as the source writes it, or `None`
   * when the pass throws: for an inherited key `!groups[label]` is false, no
   * record is created, and `groups[label].items.push` is a call on `undefined`.
   */
  function GroupKeysAsWritten(items: seq<SuggestionItem>): (r: Option<seq<string>>)
    // a pass that completes has created only own keys, each once
    ensures r.Some? ==> forall k :: 0 <= k < |r.value| ==> r.value[k] !in ObjectPrototypeKeys
    ensures r.Some? ==> forall a, b :: 0 <= a < b < |r.value| ==> r.value[a] != r.value[b]
    decreases |items|
  {
    if items == [] then Some([])
    else
      var n := |items| - 1;
      match GroupKeysAsWritten(items[..n])
      case None => None
      case Some(keys) =>
        var groupLabel := GroupLabel(items[n]);
        if groupLabel in keys then Some(keys)
        else if groupLabel in ObjectPrototypeKeys then None
        else Some(keys + [groupLabel])
  }

  /** Some item carries a label that names an inherited member. */
  ghost predicate HasPrototypeLabel(items: seq<SuggestionItem>)
  {
    exists i :: 0 <= i < |items| && GroupLabel(items[i]) in ObjectPrototypeKeys
  }

  /**
   * The pass as written throws exactly when some item's label names an
   * inherited member; otherwise it creates the same groups as the corrected
   * pass (`GroupItems`), in the same order.
   */
  lemma {:induction false} AsWrittenThrowsIff(items: seq<SuggestionItem>)
    ensures GroupKeysAsWritten(items).None? <==> HasPrototypeLabel(items)
    ensures GroupKeysAsWritten(items).Some? ==> GroupKeysAsWritten(items).value == GroupOrder(items)
    decreases |items|
  {
    if items != [] {
      var n := |items| - 1;
      var pre := items[..n];
      AsWrittenThrowsIff(pre);
      GroupOrderLabels(pre);
      assert forall k | 0 <= k < n :: pre[k] == items[k];
      if HasPrototypeLabel(pre) {
        var i :| 0 <= i < |pre| && GroupLabel(pre[i]) in ObjectPrototypeKeys;
        assert GroupLabel(items[i]) in ObjectPrototypeKeys;
      } else if HasPrototypeLabel(items) {
        var i :| 0 <= i < |items| && GroupLabel(items[i]) in ObjectPrototypeKeys;
        assert i == n;
        assert GroupLabel(items[n]) !in GroupOrder(pre);
      }
    }
  }

  /** A single "constructor"-labelled command: the written pass throws, the corrected list shows it. */
  lemma ConstructorLabelThrows()
    ensures var items := [SuggestionItem("Heading 1", Some("constructor"))];
            GroupKeysAsWritten(items) == None
            && RenderedItems(items, 0, None) == [LabelledGroup(0, "constructor", [RenderedItem(0, items[0], true)])]
  {
    var items := [SuggestionItem("Heading 1", Some("constructor"))];
    assert items[..0] == [];
    assert GroupOrder(items) == ["constructor"];
    assert GroupKeysAsWritten(items[..0]) == Some([]);
    assert GroupIndices(items, "constructor") == [0];
    assert ["constructor"][..0] == [];
    assert GroupEntries(items, "constructor", 0) == [RenderedItem(0, items[0], true)];
  }
}
