/**
 * The category tabs of the skills and tech-stack sections: `'all'` followed by
 * each distinct category of the list in first-appearance order, and the list
 * narrowed to the selected tab.
 */
module CategoryTabs {
  import opened Collections

  const AllTab: string := "all"

  /** `items.map(name)`. */
  function Names<T, N>(items: seq<T>, name: T -> N): (r: seq<N>)
    ensures |r| == |items| && forall i :: 0 <= i < |items| ==> r[i] == name(items[i])
  {
    seq(|items|, i requires 0 <= i < |items| => name(items[i]))
  }

  /** A value is among the names exactly when some item has it as its name. */
  lemma NamesMembers<T(!new), N(!new)>(items: seq<T>, name: T -> N)
    ensures forall c :: c in Names(items, name) <==> exists x :: x in items && name(x) == c
  {
    var r := Names(items, name);
    forall c ensures c in r <==> exists x :: x in items && name(x) == c {
      if c in r {
        var i :| 0 <= i < |r| && r[i] == c;
        assert items[i] in items;
      }
      if exists x :: x in items && name(x) == c {
        var x :| x in items && name(x) == c;
        var i :| 0 <= i < |items| && items[i] == x;
        assert r[i] == c;
      }
    }
  }

  /** `['all', ...Array.from(new Set(items.map(name)))]`. */
  function Tabs<T(!new)>(items: seq<T>, name: T -> string): (r: seq<string>)
    ensures |r| >= 1 && r[0] == AllTab
    ensures forall c :: c in r[1..] <==> exists x :: x in items && name(x) == c
    ensures NoDuplicates(r[1..])
  {
    NamesMembers(items, name);
    var r := [AllTab] + Dedup(Names(items, name));
    assert r[1..] == Dedup(Names(items, name));
    r
  }

  /**
   * Under a one-to-one naming, naming the distinct items in first-appearance
   * order gives the distinct names in first-appearance order.
   */
  lemma {:induction false} DedupNamesCommute<T(!new), N(!new)>(items: seq<T>, name: T -> N)
    requires forall x, y :: name(x) == name(y) ==> x == y
    ensures Dedup(Names(items, name)) == Names(Dedup(items), name)
    decreases |items|
  {
    if items != [] {
      var n := |items| - 1;
      var init, last := items[..n], items[n];
      var names := Names(items, name);
      assert names[..n] == Names(init, name);
      assert names[n] == name(last);
      DedupNamesCommute(init, name);
      assert last in init <==> name(last) in Names(init, name);
      if last !in init {
        assert Names(Dedup(init) + [last], name) == Names(Dedup(init), name) + [name(last)];
      }
    }
  }

  /** The tabs after `'all'` come in the order in which their categories first occur. */
  lemma TabsInFirstAppearanceOrder<T(!new)>(items: seq<T>, name: T -> string)
    ensures var names := Names(items, name);
      var r := Tabs(items, name);
      forall j, k :: 1 <= j < k < |r| ==> FirstIndex(names, r[j]) < FirstIndex(names, r[k])
  {
    var names := Names(items, name);
    DedupFirstAppearanceOrder(names);
    var r := Tabs(items, name);
    assert r[1..] == Dedup(names);
    forall j, k | 1 <= j < k < |r| ensures FirstIndex(names, r[j]) < FirstIndex(names, r[k]) {
      assert r[j] == Dedup(names)[j - 1] && r[k] == Dedup(names)[k - 1];
    }
  }

  /** The items shown under a tab: everything for `'all'`, the tab's category otherwise. */
  function Selected<T(!new)>(items: seq<T>, name: T -> string, tab: string): (r: seq<T>)
    ensures tab == AllTab ==> r == items
    ensures tab != AllTab ==> forall x :: x in r <==> x in items && name(x) == tab
  {
    if tab == AllTab then items else Filter(items, x => name(x) == tab)
  }

  /** A tab's items keep their order in the list. */
  lemma SelectedInOrder<T(!new)>(items: seq<T>, name: T -> string, tab: string)
    ensures IsSubsequence(Selected(items, name, tab), items)
  {
    if tab != AllTab {
      FilterIsSubsequence(items, x => name(x) == tab);
    } else {
      SubsequenceReflexive(items);
    }
  }
}
