/** Categories and menu items of one store, as the admin sidebar and the menu
    page handle them. Menu items name their category by its text, not by id. */
module Menu {

  datatype MenuItem = MenuItem(itemId: string, name: string, price: string, category: string)

  // ---------------------------------------------------------------------------
  // str.strip()
  // ---------------------------------------------------------------------------

  /** Python's `str.isspace`: ASCII white space, the four information
      separators, NEL, NBSP and the Unicode space separators. */
  predicate IsSpace(c: char)
  {
    || c == ' ' || '\t' <= c <= '\r' || '\U{1c}' <= c <= '\U{1f}'
    || c == '\U{85}' || c == '\U{a0}' || c == '\U{1680}'
    || '\U{2000}' <= c <= '\U{200a}' || c == '\U{2028}' || c == '\U{2029}'
    || c == '\U{202f}' || c == '\U{205f}' || c == '\U{3000}'
  }

  function TrimLeft(s: string): (r: string)
    ensures |r| <= |s| && r == s[|s| - |r|..]
    ensures forall i :: 0 <= i < |s| - |r| ==> IsSpace(s[i])
    ensures r != [] ==> !IsSpace(r[0])
  {
    if s != [] && IsSpace(s[0]) then TrimLeft(s[1..]) else s
  }

  function TrimRight(s: string): (r: string)
    ensures |r| <= |s| && r == s[..|r|]
    ensures forall i :: |r| <= i < |s| ==> IsSpace(s[i])
    ensures r != [] ==> !IsSpace(r[|r| - 1])
  {
    if s != [] && IsSpace(s[|s| - 1]) then TrimRight(s[..|s| - 1]) else s
  }

  /** `s.strip()` */
  function Strip(s: string): string
  {
    TrimRight(TrimLeft(s))
  }

  /** The stripped text is the slice of `s` left after removing white space
      from both ends: nothing but white space is cut. */
  lemma StripIsTrimmedSlice(s: string)
    ensures exists i, j :: (0 <= i <= j <= |s| && Strip(s) == s[i..j]
      && (forall k :: 0 <= k < i ==> IsSpace(s[k]))
      && (forall k :: j <= k < |s| ==> IsSpace(s[k])))
  {
    var t := TrimLeft(s);
    var i := |s| - |t|;
    var j := i + |Strip(s)|;
    assert Strip(s) == s[i..j];
    forall k | j <= k < |s|
      ensures IsSpace(s[k])
    {
      assert s[k] == t[k - i];
    }
  }

  /** What remains after stripping neither starts nor ends with white space. */
  lemma StripEnds(s: string)
    ensures Strip(s) != [] ==> !IsSpace(Strip(s)[0]) && !IsSpace(Strip(s)[|Strip(s)| - 1])
  {
  }

  /** A name is blank after stripping exactly when it is all white space. */
  lemma StripBlankIffAllSpace(s: string)
    ensures Strip(s) == [] <==> forall k :: 0 <= k < |s| ==> IsSpace(s[k])
  {
    if forall k :: 0 <= k < |s| ==> IsSpace(s[k]) {
      TrimLeftAllSpace(s);
    }
  }

  lemma {:induction false} TrimLeftAllSpace(s: string)
    requires forall k :: 0 <= k < |s| ==> IsSpace(s[k])
    ensures TrimLeft(s) == []
  {
    if s != [] {
      TrimLeftAllSpace(s[1..]);
    }
  }

  lemma {:induction false} TrimLeftNoop(s: string)
    requires s != [] ==> !IsSpace(s[0])
    ensures TrimLeft(s) == s
  {
  }

  /** Stripping twice is stripping once. */
  lemma StripIdempotent(s: string)
    ensures Strip(Strip(s)) == Strip(s)
  {
    var r := Strip(s);
    StripIsTrimmedSlice(s);
    TrimLeftNoop(r);
    assert TrimRight(r) == r;
  }

  // ---------------------------------------------------------------------------
  // Adding a category: the guard of the "add" button
  // ---------------------------------------------------------------------------

  datatype Admission = Added(name: string) | Blank | Duplicate(name: string)

  /** The category name the admin typed is stripped; it is added only when it
      is not blank and not already among the store's category names. */
  function AdmitCategory(names: set<string>, typed: string): (a: Admission)
    ensures a.Added? <==> Strip(typed) != [] && Strip(typed) !in names
    ensures a.Added? ==> a.name == Strip(typed) && a.name !in names
    ensures a.Duplicate? ==> a.name in names
    ensures a.Blank? <==> Strip(typed) == []
    ensures Strip(typed) != [] && Strip(typed) in names ==> a == Duplicate(Strip(typed))
  {
    if typed == [] || Strip(typed) == [] then Blank
    else if Strip(typed) in names then Duplicate(Strip(typed))
    else Added(Strip(typed))
  }

  /** An admitted name has no white space at either end. */
  lemma AdmittedIsStripped(names: set<string>, typed: string)
    requires AdmitCategory(names, typed).Added?
    ensures var n := AdmitCategory(names, typed).name;
      n != [] && !IsSpace(n[0]) && !IsSpace(n[|n| - 1]) && Strip(n) == n
  {
    StripEnds(typed);
    StripIdempotent(typed);
  }

  // ---------------------------------------------------------------------------
  // Items of a category, and grouping the menu by category
  // ---------------------------------------------------------------------------

  /** `[i for i in items if i.get('category') == cat]` */
  function ItemsIn(items: seq<MenuItem>, cat: string): (r: seq<MenuItem>)
    ensures |r| <= |items|
    ensures forall i :: 0 <= i < |r| ==> r[i].category == cat && r[i] in items
    ensures forall x :: x in items && x.category == cat ==> x in r
  {
    if items == [] then []
    else
      var last := items[|items| - 1];
      ItemsIn(items[..|items| - 1], cat) + (if last.category == cat then [last] else [])
  }

  /** Filtering keeps the menu's order: the items of a category in a longer
      listing are those of the first part followed by those of the second. */
  lemma {:induction false} ItemsInConcat(a: seq<MenuItem>, b: seq<MenuItem>, cat: string)
    ensures ItemsIn(a + b, cat) == ItemsIn(a, cat) + ItemsIn(b, cat)
  {
    if b == [] {
      assert a + b == a;
    } else {
      var b' := b[..|b| - 1];
      assert (a + b)[..|a + b| - 1] == a + b';
      ItemsInConcat(a, b', cat);
    }
  }

  /** Each item of the category appears as often as on the menu; no other item appears. */
  lemma {:induction false} ItemsInCounts(items: seq<MenuItem>, cat: string, x: MenuItem)
    ensures multiset(ItemsIn(items, cat))[x] == if x.category == cat then multiset(items)[x] else 0
  {
    if items != [] {
      var init := items[..|items| - 1];
      ItemsInCounts(init, cat, x);
      assert items == init + [items[|items| - 1]];
    }
  }

  /** The menu page's `category_items`: one list per category name, holding
      that category's items in menu order; items of an unknown category land
      in no list. */
  method GroupByCategory(catNames: seq<string>, items: seq<MenuItem>)
    returns (groups: map<string, seq<MenuItem>>)
    ensures groups.Keys == set c | c in catNames
    ensures forall c | c in groups :: groups[c] == ItemsIn(items, c)
    ensures forall x | x in items :: x.category in groups ==> x in groups[x.category]
    ensures forall x, c | x in items && c in groups && x in groups[c] :: x.category == c
  {
    groups := map c | c in catNames :: [];
    for i := 0 to |items|
      invariant groups.Keys == set c | c in catNames
      invariant forall c | c in groups :: groups[c] == ItemsIn(items[..i], c)
    {
      var item := items[i];
      assert items[..i + 1] == items[..i] + [item];
      assert ItemsIn([item], item.category) == [item];
      forall c | c in groups
        ensures ItemsIn(items[..i + 1], c) == ItemsIn(items[..i], c) + (if item.category == c then [item] else [])
      {
        ItemsInConcat(items[..i], [item], c);
      }
      if item.category in groups {
        groups := groups[item.category := groups[item.category] + [item]];
      }
    }
    assert items[..|items|] == items;
  }
}
