/**
 * The list-presentation pipeline shared by the contribution list, the publication
 * list and the contributions page: group entries by their `type` field, choose and
 * order the categories to show, and cut each category to a prefix in highlight mode.
 *
 * Categories are strings (the source's `Record<string, ...>` keys), and each entry's
 * category is read through a `kind` function.
 */
module Listing {
  import opened Wrappers
  import opened Display

  ghost predicate Distinct<X>(s: seq<X>) {
    forall i, j :: 0 <= i < j < |s| ==> s[i] != s[j]
  }

  // ---------------------------------------------------------------------------
  // Grouping by category
  // ---------------------------------------------------------------------------

  /** The entries of category `k`, in input order. */
  function Filter<T>(xs: seq<T>, kind: T -> string, k: string): (r: seq<T>)
    ensures |r| <= |xs|
  {
    if xs == [] then []
    else
      var init, last := xs[..|xs| - 1], xs[|xs| - 1];
      Filter(init, kind, k) + (if kind(last) == k then [last] else [])
  }

  /**
   * The categories of `xs` in first-seen order: the order in which a JavaScript
   * object acquires its (non-numeric) keys while the entries are pushed.
   */
  function Kinds<T>(xs: seq<T>, kind: T -> string): (r: seq<string>)
    ensures |r| <= |xs|
  {
    if xs == [] then []
    else
      var ks, k := Kinds(xs[..|xs| - 1], kind), kind(xs[|xs| - 1]);
      if k in ks then ks else ks + [k]
  }

  /** Each category is a key of the grouping at most once. */
  lemma {:induction false} KindsDistinct<T>(xs: seq<T>, kind: T -> string)
    ensures Distinct(Kinds(xs, kind))
  {
    if xs != [] {
      KindsDistinct(xs[..|xs| - 1], kind);
    }
  }

  lemma KindsSnoc<T>(xs: seq<T>, x: T, kind: T -> string)
    ensures Kinds(xs + [x], kind)
         == if kind(x) in Kinds(xs, kind) then Kinds(xs, kind) else Kinds(xs, kind) + [kind(x)]
  {
    assert (xs + [x])[..|xs|] == xs;
  }

  /** The grouping `acc` built by the source's reduce: category to its entries. */
  function Grouped<T>(xs: seq<T>, kind: T -> string): map<string, seq<T>> {
    map k | k in Kinds(xs, kind) :: Filter(xs, kind, k)
  }

  /** The groups of `ks`, concatenated in the order of `ks`. */
  function ConcatGroups<T>(xs: seq<T>, kind: T -> string, ks: seq<string>): seq<T> {
    if ks == [] then [] else Filter(xs, kind, ks[0]) + ConcatGroups(xs, kind, ks[1..])
  }

  lemma {:induction false} FilterSnoc<T>(xs: seq<T>, x: T, kind: T -> string, k: string)
    ensures Filter(xs + [x], kind, k) == Filter(xs, kind, k) + (if kind(x) == k then [x] else [])
  {
    assert (xs + [x])[..|xs|] == xs;
  }

  /** A category is a key of the grouping exactly when some entry has it. */
  lemma {:induction false} KindsPresent<T>(xs: seq<T>, kind: T -> string, k: string)
    ensures k in Kinds(xs, kind) <==> Filter(xs, kind, k) != []
  {
    if xs != [] {
      var init, last := xs[..|xs| - 1], xs[|xs| - 1];
      KindsPresent(init, kind, k);
      assert xs == init + [last];
      FilterSnoc(init, last, kind, k);
    }
  }

  /** Every entry's own category is a key of the grouping. */
  lemma {:induction false} KindOfEntryPresent<T>(xs: seq<T>, kind: T -> string, i: nat)
    requires i < |xs|
    ensures kind(xs[i]) in Kinds(xs, kind)
    ensures xs[i] in Filter(xs, kind, kind(xs[i]))
  {
    FilterCount(xs, kind, kind(xs[i]), xs[i]);
    assert xs[i] in multiset(xs);
    KindsPresent(xs, kind, kind(xs[i]));
  }

  /**
   * Each entry lands in the group of its own category as often as it occurs in the
   * input, and in no other group.
   */
  lemma {:induction false} FilterCount<T>(xs: seq<T>, kind: T -> string, k: string, x: T)
    ensures multiset(Filter(xs, kind, k))[x] == if kind(x) == k then multiset(xs)[x] else 0
  {
    if xs != [] {
      var init, last := xs[..|xs| - 1], xs[|xs| - 1];
      FilterCount(init, kind, k, x);
      assert xs == init + [last];
      FilterSnoc(init, last, kind, k);
    }
  }

  /** Grouping is stable: the entries of a group keep the relative order of the input. */
  lemma {:induction false} FilterAppend<T>(a: seq<T>, b: seq<T>, kind: T -> string, k: string)
    ensures Filter(a + b, kind, k) == Filter(a, kind, k) + Filter(b, kind, k)
  {
    if b != [] {
      var init, last := b[..|b| - 1], b[|b| - 1];
      var tail := if kind(last) == k then [last] else [];
      FilterAppend(a, init, kind, k);
      assert b == init + [last];
      assert a + b == (a + init) + [last];
      FilterSnoc(a + init, last, kind, k);
      FilterSnoc(init, last, kind, k);
      calc {
        Filter(a + b, kind, k);
        Filter(a + init, kind, k) + tail;
        Filter(a, kind, k) + Filter(init, kind, k) + tail;
        Filter(a, kind, k) + (Filter(init, kind, k) + tail);
        Filter(a, kind, k) + Filter(b, kind, k);
      }
    } else {
      assert a + b == a;
    }
  }

  /** Within distinct keys, an entry occurs in the concatenated groups as often as in its own group. */
  lemma {:induction false} ConcatGroupsCount<T>(xs: seq<T>, kind: T -> string, ks: seq<string>, y: T)
    requires Distinct(ks)
    ensures multiset(ConcatGroups(xs, kind, ks))[y] == if kind(y) in ks then multiset(xs)[y] else 0
  {
    if ks != [] {
      assert Distinct(ks[1..]);
      ConcatGroupsCount(xs, kind, ks[1..], y);
      FilterCount(xs, kind, ks[0], y);
      assert kind(y) == ks[0] ==> kind(y) !in ks[1..];
      assert (kind(y) in ks) == (kind(y) == ks[0] || kind(y) in ks[1..]);
    }
  }

  /**
   * Grouping is a partition: the groups, taken in key order, hold exactly the input
   * entries, none dropped and none duplicated.
   */
  lemma GroupsPartition<T>(xs: seq<T>, kind: T -> string)
    ensures multiset(ConcatGroups(xs, kind, Kinds(xs, kind))) == multiset(xs)
  {
    var ks := Kinds(xs, kind);
    KindsDistinct(xs, kind);
    var grouped, input := multiset(ConcatGroups(xs, kind, ks)), multiset(xs);
    forall y: T
      ensures grouped[y] == input[y]
    {
      ConcatGroupsCount(xs, kind, ks, y);
      if y in xs {
        var i :| 0 <= i < |xs| && xs[i] == y;
        KindOfEntryPresent(xs, kind, i);
      }
    }
    SameCounts(ConcatGroups(xs, kind, ks), xs);
  }

  lemma SameCounts<T>(a: seq<T>, b: seq<T>)
    requires forall y :: multiset(a)[y] == multiset(b)[y]
    ensures multiset(a) == multiset(b)
  {
  }

  /** No key of the grouping holds an empty group. */
  lemma GroupsNonEmpty<T>(xs: seq<T>, kind: T -> string, k: string)
    requires k in Grouped(xs, kind)
    ensures Grouped(xs, kind)[k] != []
  {
    KindsPresent(xs, kind, k);
  }

  /** Pushing one more entry extends the group of its category, creating it if absent. */
  lemma GroupedSnoc<T>(xs: seq<T>, x: T, kind: T -> string)
    ensures var g, t := Grouped(xs, kind), kind(x);
            Grouped(xs + [x], kind) == g[t := (if t in g then g[t] else []) + [x]]
  {
    var g, t := Grouped(xs, kind), kind(x);
    var g1 := Grouped(xs + [x], kind);
    var h := g[t := (if t in g then g[t] else []) + [x]];
    KindsSnoc(xs, x, kind);
    assert g1.Keys == h.Keys;
    forall k | k in g1
      ensures g1[k] == h[k]
    {
      FilterSnoc(xs, x, kind, k);
      if k == t && t !in g {
        KindsPresent(xs, kind, t);
      }
    }
  }

  /** One step of the reduce: the grouping and the key order of one more entry. */
  lemma PushStep<T>(xs: seq<T>, kind: T -> string, i: int)
    requires 0 <= i < |xs|
    ensures var g, t := Grouped(xs[..i], kind), kind(xs[i]);
            Grouped(xs[..i + 1], kind) == g[t := (if t in g then g[t] else []) + [xs[i]]]
    ensures var ks, t := Kinds(xs[..i], kind), kind(xs[i]);
            Kinds(xs[..i + 1], kind) == if t in ks then ks else ks + [t]
  {
    assert xs[..i + 1] == xs[..i] + [xs[i]];
    GroupedSnoc(xs[..i], xs[i], kind);
    KindsSnoc(xs[..i], xs[i], kind);
  }

  /**
   * The source's `reduce`: for each entry, create `acc[type] = []` if the key is
   * missing, then push the entry. `keys` is the key order of `acc`.
   */
  method GroupByType<T>(xs: seq<T>, kind: T -> string) returns (groups: map<string, seq<T>>, keys: seq<string>)
    ensures keys == Kinds(xs, kind)
    ensures groups == Grouped(xs, kind)
  {
    groups, keys := map[], [];
    var i := 0;
    while i < |xs|
      invariant 0 <= i <= |xs|
      invariant keys == Kinds(xs[..i], kind)
      invariant groups == Grouped(xs[..i], kind)
    {
      var entry := xs[i];
      var t := kind(entry);
      PushStep(xs, kind, i);
      if t !in groups {
        groups := groups[t := []];
        keys := keys + [t];
        groups := groups[t := groups[t] + [entry]];
        assert groups == Grouped(xs[..i + 1], kind);
      } else {
        groups := groups[t := groups[t] + [entry]];
      }
      i := i + 1;
    }
    assert xs[..|xs|] == xs;
  }

  // ---------------------------------------------------------------------------
  // Prefixes and per-category caps
  // ---------------------------------------------------------------------------

  /** `s.slice(0, n)`: the first `n` elements, or all of them when there are fewer. */
  function Take<T>(s: seq<T>, n: nat): (r: seq<T>)
    ensures r <= s
    ensures |r| == Min(n, |s|)
  {
    if n <= |s| then s[..n] else s
  }

  /** `getDisplayItems`: a capped prefix in highlight mode, everything in full mode. */
  function ShowItems<T>(mode: Mode, cap: nat, items: seq<T>): (r: seq<T>)
    ensures r <= items
    ensures mode == Full ==> r == items
    ensures mode == Highlight ==> |r| == Min(cap, |items|)
  {
    if mode == Highlight then Take(items, cap) else items
  }

  /** One rendered category: its whole group, what is shown, and the "And N more" line. */
  datatype Panel<T> = Panel(kind: string, group: seq<T>, shown: seq<T>, remaining: int, showMore: bool)

  function MakePanel<T>(mode: Mode, cap: nat, k: string, group: seq<T>): (p: Panel<T>)
    ensures p.kind == k && p.group == group
    ensures p.shown <= group
    ensures p.remaining >= 0 && |p.shown| + p.remaining == |group|
    ensures mode == Full ==> p.shown == group && p.remaining == 0
    ensures mode == Highlight ==> |p.shown| == Min(cap, |group|)
    ensures p.showMore <==> mode == Highlight && p.remaining > 0
  {
    var shown := ShowItems(mode, cap, group);
    var remaining := |group| - |shown|;
    Panel(k, group, shown, remaining, mode == Highlight && remaining > 0)
  }

  // ---------------------------------------------------------------------------
  // Choosing and ordering the categories
  // ---------------------------------------------------------------------------

  /** `Array.prototype.indexOf`: the first position of `x` in `s`, or -1. */
  function IndexOf(s: seq<string>, x: string): (r: int)
    ensures -1 <= r < |s|
    ensures r == -1 <==> x !in s
    ensures 0 <= r ==> s[r] == x && x !in s[..r]
  {
    if s == [] then -1
    else if s[0] == x then 0
    else
      var i := IndexOf(s[1..], x);
      if i == -1 then -1
      else
        assert s[..i + 1] == [s[0]] + s[1..][..i];
        i + 1
  }

  /**
   * Highlight mode: the priority list, filtered down to the categories that are
   * present and not hidden.
   */
  function HighlightTypes(order: seq<string>, hidden: set<string>, present: seq<string>): (r: seq<string>)
    ensures |r| <= |order|
  {
    if order == [] then []
    else
      (if order[0] !in hidden && order[0] in present then [order[0]] else [])
      + HighlightTypes(order[1..], hidden, present)
  }

  /** A category is highlighted exactly when it is listed, not hidden, and present. */
  lemma {:induction false} HighlightTypesMember(order: seq<string>, hidden: set<string>, present: seq<string>, t: string)
    ensures t in HighlightTypes(order, hidden, present) <==> t in order && t !in hidden && t in present
  {
    if order != [] {
      HighlightTypesMember(order[1..], hidden, present, t);
      assert order == [order[0]] + order[1..];
    }
  }

  lemma DistinctTail<X>(s: seq<X>)
    requires Distinct(s) && s != []
    ensures Distinct(s[1..]) && s[0] !in s[1..]
  {
  }

  lemma IndexOfTail(s: seq<string>, y: string)
    requires s != [] && y in s[1..] && y != s[0]
    ensures IndexOf(s, y) == 1 + IndexOf(s[1..], y)
  {
  }

  /** Highlight categories keep the order of the priority list. */
  lemma {:induction false} HighlightTypesInOrder(order: seq<string>, hidden: set<string>, present: seq<string>, i: int, j: int)
    requires Distinct(order)
    requires 0 <= i < j < |HighlightTypes(order, hidden, present)|
    ensures var r := HighlightTypes(order, hidden, present);
            0 <= IndexOf(order, r[i]) < IndexOf(order, r[j])
    decreases |order|, 2
  {
    if order[0] !in hidden && order[0] in present {
      InOrderHeadKept(order, hidden, present, i, j);
    } else {
      var r, rest := HighlightTypes(order, hidden, present), HighlightTypes(order[1..], hidden, present);
      assert r == rest;
      DistinctTail(order);
      HighlightTypesInOrder(order[1..], hidden, present, i, j);
      RankInTail(order, hidden, present, i);
      RankInTail(order, hidden, present, j);
    }
  }

  /** The case of `HighlightTypesInOrder` where the first listed category is highlighted. */
  lemma {:induction false} InOrderHeadKept(order: seq<string>, hidden: set<string>, present: seq<string>, i: int, j: int)
    requires Distinct(order) && order != [] && order[0] !in hidden && order[0] in present
    requires 0 <= i < j < |HighlightTypes(order, hidden, present)|
    ensures var r := HighlightTypes(order, hidden, present);
            0 <= IndexOf(order, r[i]) < IndexOf(order, r[j])
    decreases |order|, 1
  {
    if i > 0 {
      InOrderBothInTail(order, hidden, present, i, j);
    } else {
      InOrderFromHead(order, hidden, present, j);
    }
  }

  /** The first highlighted category is the first listed one, ahead of every later one. */
  lemma InOrderFromHead(order: seq<string>, hidden: set<string>, present: seq<string>, j: int)
    requires Distinct(order) && order != [] && order[0] !in hidden && order[0] in present
    requires 0 < j < |HighlightTypes(order, hidden, present)|
    ensures var r := HighlightTypes(order, hidden, present);
            0 == IndexOf(order, r[0]) < IndexOf(order, r[j])
  {
    var r, rest := HighlightTypes(order, hidden, present), HighlightTypes(order[1..], hidden, present);
    assert r == [order[0]] + rest;
    assert r[0] == order[0] && r[j] == rest[j - 1];
    RankInTail(order, hidden, present, j - 1);
  }

  /** Two highlighted categories past the first keep their order from the tail. */
  lemma {:induction false} InOrderBothInTail(order: seq<string>, hidden: set<string>, present: seq<string>, i: int, j: int)
    requires Distinct(order) && order != [] && order[0] !in hidden && order[0] in present
    requires 0 < i < j < |HighlightTypes(order, hidden, present)|
    ensures var r := HighlightTypes(order, hidden, present);
            0 <= IndexOf(order, r[i]) < IndexOf(order, r[j])
    decreases |order|, 0
  {
    var r, rest := HighlightTypes(order, hidden, present), HighlightTypes(order[1..], hidden, present);
    assert r == [order[0]] + rest;
    assert r[i] == rest[i - 1] && r[j] == rest[j - 1];
    DistinctTail(order);
    HighlightTypesInOrder(order[1..], hidden, present, i - 1, j - 1);
    RankInTail(order, hidden, present, i - 1);
    RankInTail(order, hidden, present, j - 1);
  }

  /** An entry of the tail's highlight list sits one place later in the full priority list. */
  lemma RankInTail(order: seq<string>, hidden: set<string>, present: seq<string>, k: int)
    requires Distinct(order) && order != []
    requires 0 <= k < |HighlightTypes(order[1..], hidden, present)|
    ensures IndexOf(order, HighlightTypes(order[1..], hidden, present)[k])
            == 1 + IndexOf(order[1..], HighlightTypes(order[1..], hidden, present)[k]) >= 1
  {
    var y := HighlightTypes(order[1..], hidden, present)[k];
    assert y in HighlightTypes(order[1..], hidden, present);
    HighlightTypesMember(order[1..], hidden, present, y);
    DistinctTail(order);
    IndexOfTail(order, y);
  }

  /**
   * `localeCompare`, taken as plain lexicographic order on characters:
   * negative, zero or positive.
   */
  function LexCompare(a: string, b: string): (r: int)
    ensures -1 <= r <= 1
    ensures r == 0 <==> a == b
  {
    if a == [] && b == [] then 0
    else if a == [] then -1
    else if b == [] then 1
    else if a[0] < b[0] then -1
    else if a[0] > b[0] then 1
    else
      assert a == [a[0]] + a[1..] && b == [b[0]] + b[1..];
      LexCompare(a[1..], b[1..])
  }

  lemma {:induction false} LexAntisymmetric(a: string, b: string)
    ensures LexCompare(b, a) == -LexCompare(a, b)
  {
    if a != [] && b != [] && a[0] == b[0] {
      LexAntisymmetric(a[1..], b[1..]);
    }
  }

  lemma {:induction false} LexTransitive(a: string, b: string, c: string)
    requires LexCompare(a, b) < 0 && LexCompare(b, c) < 0
    ensures LexCompare(a, c) < 0
  {
    if a != [] && b != [] && c != [] && a[0] == b[0] && b[0] == c[0] {
      LexTransitive(a[1..], b[1..], c[1..]);
    }
  }

  /** The full-mode comparator of the source, with `order` as its `typeOrder`. */
  function Compare(order: seq<string>, a: string, b: string): int {
    var ai, bi := IndexOf(order, a), IndexOf(order, b);
    if ai == -1 && bi == -1 then LexCompare(a, b)
    else if ai == -1 then 1
    else if bi == -1 then -1
    else ai - bi
  }

  /** `a` sorts strictly before `b`. */
  predicate Before(order: seq<string>, a: string, b: string) {
    Compare(order, a, b) < 0
  }

  /** The comparator is a strict total order on strings. */
  lemma CompareStrictTotal(order: seq<string>, a: string, b: string)
    ensures Compare(order, a, b) == 0 <==> a == b
    ensures Before(order, a, b) <==> Compare(order, b, a) > 0
  {
    LexAntisymmetric(a, b);
    var ai, bi := IndexOf(order, a), IndexOf(order, b);
    if ai >= 0 && bi >= 0 && ai == bi {
      assert a == order[ai] == b;
    }
  }

  lemma BeforeTransitive(order: seq<string>, a: string, b: string, c: string)
    requires Before(order, a, b) && Before(order, b, c)
    ensures Before(order, a, c)
  {
    if IndexOf(order, a) == -1 && IndexOf(order, b) == -1 && IndexOf(order, c) == -1 {
      LexTransitive(a, b, c);
    }
  }

  ghost predicate StrictlySorted(order: seq<string>, s: seq<string>) {
    forall i, j :: 0 <= i < j < |s| ==> Before(order, s[i], s[j])
  }

  function Insert(order: seq<string>, k: string, s: seq<string>): seq<string> {
    if s == [] then [k]
    else if Before(order, k, s[0]) then [k] + s
    else [s[0]] + Insert(order, k, s[1..])
  }

  /** `Object.keys(acc).sort(compare)`, computed by insertion. */
  function SortKeys(order: seq<string>, keys: seq<string>): seq<string> {
    if keys == [] then [] else Insert(order, keys[0], SortKeys(order, keys[1..]))
  }

  lemma {:induction false} InsertPermutes(order: seq<string>, k: string, s: seq<string>)
    ensures multiset(Insert(order, k, s)) == multiset(s) + multiset{k}
  {
    if s != [] {
      assert s == [s[0]] + s[1..];
      if !Before(order, k, s[0]) {
        InsertPermutes(order, k, s[1..]);
      }
    }
  }

  lemma {:induction false} InsertMember(order: seq<string>, k: string, s: seq<string>, x: string)
    ensures x in Insert(order, k, s) <==> x == k || x in s
  {
    if s != [] {
      assert s == [s[0]] + s[1..];
      if !Before(order, k, s[0]) {
        InsertMember(order, k, s[1..], x);
      }
    }
  }

  /** Inserting keeps the list strictly sorted. */
  lemma {:induction false} InsertSorted(order: seq<string>, k: string, s: seq<string>)
    requires StrictlySorted(order, s) && k !in s
    ensures StrictlySorted(order, Insert(order, k, s))
  {
    if s != [] {
      if Before(order, k, s[0]) {
        InsertAtHead(order, k, s);
      } else {
        SortedParts(order, s, k);
        InsertSorted(order, k, s[1..]);
        InsertBehindHead(order, k, s);
      }
    }
  }

  lemma InsertAtHead(order: seq<string>, k: string, s: seq<string>)
    requires StrictlySorted(order, s) && s != [] && Before(order, k, s[0])
    ensures StrictlySorted(order, [k] + s)
  {
    forall j | 0 < j < |s| ensures Before(order, k, s[j]) {
      BeforeTransitive(order, k, s[0], s[j]);
    }
  }

  lemma InsertBehindHead(order: seq<string>, k: string, s: seq<string>)
    requires StrictlySorted(order, s) && s != [] && k !in s && !Before(order, k, s[0])
    requires StrictlySorted(order, Insert(order, k, s[1..]))
    ensures StrictlySorted(order, [s[0]] + Insert(order, k, s[1..]))
  {
    var tail := Insert(order, k, s[1..]);
    forall j | 0 <= j < |tail| ensures Before(order, s[0], tail[j]) {
      InsertMember(order, k, s[1..], tail[j]);
      if tail[j] == k {
        CompareStrictTotal(order, k, s[0]);
      } else {
        SortedParts(order, s, tail[j]);
      }
    }
  }

  /** The sort yields a strictly ordered permutation of the (distinct) keys. */
  lemma {:induction false} SortKeysSorted(order: seq<string>, keys: seq<string>)
    requires Distinct(keys)
    ensures multiset(SortKeys(order, keys)) == multiset(keys)
    ensures StrictlySorted(order, SortKeys(order, keys))
  {
    SortKeysPermutes(order, keys);
    if keys != [] {
      var k, rest := keys[0], SortKeys(order, keys[1..]);
      assert Distinct(keys[1..]);
      SortKeysSorted(order, keys[1..]);
      assert k !in rest by {
        assert keys == [k] + keys[1..];
        assert k !in multiset(keys[1..]);
      }
      InsertSorted(order, k, rest);
    }
  }

  lemma {:induction false} SortKeysPermutes(order: seq<string>, keys: seq<string>)
    ensures multiset(SortKeys(order, keys)) == multiset(keys)
  {
    if keys != [] {
      SortKeysPermutes(order, keys[1..]);
      InsertPermutes(order, keys[0], SortKeys(order, keys[1..]));
      assert keys == [keys[0]] + keys[1..];
    }
  }

  lemma SortedParts(order: seq<string>, s: seq<string>, k: string)
    requires StrictlySorted(order, s) && s != []
    ensures StrictlySorted(order, s[1..])
    ensures k in s[1..] ==> Before(order, s[0], k)
  {
    if k in s[1..] {
      var j :| 0 <= j < |s[1..]| && s[1..][j] == k;
      assert s[j + 1] == k;
    }
  }

  lemma SortedSameHead(order: seq<string>, a: seq<string>, b: seq<string>)
    requires StrictlySorted(order, a) && StrictlySorted(order, b)
    requires multiset(a) == multiset(b) && a != []
    ensures b != [] && a[0] == b[0]
  {
    assert a[0] in multiset(b);
    var a0, b0 := a[0], b[0];
    assert b0 in multiset(a);
    if a0 != b0 {
      assert a == [a0] + a[1..] && b == [b0] + b[1..];
      assert a0 in b[1..] && b0 in a[1..];
      SortedParts(order, a, b0);
      SortedParts(order, b, a0);
      CompareStrictTotal(order, a0, b0);
      assert false;
    }
  }

  /**
   * A strictly sorted permutation is unique, so every correct sort (whatever
   * algorithm the JavaScript engine uses) gives the same category order.
   */
  lemma {:induction false} SortedUnique(order: seq<string>, a: seq<string>, b: seq<string>)
    requires StrictlySorted(order, a) && StrictlySorted(order, b)
    requires multiset(a) == multiset(b)
    ensures a == b
  {
    if a != [] {
      SortedSameHead(order, a, b);
      var a0 := a[0];
      SortedParts(order, a, a0);
      SortedParts(order, b, a0);
      assert a == [a0] + a[1..] && b == [a0] + b[1..];
      assert multiset(a[1..]) == multiset(a) - multiset{a0};
      assert multiset(b[1..]) == multiset(b) - multiset{a0};
      SortedUnique(order, a[1..], b[1..]);
    } else {
      assert |b| == |multiset(b)| == 0;
    }
  }

  /**
   * What strict sortedness means for a category order: known categories follow the
   * priority list, every unknown one comes after every known one, and unknown ones
   * are in lexicographic order.
   */
  lemma SortedRanks(order: seq<string>, s: seq<string>, i: int, j: int)
    requires StrictlySorted(order, s) && 0 <= i < j < |s|
    ensures s[j] in order ==> s[i] in order && IndexOf(order, s[i]) < IndexOf(order, s[j])
    ensures s[i] !in order ==> s[j] !in order && LexCompare(s[i], s[j]) < 0
  {
    assert Before(order, s[i], s[j]);
  }

  // ---------------------------------------------------------------------------
  // The whole pipeline
  // ---------------------------------------------------------------------------

  /** The per-component constants: `typeOrder`, the categories highlight mode hides, the caps. */
  datatype ListSpec = ListSpec(order: seq<string>, hidden: set<string>, cap: string -> nat)

  /** `typesToShow`. */
  function TypesToShow<T>(xs: seq<T>, kind: T -> string, mode: Mode, spec: ListSpec): seq<string> {
    if mode == Highlight then HighlightTypes(spec.order, spec.hidden, Kinds(xs, kind))
    else SortKeys(spec.order, Kinds(xs, kind))
  }

  /** `typesToShow.map(...)`: one panel per category shown. */
  function Panels<T>(xs: seq<T>, kind: T -> string, mode: Mode, spec: ListSpec): (ps: seq<Panel<T>>)
    ensures |ps| == |TypesToShow(xs, kind, mode, spec)|
  {
    var ts := TypesToShow(xs, kind, mode, spec);
    seq(|ts|, i requires 0 <= i < |ts| => MakePanel(mode, spec.cap(ts[i]), ts[i], Filter(xs, kind, ts[i])))
  }

  /**
   * In full mode the categories are all the keys of the grouping, each once,
   * strictly ordered by the comparator.
   */
  lemma FullTypes<T>(xs: seq<T>, kind: T -> string, spec: ListSpec)
    ensures multiset(TypesToShow(xs, kind, Full, spec)) == multiset(Kinds(xs, kind))
    ensures StrictlySorted(spec.order, TypesToShow(xs, kind, Full, spec))
  {
    KindsDistinct(xs, kind);
    SortKeysSorted(spec.order, Kinds(xs, kind));
  }

  /** Every panel shows a non-empty group: the whole group of its category. */
  lemma PanelGroups<T>(xs: seq<T>, kind: T -> string, mode: Mode, spec: ListSpec, i: int)
    requires 0 <= i < |Panels(xs, kind, mode, spec)|
    ensures var p := Panels(xs, kind, mode, spec)[i];
            p.kind == TypesToShow(xs, kind, mode, spec)[i]
            && p.kind in Grouped(xs, kind)
            && p.group == Grouped(xs, kind)[p.kind] && p.group != []
  {
    var ts := TypesToShow(xs, kind, mode, spec);
    if mode == Full {
      FullTypes(xs, kind, spec);
      assert ts[i] in multiset(Kinds(xs, kind));
    } else {
      assert ts[i] in ts;
      HighlightTypesMember(spec.order, spec.hidden, Kinds(xs, kind), ts[i]);
    }
    KindsPresent(xs, kind, ts[i]);
  }
}
