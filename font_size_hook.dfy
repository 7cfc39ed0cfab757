/**
 * The font-size preference (src/hooks/use-font-size.ts): a state value, the
 * browser's local storage and the class list of the document element. On mount a
 * valid stored preference is adopted and its class applied; an update changes the
 * state, persists it and swaps the font-size class.
 */
module FontSizeHook {
  import opened Wrappers

  datatype FontSize = Normal | Large | ExtraLarge

  /** The string form used in storage and in class names. */
  function Name(f: FontSize): string {
    match f
    case Normal => "normal"
    case Large => "large"
    case ExtraLarge => "extra-large"
  }

  /** A stored value is adopted only when it is exactly one of the three names. */
  function Parse(s: string): (r: Option<FontSize>)
    ensures r.Some? ==> Name(r.value) == s
  {
    if s == "normal" then Some(Normal)
    else if s == "large" then Some(Large)
    else if s == "extra-large" then Some(ExtraLarge)
    else None
  }

  /** Every name parses back to its font size, so exactly the three names are accepted. */
  lemma ParseName(f: FontSize)
    ensures Parse(Name(f)) == Some(f)
  {
  }

  const StorageKey := "fontSize"

  function ClassFor(f: FontSize): string {
    "font-size-" + Name(f)
  }

  const FontClasses: set<string> := {"font-size-normal", "font-size-large", "font-size-extra-large"}

  /** Each size has its own class, and the removal set holds exactly those classes. */
  lemma ClassesOfSizes(f: FontSize, g: FontSize)
    ensures ClassFor(f) in FontClasses
    ensures ClassFor(f) == ClassFor(g) <==> f == g
  {
    var p := "font-size-";
    assert ClassFor(Normal) == "font-size-normal";
    assert ClassFor(Large) == "font-size-large";
    assert ClassFor(ExtraLarge) == "font-size-extra-large";
    if ClassFor(f) == ClassFor(g) {
      assert ClassFor(f)[|p|..] == Name(f) && ClassFor(g)[|p|..] == Name(g);
    }
  }

  // ---------------------------------------------------------------------------
  // Class lists as values
  // ---------------------------------------------------------------------------

  /** `classList.add(t)`: a token already present is not added twice. */
  function AddToken(tokens: seq<string>, t: string): (r: seq<string>)
    ensures tokens <= r && t in r
    ensures forall u :: u in r <==> u in tokens || u == t
  {
    if t in tokens then tokens else tokens + [t]
  }

  /** `classList.remove(...ts)`: every occurrence of the given tokens goes, the rest stays in order. */
  function Without(tokens: seq<string>, ts: set<string>): (r: seq<string>)
    ensures |r| <= |tokens|
  {
    if tokens == [] then []
    else Without(tokens[..|tokens| - 1], ts) + (if tokens[|tokens| - 1] in ts then [] else [tokens[|tokens| - 1]])
  }

  lemma {:induction false} WithoutMember(tokens: seq<string>, ts: set<string>, u: string)
    ensures u in Without(tokens, ts) <==> u in tokens && u !in ts
  {
    if tokens != [] {
      var init := tokens[..|tokens| - 1];
      WithoutMember(init, ts, u);
      assert tokens == init + [tokens[|tokens| - 1]];
    }
  }

  lemma {:induction false} WithoutAppend(a: seq<string>, b: seq<string>, ts: set<string>)
    ensures Without(a + b, ts) == Without(a, ts) + Without(b, ts)
    decreases |b|
  {
    if b == [] {
      assert a + b == a;
    } else {
      assert (a + b)[..|a + b| - 1] == a + b[..|b| - 1];
      WithoutAppend(a, b[..|b| - 1], ts);
    }
  }

  lemma {:induction false} WithoutIdempotent(tokens: seq<string>, ts: set<string>)
    ensures Without(Without(tokens, ts), ts) == Without(tokens, ts)
  {
    if tokens != [] {
      var init, last := tokens[..|tokens| - 1], tokens[|tokens| - 1];
      WithoutIdempotent(init, ts);
      var tail := if last in ts then [] else [last];
      WithoutAppend(Without(init, ts), tail, ts);
      if last !in ts {
        assert Without([last], ts) == [] + [last] by {
          assert [last][..0] == [];
        }
      }
    }
  }

  lemma {:induction false} WithoutCount(tokens: seq<string>, ts: set<string>, u: string)
    ensures multiset(Without(tokens, ts))[u] == if u in ts then 0 else multiset(tokens)[u]
  {
    if tokens != [] {
      var init, last := tokens[..|tokens| - 1], tokens[|tokens| - 1];
      assert tokens == init + [last];
      WithoutCount(init, ts, u);
      CountSnoc(init, last, u);
      CountSnoc(Without(init, ts), last, u);
    }
  }

  lemma CountSnoc(s: seq<string>, x: string, u: string)
    ensures multiset(s + [x])[u] == multiset(s)[u] + if x == u then 1 else 0
  {
    assert multiset(s + [x]) == multiset(s) + multiset{x};
  }

  /** Remove the three font-size classes, then add the one of `f`. */
  function ApplyFontClass(tokens: seq<string>, f: FontSize): seq<string> {
    AddToken(Without(tokens, FontClasses), ClassFor(f))
  }

  /**
   * After the swap exactly one font-size class is present, once, and it is the one
   * of `f`; the other classes are untouched and keep their order.
   */
  lemma ApplyFontClassExactlyOne(tokens: seq<string>, f: FontSize)
    ensures var r := ApplyFontClass(tokens, f);
            ClassFor(f) in r && multiset(r)[ClassFor(f)] == 1
            && (forall u :: u in r && u in FontClasses ==> u == ClassFor(f))
            && Without(r, FontClasses) == Without(tokens, FontClasses)
  {
    var kept := Without(tokens, FontClasses);
    var c := ClassFor(f);
    ClassesOfSizes(f, f);
    ApplyFontClassAppends(tokens, f);
    WithoutCount(tokens, FontClasses, c);
    assert multiset(kept + [c])[c] == multiset(kept)[c] + 1;
    forall u | u in kept + [c] && u in FontClasses ensures u == c {
      WithoutMember(tokens, FontClasses, u);
    }
    ApplyFontClassKeepsOthers(tokens, f);
  }

  /** The font class removed, the new one is not among the rest, so it goes at the end. */
  lemma ApplyFontClassAppends(tokens: seq<string>, f: FontSize)
    ensures ApplyFontClass(tokens, f) == Without(tokens, FontClasses) + [ClassFor(f)]
  {
    ClassesOfSizes(f, f);
    WithoutMember(tokens, FontClasses, ClassFor(f));
  }

  lemma ApplyFontClassKeepsOthers(tokens: seq<string>, f: FontSize)
    ensures Without(ApplyFontClass(tokens, f), FontClasses) == Without(tokens, FontClasses)
  {
    var kept := Without(tokens, FontClasses);
    var c := ClassFor(f);
    ClassesOfSizes(f, f);
    ApplyFontClassAppends(tokens, f);
    WithoutAppend(kept, [c], FontClasses);
    assert Without([c], FontClasses) == [] by {
      assert [c][..0] == [];
    }
    WithoutIdempotent(tokens, FontClasses);
    assert Without(kept + [c], FontClasses) == kept + [];
  }

  /** Applying a font class twice is applying the second one: the last update wins. */
  lemma ApplyFontClassLastWins(tokens: seq<string>, f: FontSize, g: FontSize)
    ensures ApplyFontClass(ApplyFontClass(tokens, f), g) == ApplyFontClass(tokens, g)
  {
    ApplyFontClassKeepsOthers(tokens, f);
  }

  // ---------------------------------------------------------------------------
  // The browser objects and the hook
  // ---------------------------------------------------------------------------

  /** `document.documentElement.classList`. */
  class ClassList {
    var tokens: seq<string>

    constructor (initial: seq<string>)
      ensures tokens == initial
    {
      tokens := initial;
    }

    method Add(t: string)
      modifies this
      ensures tokens == AddToken(old(tokens), t)
    {
      if t !in tokens {
        tokens := tokens + [t];
      }
    }

    method Remove(ts: set<string>)
      modifies this
      ensures tokens == Without(old(tokens), ts)
    {
      var kept: seq<string> := [];
      var i := 0;
      while i < |tokens|
        invariant 0 <= i <= |tokens|
        invariant kept == Without(tokens[..i], ts)
      {
        assert tokens[..i + 1][..i] == tokens[..i];
        if tokens[i] !in ts {
          kept := kept + [tokens[i]];
        }
        i := i + 1;
      }
      assert tokens[..i] == tokens;
      tokens := kept;
    }
  }

  /** `window.localStorage`. */
  class LocalStorage {
    var items: map<string, string>

    constructor (initial: map<string, string>)
      ensures items == initial
    {
      items := initial;
    }

    method GetItem(key: string) returns (r: Option<string>)
      ensures r == if key in items then Some(items[key]) else None
    {
      r := if key in items then Some(items[key]) else None;
    }

    method SetItem(key: string, value: string)
      modifies this
      ensures items == old(items)[key := value]
    {
      items := items[key := value];
    }
  }

  /** The stored preference, if it is one of the three names. */
  function StoredPreference(items: map<string, string>): Option<FontSize> {
    if StorageKey in items && items[StorageKey] != "" then Parse(items[StorageKey]) else None
  }

  /** The hook's state: the current font size, and the storage and class list it drives. */
  class FontSizeState {
    var fontSize: FontSize
    const storage: LocalStorage
    const root: ClassList

    /** `useState("normal")`: before the mount effect runs the size is normal. */
    constructor (storage: LocalStorage, root: ClassList)
      ensures fontSize == Normal
      ensures this.storage == storage && this.root == root
    {
      fontSize := Normal;
      this.storage := storage;
      this.root := root;
    }

    /** The mount effect: it reads the storage and never writes it. */
    method Mount()
      modifies this, root
      ensures storage.items == old(storage.items)
      ensures match StoredPreference(old(storage.items))
              case Some(f) => fontSize == f && root.tokens == ApplyFontClass(old(root.tokens), f)
              case None => fontSize == old(fontSize) && root.tokens == AddToken(old(root.tokens), "font-size-normal")
    {
      var saved := storage.GetItem(StorageKey);
      if saved.Some? && saved.value != "" && Parse(saved.value).Some? {
        var f := Parse(saved.value).value;
        fontSize := f;
        root.Remove(FontClasses);
        root.Add(ClassFor(f));
      } else {
        root.Add("font-size-normal");
      }
    }

    /** `updateFontSize(size)`. */
    method Update(size: FontSize)
      modifies this, storage, root
      ensures fontSize == size
      ensures storage.items == old(storage.items)[StorageKey := Name(size)]
      ensures root.tokens == ApplyFontClass(old(root.tokens), size)
    {
      fontSize := size;
      storage.SetItem(StorageKey, Name(size));
      root.Remove(FontClasses);
      root.Add(ClassFor(size));
    }
  }
}
