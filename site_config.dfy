/**
 * The site configuration and its build-time check (resume.config.ts): a required
 * key is a "."-separated path, walked through the configuration object with
 * optional chaining, and reported missing when the value found there is falsy.
 */
module SiteConfig {

  /** A JavaScript value as far as the configuration needs one. */
  datatype Value =
    | Undefined
    | Null
    | Bool(b: bool)
    | Num(n: int)
    | Str(s: string)
    | Arr(items: seq<Value>)
    | Obj(fields: seq<Field>)

  /** One property of an object literal, in source order. */
  datatype Field = Field(key: string, value: Value)

  /** JavaScript truthiness. */
  predicate Truthy(v: Value) {
    match v
    case Undefined => false
    case Null => false
    case Bool(b) => b
    case Num(n) => n != 0
    case Str(s) => s != ""
    case Arr(_) => true
    case Obj(_) => true
  }

  /** The value of the property `k`, or undefined when there is none. */
  function Find(fields: seq<Field>, k: string): (r: Value)
    ensures (forall i :: 0 <= i < |fields| ==> fields[i].key != k) ==> r == Undefined
  {
    if fields == [] then Undefined
    else if fields[0].key == k then fields[0].value
    else Find(fields[1..], k)
  }

  /** A property is found as the first field carrying its name. */
  lemma {:induction false} FindFirst(fields: seq<Field>, k: string, i: int)
    requires 0 <= i < |fields| && fields[i].key == k
    requires forall j :: 0 <= j < i ==> fields[j].key != k
    ensures Find(fields, k) == fields[i].value
  {
    if i > 0 {
      FindFirst(fields[1..], k, i - 1);
    }
  }

  /**
   * `obj?.[k]` on the values a configuration holds: undefined or null gives undefined instead of
   * an error, and an object gives its own property `k`, or undefined when it has none. Properties
   * of strings and arrays and inherited properties are not modelled; they give undefined here.
   */
  function Get(v: Value, k: string): (r: Value)
    ensures !v.Obj? ==> r == Undefined
  {
    match v
    case Obj(fields) => Find(fields, k)
    case _ => Undefined
  }

  /** `key.split(sep)` for a one-character separator. */
  function Split(s: string, sep: char): (r: seq<string>)
    ensures |r| >= 1
  {
    if s == [] then [""]
    else
      var rest := Split(s[1..], sep);
      if s[0] == sep then [""] + rest else [[s[0]] + rest[0]] + rest[1..]
  }

  function Join(parts: seq<string>, sep: char): string {
    if parts == [] then ""
    else if |parts| == 1 then parts[0]
    else parts[0] + [sep] + Join(parts[1..], sep)
  }

  /** Splitting loses nothing: joining the pieces back gives the key. */
  lemma {:induction false} SplitJoin(s: string, sep: char)
    ensures Join(Split(s, sep), sep) == s
  {
    if s != [] {
      var rest := Split(s[1..], sep);
      SplitJoin(s[1..], sep);
      assert s == [s[0]] + s[1..];
      if s[0] == sep {
        JoinAfterEmpty(rest, sep);
      } else {
        JoinExtendHead(s[0], rest, sep);
      }
    }
  }

  /** An empty first segment contributes only its separator. */
  lemma JoinAfterEmpty(rest: seq<string>, sep: char)
    requires rest != []
    ensures Join([""] + rest, sep) == [sep] + Join(rest, sep)
  {
    assert ([""] + rest)[1..] == rest;
  }

  /** A character in front of the first segment ends up in front of the joined string. */
  lemma JoinExtendHead(c: char, rest: seq<string>, sep: char)
    requires rest != []
    ensures Join([[c] + rest[0]] + rest[1..], sep) == [c] + Join(rest, sep)
  {
    var r := [[c] + rest[0]] + rest[1..];
    assert r[0] == [c] + rest[0] && r[1..] == rest[1..];
    if |rest| > 1 {
      assert Join(rest, sep) == rest[0] + [sep] + Join(rest[1..], sep);
    }
  }

  /** A key without the separator is a single segment. */
  lemma {:induction false} SplitPlain(s: string, sep: char)
    requires sep !in s
    ensures Split(s, sep) == [s]
  {
    if s != [] {
      SplitPlain(s[1..], sep);
      assert s == [s[0]] + s[1..];
    }
  }

  /** Splitting at a separator splits the key into the part before it and the rest. */
  lemma {:induction false} SplitAt(a: string, b: string, sep: char)
    requires sep !in a
    ensures Split(a + [sep] + b, sep) == [a] + Split(b, sep)
  {
    if a == [] {
      assert a + [sep] + b == [sep] + b;
      assert ([sep] + b)[1..] == b;
    } else {
      SplitAt(a[1..], b, sep);
      assert (a + [sep] + b)[1..] == a[1..] + [sep] + b;
      assert a == [a[0]] + a[1..];
    }
  }

  /** `segments.reduce((obj, k) => obj?.[k], root)`. */
  function Walk(v: Value, segments: seq<string>): Value
    decreases |segments|
  {
    if segments == [] then v else Walk(Get(v, segments[0]), segments[1..])
  }

  /** Once a segment is absent every later step stays undefined; no step can fail. */
  lemma {:induction false} WalkUndefined(segments: seq<string>)
    ensures Walk(Undefined, segments) == Undefined
    decreases |segments|
  {
    if segments != [] {
      WalkUndefined(segments[1..]);
    }
  }

  /** Walking a longer path is walking its two parts one after the other. */
  lemma {:induction false} WalkAppend(v: Value, a: seq<string>, b: seq<string>)
    ensures Walk(v, a + b) == Walk(Walk(v, a), b)
    decreases |a|
  {
    if a != [] {
      assert (a + b)[1..] == a[1..] + b;
      WalkAppend(Get(v, a[0]), a[1..], b);
    } else {
      assert a + b == b;
    }
  }

  function Lookup(config: Value, key: string): Value {
    Walk(config, Split(key, '.'))
  }

  predicate IsMissing(config: Value, key: string) {
    !Truthy(Lookup(config, key))
  }

  /**
   * A key whose first segment names no field of the configuration is reported
   * missing, which is what optional chaining buys over plain property access.
   */
  lemma AbsentHeadIsMissing(config: Value, head: string, rest: string)
    requires '.' !in head
    requires Get(config, head) == Undefined
    ensures IsMissing(config, head + "." + rest)
  {
    SplitAt(head, rest, '.');
    assert Split(head + "." + rest, '.') == [head] + Split(rest, '.');
    WalkUndefined(Split(rest, '.'));
  }

  /** The required keys reported missing, in the order they are required. */
  function Missing(config: Value, required: seq<string>): (r: seq<string>)
    ensures |r| <= |required|
  {
    if required == [] then []
    else
      var init, key := required[..|required| - 1], required[|required| - 1];
      Missing(config, init) + (if IsMissing(config, key) then [key] else [])
  }

  /** A key is reported exactly when it is required and missing. */
  lemma {:induction false} MissingMember(config: Value, required: seq<string>, key: string)
    ensures key in Missing(config, required) <==> key in required && IsMissing(config, key)
  {
    if required != [] {
      var init := required[..|required| - 1];
      MissingMember(config, init, key);
      assert required == init + [required[|required| - 1]];
    }
  }

  /** Reports keep the order of `required`, and each key is reported as often as it is required. */
  lemma {:induction false} MissingAppend(config: Value, a: seq<string>, b: seq<string>)
    ensures Missing(config, a + b) == Missing(config, a) + Missing(config, b)
    decreases |b|
  {
    if b == [] {
      assert a + b == a;
    } else {
      assert (a + b)[..|a + b| - 1] == a + b[..|b| - 1];
      MissingAppend(config, a, b[..|b| - 1]);
    }
  }

  lemma {:induction false} MissingCount(config: Value, required: seq<string>, key: string)
    ensures multiset(Missing(config, required))[key]
            == if IsMissing(config, key) then multiset(required)[key] else 0
  {
    if required != [] {
      var init := required[..|required| - 1];
      MissingCount(config, init, key);
      assert required == init + [required[|required| - 1]];
    }
  }

  /** The `forEach` over the required keys, appending each missing one. */
  method CollectMissing(config: Value, required: seq<string>) returns (missing: seq<string>)
    ensures missing == Missing(config, required)
  {
    missing := [];
    var i := 0;
    while i < |required|
      invariant 0 <= i <= |required|
      invariant missing == Missing(config, required[..i])
    {
      var key := required[i];
      var value := Walk(config, Split(key, '.'));
      if !Truthy(value) {
        missing := missing + [key];
      }
      assert required[..i + 1][..i] == required[..i];
      i := i + 1;
    }
    assert required[..i] == required;
  }

  const RequiredKeys: seq<string> := ["name", "title", "url", "social.email"]

  /**
   * `validateConfig`: true exactly when no required key is missing. The list of
   * missing keys, which the source only writes to the console, is returned too.
   */
  method ValidateConfig(config: Value) returns (valid: bool, missing: seq<string>)
    ensures missing == Missing(config, RequiredKeys)
    ensures valid <==> missing == []
  {
    missing := CollectMissing(config, RequiredKeys);
    valid := |missing| == 0;
  }

  /** Nothing is reported exactly when every required key leads to a truthy value. */
  lemma NoneMissing(config: Value, required: seq<string>)
    ensures Missing(config, required) == [] <==> forall k :: k in required ==> !IsMissing(config, k)
  {
    if Missing(config, required) != [] {
      var k := Missing(config, required)[0];
      MissingMember(config, required, k);
    } else {
      forall k | k in required ensures !IsMissing(config, k) {
        MissingMember(config, required, k);
      }
    }
  }

  /**
   * The shipped `siteConfig`: its identity, links, analytics, feature switches,
   * deployment and theme (the long `description` text and the `seo`, `navigation`
   * and `structuredData` blocks are not transcribed). `gaId` stands for the `NEXT_PUBLIC_GA_ID` environment
   * variable, read with `?? ""`.
   */
  function ShippedSocial(): Value {
    Obj([
      Field("email", Str("schwannden@gmail.com")),
      Field("linkedin", Str("https://www.linkedin.com/in/schwannden/")),
      Field("github", Str("https://github.com/schwannden")),
      Field("blog", Str("https://blog.schwannden.com")),
      Field("youtube", Str(""))])
  }

  function ShippedConfig(gaId: string): Value {
    Obj([
      Field("name", Str("Schwannden Kuo")),
      Field("title", Str("Software Architect & Speaker")),
      Field("tagline", Str("Building scalable systems and sharing knowledge")),
      Field("location", Str("Taiwan")),
      Field("shortDescription", Str("Software Architect, Technical Speaker, and Thought Leader")),
      Field("url", Str("https://resume.schwannden.com")),
      Field("social", ShippedSocial()),
      Field("analytics", Obj([Field("googleAnalyticsId", Str(gaId)), Field("enableInDev", Bool(false))])),
      Field("features", Obj([
        Field("darkMode", Bool(true)), Field("pdfDownload", Bool(true)), Field("speakingPage", Bool(true)),
        Field("blogLinks", Bool(true)), Field("openSourceSection", Bool(true))])),
      Field("deployment", Obj([Field("basePath", Str("")), Field("assetPrefix", Str(""))])),
      Field("theme", Obj([Field("primaryColor", Str("blue")), Field("fontFamily", Str(""))]))
    ])
  }

  /** The shipped configuration passes the check, whatever the analytics id is. */
  lemma ShippedConfigValid(gaId: string)
    ensures Missing(ShippedConfig(gaId), RequiredKeys) == []
  {
    ShippedName(gaId);
    ShippedTitle(gaId);
    ShippedUrl(gaId);
    ShippedEmail(gaId);
    FourPresent(ShippedConfig(gaId), "name", "title", "url", "social.email");
  }

  lemma FourPresent(c: Value, k0: string, k1: string, k2: string, k3: string)
    requires Truthy(Lookup(c, k0)) && Truthy(Lookup(c, k1)) && Truthy(Lookup(c, k2)) && Truthy(Lookup(c, k3))
    ensures Missing(c, [k0, k1, k2, k3]) == []
  {
    AllPresent(c, [k0, k1, k2, k3]);
  }

  lemma {:induction false} AllPresent(c: Value, keys: seq<string>)
    requires forall i :: 0 <= i < |keys| ==> Truthy(Lookup(c, keys[i]))
    ensures Missing(c, keys) == []
  {
    if keys != [] {
      AllPresent(c, keys[..|keys| - 1]);
    }
  }

  lemma ShippedName(gaId: string)
    ensures Lookup(ShippedConfig(gaId), "name") == Str("Schwannden Kuo")
  {
    PlainKey(ShippedConfig(gaId), "name");
  }

  lemma ShippedTitle(gaId: string)
    ensures Lookup(ShippedConfig(gaId), "title") == Str("Software Architect & Speaker")
  {
    PlainKey(ShippedConfig(gaId), "title");
    TitleField(gaId);
  }

  lemma TitleField(gaId: string)
    ensures Get(ShippedConfig(gaId), "title") == Str("Software Architect & Speaker")
  {
    FindFirst(ShippedConfig(gaId).fields, "title", 1);
  }

  lemma ShippedUrl(gaId: string)
    ensures Lookup(ShippedConfig(gaId), "url") == Str("https://resume.schwannden.com")
  {
    PlainKey(ShippedConfig(gaId), "url");
    UrlField(gaId);
  }

  lemma UrlField(gaId: string)
    ensures Get(ShippedConfig(gaId), "url") == Str("https://resume.schwannden.com")
  {
    FindFirst(ShippedConfig(gaId).fields, "url", 5);
  }

  lemma ShippedSocialObject(gaId: string)
    ensures Get(ShippedConfig(gaId), "social") == ShippedSocial()
  {
    FindFirst(ShippedConfig(gaId).fields, "social", 6);
  }

  lemma ShippedEmail(gaId: string)
    ensures Lookup(ShippedConfig(gaId), "social.email") == Str("schwannden@gmail.com")
  {
    TwoSegments(ShippedConfig(gaId), "social", "email");
    EmailKey();
    ShippedSocialObject(gaId);
    SocialEmail();
  }

  lemma EmailKey()
    ensures "social" + "." + "email" == "social.email"
  {
  }

  lemma YoutubeKey()
    ensures "social" + "." + "youtube" == "social.youtube"
  {
  }

  lemma SocialEmail()
    ensures Get(ShippedSocial(), "email") == Str("schwannden@gmail.com")
  {
  }

  lemma SocialYoutube()
    ensures Get(ShippedSocial(), "youtube") == Str("")
  {
    FindFirst(ShippedSocial().fields, "youtube", 4);
  }

  lemma PlainKey(c: Value, key: string)
    requires '.' !in key
    ensures Lookup(c, key) == Get(c, key)
  {
    SplitPlain(key, '.');
    assert Walk(c, [key]) == Walk(Get(c, key), []);
  }

  lemma TwoSegments(c: Value, a: string, b: string)
    requires '.' !in a && '.' !in b
    ensures Lookup(c, a + "." + b) == Get(Get(c, a), b)
  {
    SplitPlain(b, '.');
    SplitAt(a, b, '.');
    assert Walk(c, [a, b]) == Walk(Get(c, a), [b]);
    assert Walk(Get(c, a), [b]) == Walk(Get(Get(c, a), b), []);
  }

  /** An empty optional field such as `social.youtube` would fail the check if it were required. */
  lemma EmptyFieldIsMissing(gaId: string)
    ensures IsMissing(ShippedConfig(gaId), "social.youtube")
  {
    TwoSegments(ShippedConfig(gaId), "social", "youtube");
    YoutubeKey();
    ShippedSocialObject(gaId);
    SocialYoutube();
  }
}
