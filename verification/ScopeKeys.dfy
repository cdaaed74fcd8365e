/** The scope lattice: canonical form, width, containment and resolution order (internal/core/scope.go). */
module ScopeKeys {
  import opened Prelude
  import opened Sorting

  datatype ScopeKey = ScopeKey(org: string, product: string, team: string, repo: string, path: string, person: string)

  /** The global scope: no axis set. */
  const NO_KEY := ScopeKey("", "", "", "", "", "")

  // ---- the canonical form and its parser ----

  const NAMES := ["org", "product", "team", "repo", "path", "person"]

  function Values(k: ScopeKey): seq<string> {
    [k.org, k.product, k.team, k.repo, k.path, k.person]
  }

  /** strings.Split at the axis separator. */
  function Split(s: string): (parts: seq<string>)
    ensures parts != []
  {
    if s == "" then [""]
    else
      var rest := Split(s[1..]);
      if s[0] == '|' then [""] + rest else [[s[0]] + rest[0]] + rest[1..]
  }

  function Join(parts: seq<string>): string
    requires parts != []
  {
    if |parts| == 1 then parts[0] else parts[0] + "|" + Join(parts[1..])
  }

  function Parts(k: ScopeKey): seq<string> {
    seq(6, i requires 0 <= i < 6 => NAMES[i] + "=" + Values(k)[i])
  }

  /** The canonical form: all six axes, always, as name=value between separators. */
  function Str(k: ScopeKey): string {
    Join(Parts(k))
  }

  /** strings.Cut at the first equals sign. */
  function Cut(s: string): Option<(string, string)> {
    if s == "" then None
    else if s[0] == '=' then Some(("", s[1..]))
    else
      match Cut(s[1..])
      case None => None
      case Some((name, val)) => Some(([s[0]] + name, val))
  }

  predicate Plain(v: string) {
    '|' !in v && '=' !in v && '\n' !in v
  }

  /**
   * Validate: no reserved characters, a path needs a repo, and the glob is well formed (globOk is
   * path.Match's verdict).
   */
  predicate Valid(globOk: string -> bool, k: ScopeKey) {
    && (forall i :: 0 <= i < 6 ==> Plain(Values(k)[i]))
    && (k.path != "" ==> k.repo != "" && globOk(k.path))
  }

  /** A path is valid with a repo and a pattern that path.Match can read; the other axes need no company. */
  lemma {:induction false} PathNeedsRepo(globOk: string -> bool, k: ScopeKey)
    ensures Valid(globOk, NO_KEY)
    ensures Valid(globOk, k) <==>
      Valid(globOk, k.(path := "")) && (k.path == "" || (Plain(k.path) && k.repo != "" && globOk(k.path)))
    ensures Valid(globOk, k) ==> forall i, c :: 0 <= i < 6 && c in Values(k)[i] ==> c !in {'|', '=', '\n'}
    ensures (forall i :: 0 <= i < 6 ==> Plain(Values(k)[i])) && k.path == "" ==> Valid(globOk, k)
  {
    var w := k.(path := "");
    assert Values(w)[4] == "" && forall i :: 0 <= i < 6 && i != 4 ==> Values(w)[i] == Values(k)[i];
    assert Values(k)[4] == k.path;
  }

  /** The six axes of a canonical form, when it has exactly these. */
  function Axes(s: string): Option<ScopeKey> {
    var p := Split(s);
    if |p| == 6 && forall i :: 0 <= i < 6 ==> Cut(p[i]).Some? && Cut(p[i]).value.0 == NAMES[i] then
      Some(ScopeKey(Cut(p[0]).value.1, Cut(p[1]).value.1, Cut(p[2]).value.1,
        Cut(p[3]).value.1, Cut(p[4]).value.1, Cut(p[5]).value.1))
    else None
  }

  /** ParseScopeKey: the key, the empty key on a bad shape, and whether it is a valid key in canonical form. */
  method ParseScopeKey(globOk: string -> bool, s: string) returns (k: ScopeKey, ok: bool)
    ensures k == if Axes(s).Some? then Axes(s).value else NO_KEY
    ensures ok <==> Valid(globOk, k) && s == Str(k)
  {
    hide Valid, Cut, Split, Str;
    var parts := Split(s);
    if |parts| != 6 {
      ParseInverts(globOk, s, NO_KEY);
      return NO_KEY, false;
    }
    var vals: seq<string> := [];
    for i := 0 to 6
      invariant |vals| == i
      invariant forall j :: 0 <= j < i ==> Cut(parts[j]) == Some((NAMES[j], vals[j]))
    {
      var cut := Cut(parts[i]);
      if cut.None? || cut.value.0 != NAMES[i] {
        ParseInverts(globOk, s, NO_KEY);
        return NO_KEY, false;
      }
      vals := vals + [cut.value.1];
    }
    k := ScopeKey(vals[0], vals[1], vals[2], vals[3], vals[4], vals[5]);
    ok := Valid(globOk, k);
    ParseInverts(globOk, s, k);
  }

  lemma {:induction false} SplitOne(a: string)
    requires '|' !in a
    ensures Split(a) == [a]
  {
    if a != "" {
      SplitOne(a[1..]);
      assert a == [a[0]] + a[1..];
    }
  }

  lemma {:induction false} SplitNext(a: string, b: string)
    requires '|' !in a
    ensures Split(a + "|" + b) == [a] + Split(b)
  {
    if a == "" {
      assert a + "|" + b == "|" + b;
      assert ("|" + b)[1..] == b;
    } else {
      SplitNext(a[1..], b);
      assert (a + "|" + b)[1..] == a[1..] + "|" + b;
      assert a == [a[0]] + a[1..];
    }
  }

  lemma {:induction false} JoinSplit(s: string)
    ensures Join(Split(s)) == s
  {
    if s != "" {
      var rest := Split(s[1..]);
      JoinSplit(s[1..]);
      assert s == [s[0]] + s[1..];
      if s[0] == '|' {
        assert ([""] + rest)[1..] == rest;
      } else {
        var parts := [[s[0]] + rest[0]] + rest[1..];
        assert parts[1..] == rest[1..];
        assert Join(parts) == [s[0]] + Join(rest);
      }
    }
  }

  lemma {:induction false} CutNamed(name: string, val: string)
    requires '=' !in name
    ensures Cut(name + "=" + val) == Some((name, val))
  {
    var s := name + "=" + val;
    if name == "" {
      assert s[1..] == val;
    } else {
      CutNamed(name[1..], val);
      assert s[1..] == name[1..] + "=" + val;
      assert name == [name[0]] + name[1..];
    }
  }

  lemma {:induction false} CutIsWhole(s: string)
    ensures Cut(s).Some? ==> s == Cut(s).value.0 + "=" + Cut(s).value.1
  {
    if s != "" {
      CutIsWhole(s[1..]);
      assert s == [s[0]] + s[1..];
    }
  }

  lemma {:induction false} SplitJoin(parts: seq<string>)
    requires parts != [] && forall i :: 0 <= i < |parts| ==> '|' !in parts[i]
    ensures Split(Join(parts)) == parts
  {
    hide Split;
    if |parts| == 1 {
      SplitOne(parts[0]);
    } else {
      SplitJoin(parts[1..]);
      SplitNext(parts[0], Join(parts[1..]));
    }
  }

  /** Parsing is the exact inverse of printing on valid keys. */
  lemma {:induction false} ParseInverts(globOk: string -> bool, s: string, k: ScopeKey)
    ensures Valid(globOk, k) && s == Str(k) ==> Axes(s) == Some(k)
    ensures Axes(s) == Some(k) ==> s == Str(k)
  {
    if Valid(globOk, k) && s == Str(k) {
      PrintsParse(k);
    }
    if Axes(s) == Some(k) {
      ParsesPrint(s, k);
    }
  }

  lemma {:induction false} PrintsParse(k: ScopeKey)
    requires forall i :: 0 <= i < 6 ==> '|' !in Values(k)[i]
    ensures Axes(Str(k)) == Some(k)
  {
    hide Split, Cut, Join;
    SplitJoin(Parts(k));
    forall i | 0 <= i < 6 ensures Cut(Parts(k)[i]) == Some((NAMES[i], Values(k)[i])) {
      CutNamed(NAMES[i], Values(k)[i]);
    }
  }

  lemma {:induction false} ParsesPrint(s: string, k: ScopeKey)
    requires Axes(s) == Some(k)
    ensures s == Str(k)
  {
    hide Split, Cut, Join;
    var p := Split(s);
    JoinSplit(s);
    forall i | 0 <= i < 6 ensures p[i] == Parts(k)[i] {
      CutIsWhole(p[i]);
      assert Cut(p[i]).value.1 == Values(k)[i] by {
        assert i == 0 || i == 1 || i == 2 || i == 3 || i == 4 || i == 5;
      }
    }
    assert p == Parts(k);
  }

  /** Two valid keys with one canonical form are one key. */
  lemma {:induction false} StrIsInjective(globOk: string -> bool, a: ScopeKey, b: ScopeKey)
    requires Valid(globOk, a) && Valid(globOk, b) && Str(a) == Str(b)
    ensures a == b
  {
    hide Str, Axes;
    ParseInverts(globOk, Str(a), a);
    ParseInverts(globOk, Str(b), b);
  }

  /** Byte order on strings. */
  predicate StrLess(a: string, b: string) {
    b != "" && (a == "" || a[0] < b[0] || (a[0] == b[0] && StrLess(a[1..], b[1..])))
  }

  lemma {:induction false} StrTotal(a: string, b: string)
    ensures StrLess(a, b) || StrLess(b, a) || a == b
  {
    if a != "" && b != "" && a[0] == b[0] {
      StrTotal(a[1..], b[1..]);
      assert a == [a[0]] + a[1..] && b == [b[0]] + b[1..];
    }
  }

  lemma {:induction false} StrAsymmetric(a: string, b: string)
    ensures StrLess(a, b) ==> !StrLess(b, a) && a != b
  {
    if a != "" && b != "" && a[0] == b[0] {
      StrAsymmetric(a[1..], b[1..]);
    }
  }

  lemma {:induction false} StrTransitive(a: string, b: string, c: string)
    ensures StrLess(a, b) && StrLess(b, c) ==> StrLess(a, c)
  {
    if a != "" && b != "" && c != "" {
      StrTransitive(a[1..], b[1..], c[1..]);
    }
  }

  /** It is the order of the first character in which the two differ, a beginning coming first. */
  lemma {:induction false} StrLessAt(a: string, b: string, n: nat)
    requires n <= |a| && n <= |b| && a[..n] == b[..n]
    requires n < |a| && n < |b| ==> a[n] != b[n]
    ensures StrLess(a, b) <==> n < |b| && (n == |a| || a[n] < b[n])
  {
    if n > 0 {
      assert a[0] == a[..n][0] == b[..n][0] == b[0];
      assert a[1..][..n - 1] == a[..n][1..] == b[..n][1..] == b[1..][..n - 1];
      StrLessAt(a[1..], b[1..], n - 1);
    }
  }

  function Unset(v: string): nat {
    if v == "" then 1 else 0
  }

  /** The number of unset axes. */
  function Width(k: ScopeKey): nat {
    Unset(k.org) + Unset(k.product) + Unset(k.team) + Unset(k.repo) + Unset(k.path) + Unset(k.person)
  }

  /** path.Match is a parameter; a pattern ending in slash and two stars covers the whole directory. */
  predicate GlobMatch(pathMatch: (string, string) -> bool, pattern: string, p: string) {
    if |pattern| >= 3 && pattern[|pattern| - 3..] == "/**" then
      var dir := pattern[..|pattern| - 3];
      p == dir || dir + "/" <= p
    else pattern == "**" || pathMatch(pattern, p)
  }

  predicate AxisOk(want: string, have: string) {
    want == "" || want == have
  }

  predicate Contains(pathMatch: (string, string) -> bool, k: ScopeKey, target: ScopeKey) {
    && AxisOk(k.org, target.org) && AxisOk(k.product, target.product) && AxisOk(k.team, target.team)
    && AxisOk(k.repo, target.repo) && AxisOk(k.person, target.person)
    && (k.path == "" || (target.path != "" && (k.path == target.path || GlobMatch(pathMatch, k.path, target.path))))
  }

  // ---- what width and containment mean, axis by axis ----

  /** The global key is the widest, and setting any one unset axis narrows it by one. */
  lemma {:induction false} WidthCounts(k: ScopeKey, v: string)
    requires v != ""
    ensures Width(NO_KEY) == 6
    ensures k.org == "" ==> Width(k.(org := v)) == Width(k) - 1
    ensures k.product == "" ==> Width(k.(product := v)) == Width(k) - 1
    ensures k.team == "" ==> Width(k.(team := v)) == Width(k) - 1
    ensures k.repo == "" ==> Width(k.(repo := v)) == Width(k) - 1
    ensures k.path == "" ==> Width(k.(path := v)) == Width(k) - 1
    ensures k.person == "" ==> Width(k.(person := v)) == Width(k) - 1
  {
  }

  /** The global key contains everything, and each plain axis that is set must be met by the target exactly. */
  lemma {:induction false} ContainsByAxis(pathMatch: (string, string) -> bool, k: ScopeKey, target: ScopeKey)
    ensures Contains(pathMatch, NO_KEY, target)
    ensures var wider := k.(org := "");
      Contains(pathMatch, k, target) <==> Contains(pathMatch, wider, target) && k.org in {"", target.org}
    ensures var wider := k.(product := "");
      Contains(pathMatch, k, target) <==> Contains(pathMatch, wider, target) && k.product in {"", target.product}
    ensures var wider := k.(team := "");
      Contains(pathMatch, k, target) <==> Contains(pathMatch, wider, target) && k.team in {"", target.team}
    ensures var wider := k.(repo := "");
      Contains(pathMatch, k, target) <==> Contains(pathMatch, wider, target) && k.repo in {"", target.repo}
    ensures var wider := k.(person := "");
      Contains(pathMatch, k, target) <==> Contains(pathMatch, wider, target) && k.person in {"", target.person}
  {
    hide GlobMatch;
  }

  /** A path on the key: never met without one, met by itself, by the directory rule, or by the pattern. */
  lemma {:induction false} ContainsByPath(pathMatch: (string, string) -> bool, k: ScopeKey, target: ScopeKey,
      dir: string)
    ensures var wider := k.(path := "");
      && (Contains(pathMatch, k, target) ==> Contains(pathMatch, wider, target))
      && (Contains(pathMatch, wider, target) ==>
            && (k.path != "" && target.path == "" ==> !Contains(pathMatch, k, target))
            && (k.path != "" && target.path == k.path ==> Contains(pathMatch, k, target))
            && (k.path == "**" && target.path != "" ==> Contains(pathMatch, k, target))
            && (k.path == dir + "/**" ==>
                  (Contains(pathMatch, k, target) <==>
                    target.path != "" && (target.path in {k.path, dir} || (dir + "/") <= target.path)))
            && (k.path !in {"", "**"} && target.path !in {"", k.path} && !(exists d :: k.path == d + "/**") ==>
                  (Contains(pathMatch, k, target) <==> pathMatch(k.path, target.path))))
  {
    hide AxisOk;
    assert (dir + "/**")[|dir + "/**"| - 3..] == "/**" && (dir + "/**")[..|dir + "/**"| - 3] == dir;
    if |k.path| >= 3 && k.path[|k.path| - 3..] == "/**" {
      assert k.path == k.path[..|k.path| - 3] + "/**";
    }
  }

  /** The order of resolution for constraints: wider first, ties by canonical form. */
  predicate Before(a: ScopeKey, b: ScopeKey) {
    Width(a) > Width(b) || (Width(a) == Width(b) && StrLess(Str(a), Str(b)))
  }

  lemma {:induction false} BeforeTotal(a: ScopeKey, b: ScopeKey)
    ensures Before(a, b) || Before(b, a) || Str(a) == Str(b)
    ensures Before(a, b) ==> !Before(b, a)
  {
    hide Str, Width;
    StrTotal(Str(a), Str(b));
    StrAsymmetric(Str(a), Str(b));
  }

  /** The order of resolution for context: narrower first, ties by canonical form. */
  predicate NarrowFirst(a: ScopeKey, b: ScopeKey) {
    Width(a) < Width(b) || (Width(a) == Width(b) && StrLess(Str(a), Str(b)))
  }

  /** What is resolved: a wider constraint binds narrower ones, a narrower context specialises wider ones. */
  datatype ObjectKind = ForConstraint | ForContext

  function Order(kind: ObjectKind): (ScopeKey, ScopeKey) -> bool {
    if kind == ForConstraint then Before else NarrowFirst
  }

  lemma {:induction false} OrderIsTransitive(kind: ObjectKind)
    ensures Transitive(Order(kind))
  {
    hide Str, Width;
    forall a, b, c | Order(kind)(a, b) && Order(kind)(b, c) ensures Order(kind)(a, c) {
      StrTransitive(Str(a), Str(b), Str(c));
    }
  }

  lemma {:induction false} OrderIsTotal(kind: ObjectKind, a: ScopeKey, b: ScopeKey)
    requires Str(a) != Str(b)
    ensures Comparable(Order(kind), a, b)
  {
    hide Str, Width;
    StrTotal(Str(a), Str(b));
  }

  /** Resolve: the containing keys, one per canonical form, in the order of the kind. */
  method Resolve(pathMatch: (string, string) -> bool, keys: seq<ScopeKey>, target: ScopeKey, kind: ObjectKind)
    returns (out: seq<ScopeKey>)
    ensures kind == ForConstraint ==> Ordered(Before, out)
    ensures kind == ForContext ==> Ordered(NarrowFirst, out)
    ensures forall k :: k in out ==> k in keys && Contains(pathMatch, k, target)
    ensures forall k :: k in keys && Contains(pathMatch, k, target) ==> exists o :: o in out && Str(o) == Str(k)
    ensures forall i, j :: 0 <= i < j < |out| ==> Str(out[i]) != Str(out[j])
  {
    hide Contains, Ordered, Str, Order;
    var seen: set<string> := {};
    out := [];
    EmptyIsOrdered(kind);
    OrderIsTransitive(kind);
    for i := 0 to |keys|
      invariant Ordered(Order(kind), out)
      invariant forall k :: k in out ==> k in keys && Contains(pathMatch, k, target) && Str(k) in seen
      invariant forall s :: s in seen ==> exists o :: o in out && Str(o) == s
      invariant forall m :: 0 <= m < i && Contains(pathMatch, keys[m], target) ==> Str(keys[m]) in seen
      invariant OnePerForm(out)
    {
      var k := keys[i];
      if Contains(pathMatch, k, target) && Str(k) !in seen {
        forall m | 0 <= m < |out| ensures Comparable(Order(kind), out[m], k) {
          assert out[m] in out;
          OrderIsTotal(kind, out[m], k);
        }
        out := Insert(Order(kind), out, k);
        seen := seen + {Str(k)};
      }
    }
    FormsDiffer(kind, out);
    OrderOf(kind);
  }

  lemma {:induction false} OrderOf(kind: ObjectKind)
    ensures Order(kind) == if kind == ForConstraint then Before else NarrowFirst
  {
  }

  /** Both orders go by width first, in opposite directions, and by canonical form among equals. */
  lemma {:induction false} OrdersGoByWidth(a: ScopeKey, b: ScopeKey)
    ensures Width(a) > Width(b) ==> Before(a, b) && !Before(b, a) && NarrowFirst(b, a) && !NarrowFirst(a, b)
    ensures Width(a) == Width(b) ==> Before(a, b) == StrLess(Str(a), Str(b)) == NarrowFirst(a, b)
  {
    hide Str, Width, StrLess;
  }

  lemma {:induction false} AxisNames()
    ensures NAMES[0] + "=" == "org=" && NAMES[1] + "=" == "product=" && NAMES[2] + "=" == "team="
    ensures NAMES[3] + "=" == "repo=" && NAMES[4] + "=" == "path=" && NAMES[5] + "=" == "person="
  {
  }

  lemma {:induction false} PartsAre(k: ScopeKey)
    ensures Parts(k) == ["org=" + k.org, "product=" + k.product, "team=" + k.team, "repo=" + k.repo,
      "path=" + k.path, "person=" + k.person]
  {
    AxisNames();
    var v := Values(k);
    assert v[0] == k.org && v[1] == k.product && v[2] == k.team && v[3] == k.repo && v[4] == k.path && v[5] == k.person;
    hide Values;
    forall i | 0 <= i < 6 ensures Parts(k)[i] == NAMES[i] + "=" + v[i] {
    }
  }

  /** What the canonical form looks like. */
  lemma {:induction false} CanonicalForm(k: ScopeKey)
    ensures Str(k) == "org=" + k.org + "|" + ("product=" + k.product + "|" + ("team=" + k.team + "|" +
      ("repo=" + k.repo + "|" + ("path=" + k.path + "|" + ("person=" + k.person)))))
  {
    var p := Parts(k);
    PartsAre(k);
    hide Parts;
    assert Join(p[5..]) == p[5];
    assert Join(p[4..]) == p[4] + "|" + Join(p[4..][1..]) && p[4..][1..] == p[5..];
    assert Join(p[3..]) == p[3] + "|" + Join(p[3..][1..]) && p[3..][1..] == p[4..];
    assert Join(p[2..]) == p[2] + "|" + Join(p[2..][1..]) && p[2..][1..] == p[3..];
    assert Join(p[1..]) == p[1] + "|" + Join(p[1..][1..]) && p[1..][1..] == p[2..];
    assert Join(p) == p[0] + "|" + Join(p[1..]);
  }

  ghost predicate OnePerForm(keys: seq<ScopeKey>) {
    forall x, y :: x in keys && y in keys && Str(x) == Str(y) ==> x == y
  }

  lemma {:induction false} OrderIsStrict(kind: ObjectKind, k: ScopeKey)
    ensures !Order(kind)(k, k)
  {
    hide Str, Width;
    StrAsymmetric(Str(k), Str(k));
  }

  lemma {:induction false} FormsDiffer(kind: ObjectKind, keys: seq<ScopeKey>)
    requires Ordered(Order(kind), keys) && OnePerForm(keys)
    ensures forall i, j :: 0 <= i < j < |keys| ==> Str(keys[i]) != Str(keys[j])
  {
    hide Str, Order;
    forall i, j | 0 <= i < j < |keys| ensures Str(keys[i]) != Str(keys[j]) {
      OrderIsStrict(kind, keys[i]);
    }
  }

  lemma {:induction false} EmptyIsOrdered(kind: ObjectKind)
    ensures Ordered(Order(kind), []) && OnePerForm([])
  {
  }
}
