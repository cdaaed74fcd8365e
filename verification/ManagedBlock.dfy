/** Managed blocks inside a user's file: writer, reader and remover (internal/core/supply/render.go). */
module ManagedBlocks {
  import opened Prelude

  const BEGIN := "<!-- keelage:begin "
  const END := "<!-- keelage:end -->"
  const CLOSE := "-->\n"

  /** The white space of the pattern language. */
  predicate IsSpace(c: char) {
    c == ' ' || c == '\t' || c == '\n' || c == '\r' || c == '\U{0c}'
  }

  /** Not empty and without white space. */
  predicate Solid(s: string) {
    s != "" && forall i :: 0 <= i < |s| ==> !IsSpace(s[i])
  }

  /** BlockHash is hexadecimal text. */
  type Hash = s: string | Solid(s) witness "0"

  type Hasher = string -> Hash

  function ManagedBlock(hash: Hasher, id: string, body: string): string {
    BEGIN + id + " " + hash(body) + " " + CLOSE + body + "\n" + END
  }

  // ---- the pattern ----

  predicate At(s: string, p: nat, lit: string) {
    p + |lit| <= |s| && s[p..p + |lit|] == lit
  }

  ghost predicate Holds(s: string, lit: string) {
    exists p: nat :: At(s, p, lit)
  }

  /** The end of the run of non-space characters at p. */
  function WordEnd(s: string, p: nat): (r: nat)
    requires p <= |s|
    ensures p <= r <= |s| && (r < |s| ==> IsSpace(s[r])) && forall i :: p <= i < r ==> !IsSpace(s[i])
    decreases |s| - p
  {
    if p < |s| && !IsSpace(s[p]) then WordEnd(s, p + 1) else p
  }

  /** The first occurrence of lit at or after p. */
  function Index(s: string, p: nat, lit: string): (r: Option<nat>)
    ensures r.Some? ==> p <= r.value && At(s, r.value, lit) && forall k :: p <= k < r.value ==> !At(s, k, lit)
    ensures r.None? ==> forall k :: p <= k ==> !At(s, k, lit)
    decreases |s| - p
  {
    if At(s, p, lit) then Some(p) else if p < |s| then Index(s, p + 1, lit) else None
  }

  /** The last occurrence of lit before position n. */
  function LastIndex(s: string, n: nat, lit: string): (r: Option<nat>)
    ensures r.Some? ==> r.value < n && At(s, r.value, lit) && forall k :: r.value < k < n ==> !At(s, k, lit)
    ensures r.None? ==> forall k :: 0 <= k < n ==> !At(s, k, lit)
  {
    if n == 0 then None else if At(s, n - 1, lit) then Some(n - 1) else LastIndex(s, n - 1, lit)
  }

  datatype Match = Match(start: nat, end: nat, id: string, hash: string)

  /** A block whose begin marker is at p, from the given start, with the newline after it if there is one. */
  function BlockAt(s: string, p: nat, start: nat): (r: Option<Match>)
    ensures r.Some? ==> At(s, p, BEGIN) && r.value.start == start && p < r.value.end <= |s|
  {
    if !At(s, p, BEGIN) then None
    else
      var a := p + |BEGIN|;
      var b := WordEnd(s, a);
      if b == a || !At(s, b, " ") then None
      else
        var d := WordEnd(s, b + 1);
        if d == b + 1 || !At(s, d, " " + CLOSE) then None
        else
          match Index(s, d + 1 + |CLOSE|, END)
          case None => None
          case Some(q) =>
            Some(Match(start, if At(s, q + |END|, "\n") then q + |END| + 1 else q + |END|, s[a..b], s[b + 1..d]))
  }

  /** The match that begins exactly at p, a newline before the block included. */
  function MatchAt(s: string, p: nat): (r: Option<Match>)
    ensures r.Some? ==> r.value.start == p < r.value.end <= |s|
  {
    if At(s, p, "\n") && BlockAt(s, p + 1, p).Some? then BlockAt(s, p + 1, p) else BlockAt(s, p, p)
  }

  /** Leftmost match at or after p. */
  function NextMatch(s: string, p: nat): (r: Option<Match>)
    ensures r.Some? ==>
      && p <= r.value.start < r.value.end <= |s|
      && MatchAt(s, r.value.start) == r
      && forall k :: p <= k < r.value.start ==> MatchAt(s, k).None?
    ensures r.None? ==> forall k :: p <= k <= |s| ==> MatchAt(s, k).None?
    decreases |s| - p
  {
    if MatchAt(s, p).Some? then MatchAt(s, p) else if p < |s| then NextMatch(s, p + 1) else None
  }

  /** A match: a newline or nothing, the begin marker with id and hash, the shortest body, the end marker. */
  ghost predicate IsBlockText(s: string, p: nat, m: Match, lead: string, body: string) {
    var text := lead + (BEGIN + m.id + " " + m.hash + " " + CLOSE) + (body + END);
    && At(s, p, text) && m.end == p + |text| + (if At(s, p + |text|, "\n") then 1 else 0)
    && Solid(m.id) && Solid(m.hash) && lead == (if At(s, p, "\n") then "\n" else "")
    && forall k :: 0 <= k < |body| ==> !At(body + END, k, END)
  }

  /** Whatever the pattern matches is such a block. */
  lemma {:induction false} MatchIsABlock(s: string, p: nat) returns (lead: string, body: string)
    requires MatchAt(s, p).Some?
    ensures IsBlockText(s, p, MatchAt(s, p).value, lead, body)
  {
    hide At, BlockAt, Solid;
    lead := if At(s, p, "\n") then "\n" else "";
    if lead == "" {
      NothingAt(s, p);
    } else {
      NoMarkerAt(s, p);
    }
    assert MatchAt(s, p) == BlockAt(s, p + |lead|, p);
    body := BlockIsText(s, p + |lead|, p);
    var m := MatchAt(s, p).value;
    var head, tail := BEGIN + m.id + " " + m.hash + " " + CLOSE, body + END;
    AtJoin(s, p + |lead|, head, tail);
    AtJoin(s, p, lead, head + tail);
    assert lead + head + tail == lead + (head + tail);
    assert |lead + head + tail| == |lead| + |head| + |tail|;
  }

  lemma {:induction false} NothingAt(s: string, p: nat)
    ensures At(s, p, "") <==> p <= |s|
    ensures forall start :: BlockAt(s, p, start).Some? ==> p <= |s|
  {
    if p <= |s| {
      assert s[p..p] == "";
    }
  }

  lemma {:induction false} AtFirst(s: string, p: nat, lit: string)
    ensures At(s, p, lit) && lit != "" ==> p < |s| && s[p] == lit[0]
  {
    if At(s, p, lit) && lit != "" {
      assert s[p] == s[p..p + |lit|][0];
    }
  }

  /** A newline is no begin marker. */
  lemma {:induction false} NoMarkerAt(s: string, p: nat)
    requires At(s, p, "\n")
    ensures BlockAt(s, p, p).None?
  {
    hide At;
    AtFirst(s, p, "\n");
    AtFirst(s, p, BEGIN);
  }

  lemma {:induction false} AtJoin(s: string, p: nat, a: string, b: string)
    ensures At(s, p, a + b) <==> At(s, p, a) && At(s, p + |a|, b)
  {
    if p + |a| + |b| <= |s| {
      assert s[p..p + |a + b|] == s[p..p + |a|] + s[p + |a|..p + |a| + |b|];
      if At(s, p, a + b) {
        assert s[p..p + |a|] == (a + b)[..|a|] == a;
        assert s[p + |a|..p + |a| + |b|] == (a + b)[|a|..] == b;
      }
    }
  }

  lemma {:induction false} BlockIsText(s: string, p: nat, start: nat) returns (body: string)
    requires BlockAt(s, p, start).Some?
    ensures var m := BlockAt(s, p, start).value;
      var head := BEGIN + m.id + " " + m.hash + " " + CLOSE;
      && Solid(m.id) && Solid(m.hash) && At(s, p, head) && At(s, p + |head|, body + END)
      && m.end == p + |head| + |body + END| + (if At(s, p + |head| + |body + END|, "\n") then 1 else 0)
      && forall k :: 0 <= k < |body| ==> !At(body + END, k, END)
  {
    hide At, Solid, BlockAt;
    var m := BlockAt(s, p, start).value;
    var e, q := BlockParts(s, p, start);
    body := s[e..q];
    AtPieces(s, p, BEGIN, m.id, m.hash, CLOSE);
    ShortestBody(s, e, q, END);
  }

  lemma {:induction false} ShortestBody(s: string, e: nat, q: nat, end: string)
    requires e <= q <= |s| && At(s, q, end) && forall k :: e <= k < q ==> !At(s, k, end)
    ensures At(s, e, s[e..q] + end) && forall k :: 0 <= k < q - e ==> !At(s[e..q] + end, k, end)
  {
    hide At;
    AtSlice(s, e, q);
    AtJoin(s, e, s[e..q], end);
    forall k | 0 <= k < q - e ensures !At(s[e..q] + end, k, end) {
      if At(s[e..q] + end, k, end) {
        AtInside(s, e, s[e..q] + end, k, end);
      }
    }
  }

  /** Where the parts of a matched block are: the body from e to q. */
  lemma {:induction false} BlockParts(s: string, p: nat, start: nat) returns (e: nat, q: nat)
    requires BlockAt(s, p, start).Some?
    ensures var m := BlockAt(s, p, start).value;
      && Solid(m.id) && Solid(m.hash)
      && At(s, p, BEGIN) && At(s, p + |BEGIN|, m.id) && At(s, p + |BEGIN| + |m.id|, " ")
      && At(s, p + |BEGIN| + |m.id| + 1, m.hash) && At(s, p + |BEGIN| + |m.id| + 1 + |m.hash|, " " + CLOSE)
      && e == p + |BEGIN| + |m.id| + 1 + |m.hash| + 1 + |CLOSE| <= q && q + |END| <= |s| && At(s, q, END)
      && m.end == q + |END| + (if At(s, q + |END|, "\n") then 1 else 0)
    ensures forall k :: e <= k < q ==> !At(s, k, END)
  {
    hide BlockAt, At, Index;
    var b, d;
    b, d, q := BlockShape(s, p, start);
    e := d + 1 + |CLOSE|;
    AtSlice(s, p + |BEGIN|, b);
    AtSlice(s, b + 1, d);
    AtEnd(s, q, END);
  }

  lemma {:induction false} AtEnd(s: string, p: nat, lit: string)
    ensures At(s, p, lit) ==> p + |lit| <= |s|
  {
  }

  /** The steps of the pattern over a matched block. */
  lemma {:induction false} BlockShape(s: string, p: nat, start: nat) returns (b: nat, d: nat, q: nat)
    requires BlockAt(s, p, start).Some?
    ensures var a := p + |BEGIN|;
      && At(s, p, BEGIN) && a < b < d <= |s| && b == WordEnd(s, a) && At(s, b, " ")
      && b + 1 < d == WordEnd(s, b + 1) && At(s, d, " " + CLOSE) && Index(s, d + 1 + |CLOSE|, END) == Some(q)
      && BlockAt(s, p, start) ==
           Some(Match(start, if At(s, q + |END|, "\n") then q + |END| + 1 else q + |END|, s[a..b], s[b + 1..d]))
  {
    hide Index, WordEnd;
    var a := p + |BEGIN|;
    b := WordEnd(s, a);
    d := WordEnd(s, b + 1);
    q := Index(s, d + 1 + |CLOSE|, END).value;
  }

  lemma {:induction false} AtSlice(s: string, e: nat, q: nat)
    requires e <= q <= |s|
    ensures At(s, e, s[e..q])
  {
  }

  lemma {:induction false} AtInside(s: string, p: nat, text: string, k: nat, lit: string)
    requires At(s, p, text) && At(text, k, lit)
    ensures At(s, p + k, lit)
  {
    assert k + |lit| <= |text|;
    forall i | 0 <= i < |lit| ensures s[p + k + i] == lit[i] {
      assert s[p..p + |text|][k + i] == text[k + i] && text[k..k + |lit|][i] == lit[i];
    }
    assert s[p + k..p + k + |lit|] == lit;
  }

  lemma {:induction false} AtPieces(s: string, p: nat, begin: string, id: string, h: string, close: string)
    requires At(s, p, begin) && At(s, p + |begin|, id) && At(s, p + |begin| + |id|, " ")
    requires At(s, p + |begin| + |id| + 1, h) && At(s, p + |begin| + |id| + 1 + |h|, " " + close)
    ensures At(s, p, begin + id + " " + h + " " + close)
    ensures |begin + id + " " + h + " " + close| == |begin| + |id| + 1 + |h| + 1 + |close|
  {
    hide At;
    AtJoin(s, p, begin, id);
    AtJoin(s, p, begin + id, " ");
    AtJoin(s, p, begin + id + " ", h);
    AtJoin(s, p, begin + id + " " + h, " " + close);
    assert begin + id + " " + h + (" " + close) == begin + id + " " + h + " " + close;
  }

  ghost predicate InOrder(s: string, p: nat, ms: seq<Match>) {
    && (forall i :: 0 <= i < |ms| ==> p <= ms[i].start < ms[i].end <= |s|)
    && (forall i, j :: 0 <= i < j < |ms| ==> ms[i].end <= ms[j].start)
  }

  /** The successive matches from p on. */
  function Matches(s: string, p: nat): (ms: seq<Match>)
    ensures InOrder(s, p, ms)
    decreases |s| - p
  {
    match NextMatch(s, p)
    case None => []
    case Some(m) => [m] + Matches(s, m.end)
  }

  /** The first match with the id. */
  function First(ms: seq<Match>, id: string): (r: Option<Match>)
    ensures r.Some? ==> r.value in ms && r.value.id == id
    ensures r.None? ==> forall i :: 0 <= i < |ms| ==> ms[i].id != id
  {
    if ms == [] then None else if ms[0].id == id then Some(ms[0]) else First(ms[1..], id)
  }

  // ---- the operations ----

  /** The body between the markers of a matched block. */
  function BodyOf(full: string): string {
    match (Index(full, 0, CLOSE), LastIndex(full, |full|, "\n" + END))
    case (Some(a), Some(b)) => if b < a + |CLOSE| then "" else full[a + |CLOSE|..b]
    case _ => ""
  }

  function Found(content: string, id: string): Option<(string, string)> {
    match First(Matches(content, 0), id)
    case None => None
    case Some(m) => Some((m.hash, BodyOf(content[m.start..m.end])))
  }

  function Spliced(content: string, m: Match, f: string -> string): string
    requires m.start <= m.end <= |content|
  {
    content[..m.start] + f(content[m.start..m.end]) + content[m.end..]
  }

  predicate Starts(m: string, c: char) {
    m != "" && m[0] == c
  }

  predicate Ends(m: string, c: char) {
    m != "" && m[|m| - 1] == c
  }

  /** The replacement of a block keeps the newlines around it. */
  function Fresh(block: string, m: string): string {
    (if Starts(m, '\n') then "\n" else "") + block + (if Ends(m, '\n') then "\n" else "")
  }

  function Gone(m: string): string {
    if Starts(m, '\n') && Ends(m, '\n') then "\n" else ""
  }

  function Lead(content: string): string {
    if content == "" then "" else if Ends(content, '\n') then content + "\n" else content + "\n" + "\n"
  }

  function TrimNewlines(s: string): string {
    if Ends(s, '\n') then TrimNewlines(s[..|s| - 1]) else s
  }

  function Tidy(s: string): string {
    if TrimNewlines(s) == "" then "" else TrimNewlines(s) + "\n"
  }

  function Upserted(hash: Hasher, content: string, id: string, body: string): string {
    var block := ManagedBlock(hash, id, body);
    match First(Matches(content, 0), id)
    case Some(m) => Spliced(content, m, s => Fresh(block, s))
    case None => Lead(content) + block + "\n"
  }

  function Removed(content: string, id: string): (string, bool) {
    match First(Matches(content, 0), id)
    case Some(m) => (Tidy(Spliced(content, m, Gone)), true)
    case None => (content, false)
  }

  lemma {:induction false} FirstSnoc(ms: seq<Match>, m: Match, id: string)
    ensures First(ms + [m], id) == if First(ms, id).Some? then First(ms, id) else if m.id == id then Some(m) else None
  {
    if ms == [] {
      assert ms + [m] == [m];
      assert [m][1..] == [];
    } else {
      FirstSnoc(ms[1..], m, id);
      assert (ms + [m])[1..] == ms[1..] + [m];
    }
  }

  /** FindBlock: the first matched block with the id. */
  method FindBlock(content: string, id: string) returns (r: Option<(string, string)>)
    ensures r == Found(content, id)
  {
    hide Index, LastIndex, BodyOf, BlockAt;
    var ms := Matches(content, 0);
    for i := 0 to |ms|
      invariant First(ms[..i], id).None?
    {
      assert ms[..i + 1] == ms[..i] + [ms[i]];
      FirstSnoc(ms[..i], ms[i], id);
      if ms[i].id == id {
        FirstOfMore(ms, i + 1, id);
        return Some((ms[i].hash, BodyOf(content[ms[i].start..ms[i].end])));
      }
    }
    assert ms[..|ms|] == ms;
    return None;
  }

  lemma {:induction false} FirstOfMore(ms: seq<Match>, n: nat, id: string)
    requires n <= |ms| && First(ms[..n], id).Some?
    ensures First(ms, id) == First(ms[..n], id)
  {
    if n > 0 && ms[0].id != id {
      assert ms[..n][1..] == ms[1..][..n - 1];
      FirstOfMore(ms[1..], n - 1, id);
    }
  }

  /** The text written up to pos when the first match with the id, if passed, is rewritten. */
  ghost predicate Passed(content: string, first: Option<Match>, f: string -> string, pos: nat, out: string) {
    && pos <= |content|
    && (first.None? ==> out == content[..pos])
    && (first.Some? ==>
          && first.value.start <= first.value.end <= pos
          && out == content[..first.value.start] + f(content[first.value.start..first.value.end]) +
            content[first.value.end..pos])
  }

  lemma {:induction false} Slices(s: string, a: nat, b: nat, c: nat)
    requires a <= b <= c <= |s|
    ensures s[a..b] + s[b..c] == s[a..c]
  {
  }

  lemma {:induction false} PassesBy(content: string, first: Option<Match>, f: string -> string, pos: nat,
      out: string, next: nat)
    requires Passed(content, first, f, pos, out) && pos <= next <= |content|
    ensures Passed(content, first, f, next, out + content[pos..next])
  {
    if first.Some? {
      Slices(content, first.value.end, pos, next);
    } else {
      Slices(content, 0, pos, next);
    }
  }

  lemma {:induction false} PassesFirst(content: string, m: Match, f: string -> string, pos: nat, out: string)
    requires Passed(content, None, f, pos, out) && pos <= m.start <= m.end <= |content|
    ensures Passed(content, Some(m), f, m.end, out + content[pos..m.start] + f(content[m.start..m.end]))
  {
    Slices(content, 0, pos, m.start);
  }

  /** Every match passes by; the first with the id is rewritten. */
  method ReplaceFirst(content: string, id: string, f: string -> string) returns (out: string, hit: bool)
    ensures hit <==> First(Matches(content, 0), id).Some?
    ensures hit ==> out == Spliced(content, First(Matches(content, 0), id).value, f)
    ensures !hit ==> out == content
  {
    hide Matches, First, Passed;
    var ms := Matches(content, 0);
    var pos := 0;
    out, hit := "", false;
    NothingPassed(content, f, id);
    for i := 0 to |ms|
      invariant pos == (if i == 0 then 0 else ms[i - 1].end) && pos <= |content|
      invariant hit <==> First(ms[..i], id).Some?
      invariant Passed(content, First(ms[..i], id), f, pos, out)
    {
      var m := ms[i];
      assert ms[..i + 1] == ms[..i] + [m];
      FirstSnoc(ms[..i], m, id);
      assert pos <= m.start;
      var text := content[m.start..m.end];
      if m.id != id || hit {
        PassesBy(content, First(ms[..i], id), f, pos, out, m.end);
        Slices(content, pos, m.start, m.end);
        out := out + (content[pos..m.start] + text);
      } else {
        PassesFirst(content, m, f, pos, out);
        hit := true;
        out := out + content[pos..m.start] + f(text);
      }
      pos := m.end;
    }
    assert ms[..|ms|] == ms;
    PassesBy(content, First(ms, id), f, pos, out, |content|);
    out := out + content[pos..];
    AllPassed(content, First(ms, id), f, out);
  }

  lemma {:induction false} NothingPassed(content: string, f: string -> string, id: string)
    ensures First([], id).None? && Passed(content, First([], id), f, 0, "")
  {
  }

  lemma {:induction false} AllPassed(content: string, first: Option<Match>, f: string -> string, out: string)
    requires Passed(content, first, f, |content|, out)
    ensures first.None? ==> out == content
    ensures first.Some? ==> first.value.start <= first.value.end <= |content| && out == Spliced(content, first.value, f)
  {
  }

  /** UpsertBlock: replaces the first block with the id, or appends one after a blank line. */
  method UpsertBlock(hash: Hasher, content: string, id: string, body: string) returns (out: string)
    ensures out == Upserted(hash, content, id, body)
  {
    hide Matches, ManagedBlock, Fresh;
    var block := ManagedBlock(hash, id, body);
    var replaced: bool;
    out, replaced := ReplaceFirst(content, id, s => Fresh(block, s));
    if !replaced {
      out := Lead(content) + block + "\n";
    }
  }

  method RemoveBlock(content: string, id: string) returns (out: string, removed: bool)
    ensures (out, removed) == Removed(content, id)
  {
    hide Matches;
    out, removed := ReplaceFirst(content, id, Gone);
    if removed {
      out := Tidy(out);
    }
  }

  // ---- a text without markers ----

  /** No begin marker anywhere. */
  ghost predicate MarkerFree(text: string) {
    !Holds(text, BEGIN)
  }

  predicate OneLine(lit: string) {
    forall i :: 0 <= i < |lit| ==> lit[i] != '\n'
  }

  lemma {:induction false} AtMiddle(a: string, lit: string, b: string)
    ensures At(a + lit + b, |a|, lit)
  {
  }

  lemma {:induction false} IndexIs(s: string, p: nat, lit: string, q: nat)
    requires p <= q && At(s, q, lit) && forall k :: p <= k < q ==> !At(s, k, lit)
    ensures Index(s, p, lit) == Some(q)
  {
    hide At;
    hide Index;
    assert Index(s, p, lit).Some?;
  }

  lemma {:induction false} LastIndexIs(s: string, n: nat, lit: string, q: nat)
    requires q < n && At(s, q, lit) && forall k :: q < k < n ==> !At(s, k, lit)
    ensures LastIndex(s, n, lit) == Some(q)
  {
    hide At;
    hide LastIndex;
    assert LastIndex(s, n, lit).Some?;
  }

  lemma {:induction false} WordEndIs(a: string, w: string, b: string)
    requires Solid(w) && b != "" && IsSpace(b[0])
    ensures WordEnd(a + w + b, |a|) == |a| + |w|
  {
    hide WordEnd;
    var s := a + w + b;
    assert s[|a| + |w|] == b[0];
    assert forall j :: |a| <= j < |a| + |w| ==> s[j] == w[j - |a|];
  }

  /** A one-line literal that starts before a newline and is not inside the text before it is nowhere. */
  lemma {:induction false} NotAcross(text: string, gap: string, rest: string, lit: string, k: nat)
    requires OneLine(lit) && lit != "" && !Holds(text, lit) && k < |text| + |gap|
    requires gap != "" && forall i :: 0 <= i < |gap| ==> gap[i] == '\n'
    ensures !At(text + gap + rest, k, lit)
  {
    var s := text + gap + rest;
    if k + |lit| <= |text| {
      assert s[k..k + |lit|] == text[k..k + |lit|];
      assert !At(text, k, lit);
    } else if k + |lit| <= |s| {
      var j := if k < |text| then |text| else k;
      assert s[j] == '\n' && s[k..k + |lit|][j - k] == s[j];
    }
  }

  /** The newlines upsert puts between a text and its block. */
  function Gap(t: string): string {
    if t == "" then "" else if Ends(t, '\n') then "\n" else "\n" + "\n"
  }

  lemma {:induction false} LeadIs(t: string)
    ensures Lead(t) == t + Gap(t)
    ensures t != "" ==> Gap(t) != "" && Ends(Lead(t), '\n')
  {
  }

  lemma {:induction false} MarkersAreOneLine()
    ensures OneLine(BEGIN) && OneLine(END) && BEGIN != "" && END != ""
  {
  }

  /** No block begins inside the text or the gap after it. */
  lemma {:induction false} NoneBefore(t: string, rest: string, p: nat)
    requires MarkerFree(t) && p < |Lead(t)|
    ensures !At(Lead(t) + rest, p, BEGIN)
  {
    hide At;
    LeadIs(t);
    MarkersAreOneLine();
    NotAcross(t, Gap(t), rest, BEGIN, p);
  }

  lemma {:induction false} NoMatches(t: string)
    requires MarkerFree(t)
    ensures Matches(t, 0) == []
  {
    forall k: nat ensures MatchAt(t, k).None? {
      assert !At(t, k, BEGIN) && !At(t, k + 1, BEGIN);
    }
    assert NextMatch(t, 0).None?;
  }

  /** The matched block of a written one, wherever it stands. */
  lemma {:induction false} BlockIsMatched(hash: Hasher, pre: string, id: string, body: string, start: nat)
    requires Solid(id) && !Holds(body, END)
    ensures var s := pre + ManagedBlock(hash, id, body) + "\n";
      BlockAt(s, |pre|, start) == Some(Match(start, |s|, id, hash(body)))
  {
    hide At, WordEnd, Index, Holds;
    var h, tail := hash(body), body + "\n" + END + "\n";
    var s := pre + ManagedBlock(hash, id, body) + "\n";
    var a, b, d := |pre| + |BEGIN|, |pre| + |BEGIN| + |id|, |pre| + |BEGIN| + |id| + 1 + |h|;
    BlockText(BEGIN, id, h, CLOSE, body, END, pre);
    Header(pre, BEGIN, id, h, CLOSE, tail, s);
    HeaderWords(pre, BEGIN, id, h, CLOSE, tail, s);
    var p5 := pre + BEGIN + id + " " + h + " " + CLOSE;
    EndMarker(p5, body, s);
    assert |p5| == d + 1 + |CLOSE|;
  }

  lemma {:induction false} BlockText(begin: string, id: string, h: string, close: string, body: string, end: string,
      pre: string)
    ensures pre + (begin + id + " " + h + " " + close + body + "\n" + end) + "\n" ==
      pre + begin + id + " " + h + " " + close + (body + "\n" + end + "\n")
  {
  }

  /** The header of a block, piece by piece. */
  lemma {:induction false} Header(pre: string, begin: string, id: string, h: string, close: string, tail: string,
      s: string)
    requires s == pre + begin + id + " " + h + " " + close + tail
    ensures At(s, |pre|, begin) && At(s, |pre| + |begin| + |id|, " ")
    ensures At(s, |pre| + |begin| + |id| + 1 + |h|, " " + close)
  {
    hide At;
    var r := id + " " + h + " " + close + tail;
    assert s == pre + begin + r;
    AtMiddle(pre, begin, r);
    var p2, r2 := pre + begin + id, h + " " + close + tail;
    assert s == p2 + " " + r2;
    AtMiddle(p2, " ", r2);
    var p4 := pre + begin + id + " " + h;
    assert s == p4 + (" " + close) + tail;
    AtMiddle(p4, " " + close, tail);
  }

  lemma {:induction false} HeaderWords(pre: string, begin: string, id: string, h: string, close: string,
      tail: string, s: string)
    requires Solid(id) && Solid(h) && s == pre + begin + id + " " + h + " " + close + tail
    ensures var a := |pre| + |begin|;
      && |s| > a + |id| + 1 + |h|
      && WordEnd(s, a) == a + |id| && s[a..a + |id|] == id
      && WordEnd(s, a + |id| + 1) == a + |id| + 1 + |h| && s[a + |id| + 1..a + |id| + 1 + |h|] == h
  {
    hide WordEnd, Solid;
    var p1, r1 := pre + begin, " " + h + " " + close + tail;
    assert s == p1 + id + r1;
    WordEndIs(p1, id, r1);
    var p3, r3 := pre + begin + id + " ", " " + close + tail;
    assert s == p3 + h + r3;
    WordEndIs(p3, h, r3);
  }

  lemma {:induction false} EndMarker(pre: string, body: string, s: string)
    requires !Holds(body, END) && s == pre + (body + "\n" + END + "\n")
    ensures Index(s, |pre|, END) == Some(|pre| + |body| + 1)
    ensures At(s, |pre| + |body| + 1 + |END|, "\n") && |pre| + |body| + 1 + |END| + 1 == |s|
  {
    hide Index, Holds, At;
    MarkersAreOneLine();
    EndFound(pre, body, END, s);
  }

  lemma {:induction false} EndFound(pre: string, body: string, end: string, s: string)
    requires OneLine(end) && end != "" && !Holds(body, end) && s == pre + (body + "\n" + end + "\n")
    ensures Index(s, |pre|, end) == Some(|pre| + |body| + 1)
    ensures At(s, |pre| + |body| + 1 + |end|, "\n") && |pre| + |body| + 1 + |end| + 1 == |s|
  {
    hide Index, Holds, At, OneLine;
    var q, before := |pre| + |body| + 1, pre + body + "\n";
    assert s == before + end + "\n";
    AtMiddle(before, end, "\n");
    assert s == (before + end) + "\n" + "";
    AtMiddle(before + end, "\n", "");
    forall k | |pre| <= k < q ensures !At(s, k, end) {
      NotEarlier(pre, body, end, s, k);
    }
    IndexIs(s, |pre|, end, q);
  }

  lemma {:induction false} NotEarlier(pre: string, body: string, end: string, s: string, k: nat)
    requires OneLine(end) && end != "" && !Holds(body, end) && s == pre + (body + "\n" + end + "\n")
    requires |pre| <= k < |pre| + |body| + 1
    ensures !At(s, k, end)
  {
    hide Holds, At, OneLine;
    var r := end + "\n";
    assert body + "\n" + end + "\n" == body + "\n" + r;
    NotAcross(body, "\n", r, end, k - |pre|);
    Shifted(pre, body + "\n" + r, k - |pre|, end);
  }

  lemma {:induction false} Shifted(a: string, b: string, k: nat, lit: string)
    ensures At(a + b, |a| + k, lit) <==> At(b, k, lit)
  {
    if k + |lit| <= |b| {
      assert (a + b)[|a| + k..|a| + k + |lit|] == b[k..k + |lit|];
    }
  }

  /** The start of the match: at the newline before the block, or at the block when the text is empty. */
  function StartOf(t: string): nat {
    if t == "" then 0 else |Lead(t)| - 1
  }

  /** After an upsert into a marker-free text there is exactly one match: the block just written. */
  lemma {:induction false} OneMatch(hash: Hasher, t: string, id: string, body: string)
    requires MarkerFree(t) && Solid(id) && !Holds(body, END)
    ensures var s := Lead(t) + ManagedBlock(hash, id, body) + "\n";
      Matches(s, 0) == [Match(StartOf(t), |s|, id, hash(body))]
  {
    var block := ManagedBlock(hash, id, body);
    var s, at := Lead(t) + block + "\n", StartOf(t);
    hide ManagedBlock, Solid, Holds;
    assert s == Lead(t) + (block + "\n");
    LeadIs(t);
    BlockIsMatched(hash, Lead(t), id, body, at);
    MatchOnly(t, block + "\n", s, Match(at, |s|, id, hash(body)));
  }

  lemma {:induction false} MatchOnly(t: string, rest: string, s: string, m: Match)
    requires MarkerFree(t) && s == Lead(t) + rest && m.start == StartOf(t) && m.end == |s|
    requires BlockAt(s, |Lead(t)|, m.start) == Some(m)
    ensures Matches(s, 0) == [m]
  {
    hide BlockAt, MarkerFree;
    LeadIs(t);
    forall k | 0 <= k < m.start ensures MatchAt(s, k).None? {
      NoneBefore(t, rest, k);
      NoneBefore(t, rest, k + 1);
      NoBlock(s, k, k);
      NoBlock(s, k + 1, k);
    }
    MatchHere(t, s, m);
    assert NextMatch(s, 0) == Some(m);
    NothingAtEnd(s);
  }

  lemma {:induction false} NoBlock(s: string, p: nat, start: nat)
    requires !At(s, p, BEGIN)
    ensures BlockAt(s, p, start).None?
  {
  }

  lemma {:induction false} MatchHere(t: string, s: string, m: Match)
    requires Lead(t) <= s && m.start == StartOf(t) && BlockAt(s, |Lead(t)|, m.start) == Some(m)
    ensures MatchAt(s, m.start) == Some(m)
  {
    hide BlockAt;
    LeadIs(t);
    if t != "" {
      assert s[m.start] == Lead(t)[m.start] == '\n';
      assert s[m.start..m.start + 1] == "\n";
    } else {
      BeginIsNoNewline(s);
    }
  }

  lemma {:induction false} BeginIsNoNewline(s: string)
    ensures At(s, 0, BEGIN) ==> !At(s, 0, "\n")
  {
    if |s| > 0 {
      assert s[0..1] == [s[0]];
    }
    if |s| >= |BEGIN| {
      assert s[0..|BEGIN|][0] == s[0] && BEGIN[0] == '<';
    }
  }

  lemma {:induction false} NothingAtEnd(s: string)
    ensures Matches(s, |s|) == []
  {
    assert MatchAt(s, |s|).None?;
  }

  // ---- the laws ----

  /** The text a first upsert writes. */
  lemma {:induction false} UpsertedText(hash: Hasher, t: string, id: string, body: string)
    requires MarkerFree(t)
    ensures Upserted(hash, t, id, body) == Lead(t) + ManagedBlock(hash, id, body) + "\n"
  {
    hide Matches, ManagedBlock;
    NoMatches(t);
  }

  lemma {:induction false} TheMatch(hash: Hasher, t: string, id: string, body: string)
    requires MarkerFree(t) && Solid(id) && !Holds(body, END)
    ensures var s := Upserted(hash, t, id, body); var m := Match(StartOf(t), |s|, id, hash(body));
      && s == Lead(t) + ManagedBlock(hash, id, body) + "\n"
      && First(Matches(s, 0), id) == Some(m)
      && StartOf(t) <= |Lead(t)| <= |s|
      && s[StartOf(t)..] == (if t == "" then "" else "\n") + ManagedBlock(hash, id, body) + "\n"
      && s[..StartOf(t)] == Lead(t)[..StartOf(t)]
  {
    hide Matches, ManagedBlock, MarkerFree, Holds, Solid;
    UpsertedText(hash, t, id, body);
    OneMatch(hash, t, id, body);
    hide Upserted;
    LeadIs(t);
    var s, block := Upserted(hash, t, id, body), ManagedBlock(hash, id, body);
    if t != "" {
      assert Lead(t) == Lead(t)[..StartOf(t)] + "\n";
      assert s == Lead(t)[..StartOf(t)] + ("\n" + block + "\n");
    }
  }

  lemma {:induction false} BodyStart(lead: string, begin: string, id: string, h: string, tail: string)
    requires lead == "" || lead == "\n"
    requires OneLine(begin) && |begin| >= 3 && Solid(id) && Solid(h)
    ensures Index(lead + begin + id + " " + h + " " + CLOSE + tail, 0, CLOSE) ==
      Some(|lead| + |begin| + |id| + 1 + |h| + 1)
  {
    var head := lead + begin + id + " " + h + " ";
    var s := lead + begin + id + " " + h + " " + CLOSE + tail;
    assert s == head + CLOSE + tail;
    AtMiddle(head, CLOSE, tail);
    assert forall i :: |lead| <= i < |head| ==> head[i] != '\n';
    forall k | 0 <= k < |head| ensures !At(s, k, CLOSE) {
      assert s[k + 3] != '\n' by {
        assert k + 3 < |head| ==> s[k + 3] == head[k + 3];
        assert k + 3 >= |head| ==> s[k + 3] == CLOSE[k + 3 - |head|];
      }
      assert s[k..k + 4][3] == s[k + 3];
    }
    IndexIs(s, 0, CLOSE, |head|);
  }

  lemma {:induction false} BodyEnd(head: string, body: string)
    ensures var s := head + body + "\n" + END + "\n"; LastIndex(s, |s|, "\n" + END) == Some(|head| + |body|)
  {
    var s, q, lit := head + body + "\n" + END + "\n", |head| + |body|, "\n" + END;
    assert s == (head + body) + lit + "\n";
    AtMiddle(head + body, lit, "\n");
    forall k | q < k < |s| ensures !At(s, k, lit) {
      if k + |lit| <= |s| {
        assert k == q + 1;
        assert s[k..k + |lit|][0] == s[k] && s[k] == END[0];
      }
    }
    LastIndexIs(s, |s|, lit, q);
  }

  lemma {:induction false} BodyIsBack(hash: Hasher, lead: string, id: string, body: string)
    requires (lead == "" || lead == "\n") && Solid(id)
    ensures BodyOf(lead + ManagedBlock(hash, id, body) + "\n") == body
  {
    hide Index, LastIndex, At;
    var h := hash(body);
    var head, full := lead + BEGIN + id + " " + h + " " + CLOSE, lead + ManagedBlock(hash, id, body) + "\n";
    var tail := body + "\n" + END + "\n";
    BlockText(BEGIN, id, h, CLOSE, body, END, lead);
    assert full == head + tail;
    MarkersAreOneLine();
    BodyStart(lead, BEGIN, id, h, tail);
    BodyEnd(head, body);
    assert full == head + body + "\n" + END + "\n";
    assert full[|head|..|head| + |body|] == body;
  }

  /** Find after upsert returns the body and its hash. */
  lemma {:induction false} FindAfterUpsert(hash: Hasher, t: string, id: string, body: string)
    requires MarkerFree(t) && Solid(id) && !Holds(body, END)
    ensures Found(Upserted(hash, t, id, body), id) == Some((hash(body), body))
  {
    hide Matches, ManagedBlock, MarkerFree, Holds, Solid, Upserted, BodyOf;
    TheMatch(hash, t, id, body);
    BodyIsBack(hash, if t == "" then "" else "\n", id, body);
    var s := Upserted(hash, t, id, body);
    assert s[StartOf(t)..|s|] == s[StartOf(t)..];
  }

  lemma {:induction false} TrimSnoc(s: string)
    ensures TrimNewlines(s + "\n") == TrimNewlines(s)
  {
    assert (s + "\n")[..|s|] == s;
  }

  lemma {:induction false} TidyLead(t: string)
    ensures Tidy(Lead(t)) == Tidy(t)
  {
    TrimSnoc(t);
    TrimSnoc(t + "\n");
  }

  lemma {:induction false} GoneIs(lead: string, block: string)
    requires (lead == "" || lead == "\n") && block != "" && block[0] != '\n'
    ensures Gone(lead + block + "\n") == lead
  {
    var m := lead + block + "\n";
    assert m[|m| - 1] == '\n';
    assert m[0] == if lead == "" then block[0] else '\n';
  }

  lemma {:induction false} BlockBegins(hash: Hasher, id: string, body: string)
    ensures ManagedBlock(hash, id, body) != "" && ManagedBlock(hash, id, body)[0] != '\n'
  {
    var rest := id + " " + hash(body) + " " + CLOSE + body + "\n" + END;
    assert ManagedBlock(hash, id, body)[0] == BEGIN[0];
  }

  /** Remove after upsert leaves the text with its trailing newlines reduced to one. */
  lemma {:induction false} RemoveAfterUpsert(hash: Hasher, t: string, id: string, body: string)
    requires MarkerFree(t) && Solid(id) && !Holds(body, END)
    ensures Removed(Upserted(hash, t, id, body), id) == (Tidy(t), true)
  {
    hide Matches, ManagedBlock, MarkerFree, Holds, Solid, Upserted, Tidy, Gone;
    TheMatch(hash, t, id, body);
    var s, lead := Upserted(hash, t, id, body), if t == "" then "" else "\n";
    BlockBegins(hash, id, body);
    GoneIs(lead, ManagedBlock(hash, id, body));
    LeadIs(t);
    assert s[StartOf(t)..|s|] == s[StartOf(t)..];
    assert s[..StartOf(t)] + lead + s[|s|..] == Lead(t);
    TidyLead(t);
  }

  /** Empty, or ending in exactly one newline after other text. */
  predicate IsTidy(t: string) {
    t == "" || (|t| >= 2 && t[|t| - 1] == '\n' && t[|t| - 2] != '\n')
  }

  /** Removing what was upserted gives the text back byte for byte exactly when the text is tidy. */
  lemma {:induction false} RemoveUndoesUpsert(hash: Hasher, t: string, id: string, body: string)
    requires MarkerFree(t) && Solid(id) && !Holds(body, END)
    ensures Removed(Upserted(hash, t, id, body), id).0 == t <==> IsTidy(t)
  {
    hide Upserted, Removed, MarkerFree, Solid, Holds;
    RemoveAfterUpsert(hash, t, id, body);
    TidyIff(t);
  }

  /** A text without a final newline comes back with one. */
  lemma {:induction false} RemoveAddsANewline(hash: Hasher)
    ensures Removed(Upserted(hash, "a", "context", "b"), "context") == ("a\n", true)
  {
    hide Upserted, Removed;
    RemoveAfterUpsert(hash, "a", "context", "b");
    assert TrimNewlines("a") == "a" && "a" + "\n" == "a\n";
  }

  lemma {:induction false} TrimIs(t: string)
    ensures TrimNewlines(t) <= t && !Ends(TrimNewlines(t), '\n')
  {
    if Ends(t, '\n') {
      TrimIs(t[..|t| - 1]);
    }
  }

  lemma {:induction false} TidyIff(t: string)
    ensures Tidy(t) == t <==> IsTidy(t)
  {
    TrimIs(t);
    var u := TrimNewlines(t);
    if IsTidy(t) && t != "" {
      var v := t[..|t| - 1];
      assert !Ends(v, '\n');
      assert TrimNewlines(v) == v;
      assert u == v && t == v + "\n";
    }
    if Tidy(t) == t && t != "" {
      assert t == u + "\n";
      assert t[|t| - 2] == u[|u| - 1];
    }
  }

  lemma {:induction false} FreshIs(lead: string, block: string, next: string)
    requires (lead == "" || lead == "\n") && block != "" && block[0] != '\n'
    ensures Fresh(next, lead + block + "\n") == lead + next + "\n"
  {
    var m := lead + block + "\n";
    assert m[|m| - 1] == '\n';
    assert m[0] == if lead == "" then block[0] else '\n';
  }

  lemma {:induction false} UpsertInto(hash: Hasher, s: string, id: string, body: string, m: Match)
    requires First(Matches(s, 0), id) == Some(m)
    ensures m.start <= m.end <= |s|
    ensures Upserted(hash, s, id, body) ==
      s[..m.start] + Fresh(ManagedBlock(hash, id, body), s[m.start..m.end]) + s[m.end..]
  {
    hide Matches, ManagedBlock, Fresh;
  }

  lemma {:induction false} Reassembled(before: string, lead: string, block: string, all: string)
    requires before + lead == all
    ensures before + (lead + block + "\n") + "" == all + block + "\n"
  {
  }

  /** A second upsert equals upserting the last body directly. */
  lemma {:induction false} LastUpsertWins(hash: Hasher, t: string, id: string, first: string, last: string)
    requires MarkerFree(t) && Solid(id) && !Holds(first, END)
    ensures Upserted(hash, Upserted(hash, t, id, first), id, last) == Upserted(hash, t, id, last)
  {
    hide Matches, ManagedBlock, MarkerFree, Holds, Solid, Fresh, Upserted, First;
    TheMatch(hash, t, id, first);
    UpsertedText(hash, t, id, last);
    var s, lead, block := Upserted(hash, t, id, first), if t == "" then "" else "\n", ManagedBlock(hash, id, last);
    UpsertInto(hash, s, id, last, Match(StartOf(t), |s|, id, hash(first)));
    BlockBegins(hash, id, first);
    FreshIs(lead, ManagedBlock(hash, id, first), block);
    LeadIs(t);
    assert s[StartOf(t)..|s|] == s[StartOf(t)..];
    assert s[|s|..] == "";
    assert Lead(t)[..StartOf(t)] + lead == Lead(t);
    Reassembled(Lead(t)[..StartOf(t)], lead, block, Lead(t));
  }

  // ---- what an upsert leaves alone ----

  lemma {:induction false} MatchesAreMatches(s: string, p: nat, m: Match)
    requires m in Matches(s, p)
    ensures MatchAt(s, m.start) == Some(m)
    decreases |s| - p
  {
    hide MatchAt;
    var first := NextMatch(s, p).value;
    if m != first {
      MatchesAreMatches(s, first.end, m);
    }
  }

  /** The newlines of a matched text are those before and after its markers. */
  lemma {:induction false} AroundTheMarkers(text: string, lead: string, block: string, trail: string)
    requires text == lead + block + trail && lead in {"", "\n"} && trail in {"", "\n"}
    requires block != "" && block[0] != '\n' && block[|block| - 1] != '\n'
    ensures Starts(text, '\n') <==> lead == "\n"
    ensures Ends(text, '\n') <==> trail == "\n"
  {
    assert lead == "" ==> text[0] == block[0];
    assert trail == "" ==> text[|text| - 1] == block[|block| - 1];
  }

  /**
   * An upsert of an id that is there changes only the bytes from its begin marker to its end marker:
   * everything before and after them, the newlines around the block included, stays as it is.
   */
  lemma {:induction false} UpsertInPlace(hash: Hasher, s: string, id: string, body: string)
    returns (m: Match, a: nat, b: nat)
    requires First(Matches(s, 0), id).Some?
    ensures m == First(Matches(s, 0), id).value && m.start <= a <= b <= m.end <= |s|
    ensures At(s, a, BEGIN) && b >= |END| && s[b - |END|..b] == END
    ensures s[m.start..a] in {"", "\n"} && s[b..m.end] in {"", "\n"}
    ensures Upserted(hash, s, id, body) == s[..a] + ManagedBlock(hash, id, body) + s[b..]
  {
    hide ManagedBlock, Matches, First, MatchAt, IsBlockText, Starts, Ends, At, Upserted;
    m := First(Matches(s, 0), id).value;
    MatchesAreMatches(s, 0, m);
    a, b := MarkersOf(s, m);
    UpsertInto(hash, s, id, body, m);
    FreshInPlace(s, m.start, a, b, m.end, ManagedBlock(hash, id, body));
  }

  lemma {:induction false} FreshInPlace(s: string, p: nat, a: nat, b: nat, e: nat, block: string)
    requires p <= a < b <= e <= |s| && s[p..a] in {"", "\n"} && s[b..e] in {"", "\n"}
    requires s[a] != '\n' && s[b - 1] != '\n'
    ensures s[..p] + Fresh(block, s[p..e]) + s[e..] == s[..a] + block + s[b..]
  {
    hide Starts, Ends;
    var lead, was, trail := s[p..a], s[a..b], s[b..e];
    assert s[p..e] == lead + was + trail;
    AroundTheMarkers(s[p..e], lead, was, trail);
    assert Fresh(block, s[p..e]) == lead + block + trail;
    assert s[..p] + lead == s[..a] && trail + s[e..] == s[b..];
    Respliced(s[..p], lead, block, trail, s[e..]);
  }

  lemma {:induction false} Respliced(before: string, lead: string, block: string, trail: string, after: string)
    ensures before + (lead + block + trail) + after == (before + lead) + block + (trail + after)
  {
  }

  /** Where the markers of a match begin and end. */
  lemma {:induction false} MarkersOf(s: string, m: Match) returns (a: nat, b: nat)
    requires MatchAt(s, m.start) == Some(m)
    ensures m.start <= a < b <= m.end <= |s| && At(s, a, BEGIN) && b >= |END| && s[b - |END|..b] == END
    ensures s[a] != '\n' && s[b - 1] != '\n'
    ensures s[m.start..a] in {"", "\n"} && s[b..m.end] in {"", "\n"}
  {
    hide MatchAt, At, Solid;
    var lead, body := MatchIsABlock(s, m.start);
    var head, last := BEGIN + m.id + " " + m.hash + " " + CLOSE, body + END;
    var text := lead + head + last;
    a, b := m.start + |lead|, m.start + |text|;
    assert lead + head + last == lead + (head + last);
    AtJoin(s, m.start, lead, head + last);
    AtJoin(s, a, head, last);
    HeadBegins(m.id, m.hash);
    AtJoin(s, a, BEGIN, head[|BEGIN|..]);
    AtJoin(s, a + |head|, body, END);
    AtFirst(s, a, BEGIN);
    AtText(s, b - |END|, END);
    AtText(s, m.start, lead);
    AtText(s, b, "\n");
    NothingAt(s, b);
    assert s[b - 1] == s[b - |END|..b][|END| - 1] == '>';
    assert m.end == b ==> s[b..m.end] == "";
  }

  lemma {:induction false} HeadBegins(id: string, h: string)
    ensures BEGIN + id + " " + h + " " + CLOSE == BEGIN + (BEGIN + id + " " + h + " " + CLOSE)[|BEGIN|..]
    ensures |BEGIN + id + " " + h + " " + CLOSE| >= |BEGIN|
  {
  }

  lemma {:induction false} AtText(s: string, p: nat, lit: string)
    ensures At(s, p, lit) ==> p + |lit| <= |s| && s[p..p + |lit|] == lit
  {
  }

  // ---- what is found in a block that is there ----

  /**
   * The body that is found is all that stands between the markers of the first block with the id, up
   * to the newline before the end marker; a block whose end marker is not on its own line has none.
   */
  lemma {:induction false} FoundIsBetween(s: string, id: string) returns (m: Match, lead: string, body: string)
    requires First(Matches(s, 0), id).Some?
    ensures m == First(Matches(s, 0), id).value && IsBlockText(s, m.start, m, lead, body)
    ensures Found(s, id) == Some((m.hash, if Ends(body, '\n') then body[..|body| - 1] else ""))
  {
    hide Matches, First, MatchAt, IsBlockText, BodyOf;
    m := First(Matches(s, 0), id).value;
    MatchesAreMatches(s, 0, m);
    lead, body := MatchIsABlock(s, m.start);
    var trail := TextOf(s, m, lead, body);
    BodyIsBetween(m, lead, body, trail);
  }

  /** The matched text, piece by piece. */
  lemma {:induction false} TextOf(s: string, m: Match, lead: string, body: string) returns (trail: string)
    requires IsBlockText(s, m.start, m, lead, body) && m.start <= m.end <= |s|
    ensures trail in {"", "\n"} && lead in {"", "\n"} && Solid(m.id) && Solid(m.hash)
    ensures s[m.start..m.end] == lead + (BEGIN + m.id + " " + m.hash + " " + CLOSE) + (body + END) + trail
    ensures forall k :: 0 <= k < |body| ==> !At(body + END, k, END)
  {
    hide At, Solid;
    var text := lead + (BEGIN + m.id + " " + m.hash + " " + CLOSE) + (body + END);
    var b := m.start + |text|;
    AtText(s, m.start, text);
    AtText(s, b, "\n");
    trail := s[b..m.end];
    assert m.end == b ==> trail == "";
    assert s[m.start..m.end] == s[m.start..b] + trail;
  }

  lemma {:induction false} BodyIsBetween(m: Match, lead: string, body: string, trail: string)
    requires trail in {"", "\n"} && lead in {"", "\n"} && Solid(m.id) && Solid(m.hash)
    requires forall k :: 0 <= k < |body| ==> !At(body + END, k, END)
    ensures BodyOf(lead + (BEGIN + m.id + " " + m.hash + " " + CLOSE) + (body + END) + trail) ==
      if Ends(body, '\n') then body[..|body| - 1] else ""
  {
    hide Index, LastIndex, At, Solid;
    var head, tail := lead + BEGIN + m.id + " " + m.hash + " " + CLOSE, body + END + trail;
    var full := lead + (BEGIN + m.id + " " + m.hash + " " + CLOSE) + (body + END) + trail;
    MarkersAreOneLine();
    BodyStart(lead, BEGIN, m.id, m.hash, tail);
    Regroup(lead, BEGIN, m.id, m.hash, CLOSE, body, END, trail);
    LastMarker(head, body, trail);
    if Ends(body, '\n') {
      assert full[|head|..|head| + |body| - 1] == body[..|body| - 1];
    }
  }

  lemma {:induction false} Regroup(lead: string, begin: string, id: string, h: string, close: string, body: string,
      end: string, trail: string)
    ensures var full := lead + (begin + id + " " + h + " " + close) + (body + end) + trail;
      && full == lead + begin + id + " " + h + " " + close + (body + end + trail)
      && full == (lead + begin + id + " " + h + " " + close) + body + end + trail
      && |lead + begin + id + " " + h + " " + close| == |lead| + |begin| + |id| + 1 + |h| + 1 + |close|
  {
  }

  /** The last end marker on its own line: the one that closes the body, or one before the body begins, or none. */
  lemma {:induction false} LastMarker(head: string, body: string, trail: string)
    requires trail in {"", "\n"} && forall k :: 0 <= k < |body| ==> !At(body + END, k, END)
    ensures var s := head + body + END + trail;
      var r := LastIndex(s, |s|, "\n" + END);
      if Ends(body, '\n') then r == Some(|head| + |body| - 1) else r.None? || r.value < |head|
  {
    hide LastIndex;
    var s, lit := head + body + END + trail, "\n" + END;
    var e := |head| + |body|;
    assert s[e..e + |END|] == END;
    if Ends(body, '\n') {
      assert s[e - 1..e - 1 + |lit|] == lit;
      LastFrom(s, e - 1, lit);
    } else {
      forall k | |head| <= k < |s| ensures !At(s, k, lit) {
        if At(s, k, lit) {
          MarkerInBody(head, body, END, trail, k);
        }
      }
    }
    var r := LastIndex(s, |s|, lit);
  }

  /** Nothing after the line before the last marker. */
  lemma {:induction false} LastFrom(s: string, q: nat, lit: string)
    requires At(s, q, lit) && lit == "\n" + END && |s| <= q + |lit| + 1
    ensures LastIndex(s, |s|, lit) == Some(q)
  {
    forall k | q < k < |s| ensures !At(s, k, lit) {
      if k + |lit| <= |s| {
        assert k == q + 1;
        assert s[k] == s[q..q + |lit|][1] == END[0];
        assert s[k..k + |lit|][0] == s[k];
      }
    }
    LastIndexIs(s, |s|, lit, q);
  }

  /** A marker line inside the body text would end the body before its end, or be its last line. */
  lemma {:induction false} MarkerInBody(head: string, body: string, end: string, trail: string, k: nat)
    requires trail in {"", "\n"} && end != "" && end[0] != '\n'
    requires |head| <= k && At(head + body + end + trail, k, "\n" + end)
    requires forall j :: 0 <= j < |body| ==> !At(body + end, j, end)
    ensures Ends(body, '\n')
  {
    var s, lit, j := head + body + end + trail, "\n" + end, k + 1 - |head|;
    assert s[k] == s[k..k + |lit|][0] == '\n';
    AtJoin(s, k, "\n", end);
    assert s == head + (body + end) + trail;
    if j < |body| {
      AtWithin(head, body + end, trail, j, end);
    }
    assert s[|head| + |body|] == end[0];
    assert j > |body| ==> k == |head| + |body|;
    assert j == |body|;
    assert s[k] == body[|body| - 1];
  }

  lemma {:induction false} AtWithin(before: string, text: string, after: string, j: nat, lit: string)
    requires j + |lit| <= |text|
    ensures At(before + text + after, |before| + j, lit) <==> At(text, j, lit)
  {
    var s := before + text + after;
    assert s[|before| + j..|before| + j + |lit|] == text[j..j + |lit|];
  }
}
