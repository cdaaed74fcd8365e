/** Signature normalisation (internal/core/realization/syntax.go). */
module Signatures {

  /** The two character classes: white space and word runes, which never overlap; a blank is white space. */
  datatype Classes = Classes(isSpace: char -> bool, isWord: char -> bool)

  ghost predicate ClassesOk(c: Classes) {
    c.isSpace(' ') && forall r :: c.isWord(r) ==> !c.isSpace(r)
  }

  // ---- what a signature says ----

  /** The runes that are not white space, in order. */
  function Runes(c: Classes, s: string): string {
    if s == "" then ""
    else if c.isSpace(s[|s| - 1]) then Runes(c, s[..|s| - 1])
    else Runes(c, s[..|s| - 1]) + [s[|s| - 1]]
  }

  /** A last rune, after white space, that would run together with the word before it. */
  predicate Breaks(c: Classes, before: string, r: char) {
    var runes := Runes(c, before);
    before != "" && c.isSpace(before[|before| - 1]) && runes != "" && c.isWord(runes[|runes| - 1]) && c.isWord(r)
  }

  /** The word-to-word separations: the indices of the runes that begin a new word after white space. */
  function Separations(c: Classes, s: string): set<nat> {
    if s == "" then {}
    else
      var before, r := s[..|s| - 1], s[|s| - 1];
      Separations(c, before) + if !c.isSpace(r) && Breaks(c, before, r) then {|Runes(c, before)|} else {}
  }

  /** Runes with one blank before each separation. */
  function Weave(runes: string, seps: set<nat>): string {
    if runes == "" then ""
    else
      var n := |runes| - 1;
      Weave(runes[..n], seps) + (if n in seps then [' '] else []) + [runes[n]]
  }

  function Normal(c: Classes, s: string): string {
    Weave(Runes(c, s), Separations(c, s))
  }

  // ---- the code ----

  function TrimRight(c: Classes, s: string): string {
    if s != "" && c.isSpace(s[|s| - 1]) then TrimRight(c, s[..|s| - 1]) else s
  }

  function TrimLeft(c: Classes, s: string): string {
    if s != "" && c.isSpace(s[0]) then TrimLeft(c, s[1..]) else s
  }

  /** normalizeSignature: one pass over the trimmed text with a pending separator. */
  method NormalizeSignature(c: Classes, text: string) returns (out: string)
    requires ClassesOk(c)
    ensures out == Normal(c, text)
  {
    var s := TrimRight(c, TrimLeft(c, text));
    hide Runes, Separations, Weave, Normal, TrimRight, TrimLeft;
    NormalOfNothing(c);
    out := "";
    var pending := false;
    for i := 0 to |s|
      invariant out == Normal(c, s[..i])
      invariant pending <==> i > 0 && c.isSpace(s[i - 1])
    {
      var r := s[i];
      NormalSnoc(c, s[..i], r);
      LastKept(c, s[..i]);
      if c.isSpace(r) {
        pending := true;
      } else {
        if pending {
          if |out| > 0 && c.isWord(out[|out| - 1]) && c.isWord(r) {
            out := out + [' '];
          }
          pending := false;
        }
        out := out + [r];
      }
      assert s[..i + 1] == s[..i] + [r];
    }
    assert s[..|s|] == s;
    TrimKeeps(c, text);
  }

  lemma {:induction false} SeparationsBelow(c: Classes, s: string)
    ensures forall k :: k in Separations(c, s) ==> 0 < k < |Runes(c, s)|
  {
    if s != "" {
      SeparationsBelow(c, s[..|s| - 1]);
    }
  }

  lemma {:induction false} WeaveIgnores(runes: string, seps: set<nat>, k: nat)
    requires k >= |runes|
    ensures Weave(runes, seps + {k}) == Weave(runes, seps)
  {
    if runes != "" {
      WeaveIgnores(runes[..|runes| - 1], seps, k);
    }
  }

  lemma {:induction false} NormalSnoc(c: Classes, s: string, r: char)
    ensures Runes(c, s + [r]) == if c.isSpace(r) then Runes(c, s) else Runes(c, s) + [r]
    ensures Separations(c, s + [r]) ==
      Separations(c, s) + if !c.isSpace(r) && Breaks(c, s, r) then {|Runes(c, s)|} else {}
    ensures Normal(c, s + [r]) ==
      if c.isSpace(r) then Normal(c, s) else Normal(c, s) + (if Breaks(c, s, r) then [' '] else []) + [r]
  {
    hide Weave;
    assert (s + [r])[..|s|] == s;
    if !c.isSpace(r) {
      var runes, seps := Runes(c, s), Separations(c, s);
      SeparationsBelow(c, s);
      WeaveSnoc(runes, Separations(c, s + [r]), r);
      if Breaks(c, s, r) {
        WeaveIgnores(runes, seps, |runes|);
      } else {
        assert Separations(c, s + [r]) == seps;
      }
    } else {
      assert Separations(c, s + [r]) == Separations(c, s);
    }
  }

  lemma {:induction false} WeaveSnoc(runes: string, seps: set<nat>, r: char)
    ensures Weave(runes + [r], seps) == Weave(runes, seps) + (if |runes| in seps then [' '] else []) + [r]
  {
    assert (runes + [r])[..|runes|] == runes;
  }

  /** The text written so far ends in the last rune kept. */
  lemma {:induction false} LastKept(c: Classes, s: string)
    ensures Runes(c, s) == "" <==> Normal(c, s) == ""
    ensures Runes(c, s) != "" ==>
      && Normal(c, s)[|Normal(c, s)| - 1] == Runes(c, s)[|Runes(c, s)| - 1]
      && !c.isSpace(Runes(c, s)[|Runes(c, s)| - 1])
  {
    RunesKept(c, s);
  }

  lemma {:induction false} RunesKept(c: Classes, s: string)
    ensures forall i :: 0 <= i < |Runes(c, s)| ==> !c.isSpace(Runes(c, s)[i])
  {
    if s != "" {
      RunesKept(c, s[..|s| - 1]);
    }
  }

  lemma {:induction false} TrimRightKeeps(c: Classes, s: string)
    ensures Runes(c, TrimRight(c, s)) == Runes(c, s) && Separations(c, TrimRight(c, s)) == Separations(c, s)
  {
    if s != "" && c.isSpace(s[|s| - 1]) {
      TrimRightKeeps(c, s[..|s| - 1]);
      NormalSnoc(c, s[..|s| - 1], s[|s| - 1]);
      assert s == s[..|s| - 1] + [s[|s| - 1]];
    }
  }

  lemma {:induction false} NothingSaid(c: Classes)
    ensures Runes(c, "") == "" && Separations(c, "") == {}
  {
  }

  lemma {:induction false} LeadingSpace(c: Classes, w: char, s: string)
    requires c.isSpace(w)
    ensures Runes(c, [w] + s) == Runes(c, s) && Separations(c, [w] + s) == Separations(c, s)
    decreases |s|
  {
    NothingSaid(c);
    hide Runes, Separations, Normal;
    if s == "" {
      assert [w] + s == "" + [w];
      NormalSnoc(c, "", w);
    } else {
      var n := |s| - 1;
      LeadingSpace(c, w, s[..n]);
      assert [w] + s == ([w] + s[..n]) + [s[n]];
      assert s == s[..n] + [s[n]];
      NormalSnoc(c, [w] + s[..n], s[n]);
      NormalSnoc(c, s[..n], s[n]);
      assert n > 0 ==> ([w] + s[..n])[|[w] + s[..n]| - 1] == s[..n][n - 1];
    }
  }

  lemma {:induction false} TrimLeftKeeps(c: Classes, s: string)
    ensures Runes(c, TrimLeft(c, s)) == Runes(c, s) && Separations(c, TrimLeft(c, s)) == Separations(c, s)
  {
    if s != "" && c.isSpace(s[0]) {
      TrimLeftKeeps(c, s[1..]);
      LeadingSpace(c, s[0], s[1..]);
      assert s == [s[0]] + s[1..];
    }
  }

  lemma {:induction false} TrimKeeps(c: Classes, s: string)
    ensures Normal(c, TrimRight(c, TrimLeft(c, s))) == Normal(c, s)
  {
    TrimLeftKeeps(c, s);
    TrimRightKeeps(c, TrimLeft(c, s));
  }

  /** The normal form says what the signature says. */
  lemma {:induction false} NormalSaysTheSame(c: Classes, s: string)
    requires ClassesOk(c)
    ensures Runes(c, Normal(c, s)) == Runes(c, s) && Separations(c, Normal(c, s)) == Separations(c, s)
  {
    hide Weave;
    if s == "" {
      NormalOfNothing(c);
    } else {
      var n := |s| - 1;
      var before, r := s[..n], s[n];
      assert s == before + [r];
      NormalSaysTheSame(c, before);
      NormalSnoc(c, before, r);
      if !c.isSpace(r) {
        var out := Normal(c, before);
        LastKept(c, before);
        if Breaks(c, before, r) {
          NormalSnoc(c, out, ' ');
          assert (out + [' '])[|out|] == ' ';
          NormalSnoc(c, out + [' '], r);
        } else {
          assert out + [] + [r] == out + [r];
          NormalSnoc(c, out, r);
        }
      }
    }
  }

  lemma {:induction false} NormalOfNothing(c: Classes)
    ensures Normal(c, "") == ""
  {
  }

  /**
   * Two signatures have the same normal form exactly when they have the same non-space runes in
   * order and the same word-to-word separations.
   */
  lemma {:induction false} SameNormalForm(c: Classes, a: string, b: string)
    requires ClassesOk(c)
    ensures Normal(c, a) == Normal(c, b) <==> Runes(c, a) == Runes(c, b) && Separations(c, a) == Separations(c, b)
  {
    NormalSaysTheSame(c, a);
    NormalSaysTheSame(c, b);
  }

  /** Normalising twice changes nothing. */
  lemma {:induction false} NormalIsIdempotent(c: Classes, s: string)
    requires ClassesOk(c)
    ensures Normal(c, Normal(c, s)) == Normal(c, s)
  {
    NormalSaysTheSame(c, s);
  }
}
