/** The string handling the services rely on, over ASCII: trimming, upper-casing and case folding. */
module Text {

  predicate IsSpace(c: char) {
    c == ' ' || '\t' <= c <= '\r'
  }

  function TrimLeft(s: string): (r: string)
    ensures r == "" || !IsSpace(r[0])
  {
    if s != "" && IsSpace(s[0]) then TrimLeft(s[1..]) else s
  }

  function TrimRight(s: string): (r: string)
    ensures r <= s
    ensures r == "" || !IsSpace(r[|r| - 1])
  {
    if s != "" && IsSpace(s[|s| - 1]) then TrimRight(s[..|s| - 1]) else s
  }

  function Trim(s: string): string {
    TrimRight(TrimLeft(s))
  }

  function UpperChar(c: char): char {
    if 'a' <= c <= 'z' then (c as int - 32) as char else c
  }

  function Upper(s: string): (r: string)
    ensures |r| == |s|
    ensures forall i :: 0 <= i < |s| ==> r[i] == UpperChar(s[i])
  {
    seq(|s|, i requires 0 <= i < |s| => UpperChar(s[i]))
  }

  /** The stored form of every code: `strings.ToUpper(strings.TrimSpace(code))`. */
  function Norm(s: string): string {
    Upper(Trim(s))
  }

  /** `strings.EqualFold` on ASCII. */
  predicate EqualFold(a: string, b: string) {
    Upper(a) == Upper(b)
  }

  lemma TrimIdempotent(s: string)
    ensures Trim(Trim(s)) == Trim(s)
  {
  }

  /** The stored form of a code that is not blank is not blank, and needs no trimming. */
  lemma NormIsTrimmed(s: string)
    requires Trim(s) != ""
    ensures Norm(s) != "" && Trim(Norm(s)) == Norm(s)
  {
    var t, n := Trim(s), Norm(s);
    assert !IsSpace(t[0]) && !IsSpace(t[|t| - 1]);
    assert !IsSpace(n[0]) && !IsSpace(n[|n| - 1]);
  }

  /** Looking up a code that was read from a row finds that same code: normalising twice is normalising once. */
  lemma NormIdempotent(s: string)
    ensures Norm(Norm(s)) == Norm(s)
  {
    var t, n := Trim(s), Norm(s);
    assert t == "" || (!IsSpace(t[0]) && !IsSpace(t[|t| - 1]));
    assert n == "" || (!IsSpace(n[0]) && !IsSpace(n[|n| - 1]));
    assert Trim(n) == n;
    assert Upper(n) == n;
  }

  // ----- The same, told without the functions -----

  /** ASCII white space. */
  const WHITE := {' ', '\t', '\n', '\U{0B}', '\U{0C}', '\r'}

  predicate OnlyWhite(s: string) {
    forall i :: 0 <= i < |s| ==> s[i] in WHITE
  }

  /** `t` is `s` without the white space around it. */
  ghost predicate Trims(s: string, t: string) {
    && (exists p, q :: s == p + t + q && OnlyWhite(p) && OnlyWhite(q))
    && (t != "" ==> t[0] !in WHITE && t[|t| - 1] !in WHITE)
  }

  /** The lower and the upper case of one ASCII letter. */
  predicate CasePair(lower: char, upper: char) {
    'a' <= lower <= 'z' && upper as int + 32 == lower as int
  }

  /** `c` is `s` in upper case. */
  predicate InUpperCase(s: string, c: string) {
    && |c| == |s|
    && forall i :: 0 <= i < |s| ==> if 'a' <= s[i] <= 'z' then CasePair(s[i], c[i]) else c[i] == s[i]
  }

  /** The same letters, whatever their case. */
  predicate SameName(a: string, b: string) {
    |a| == |b| && forall i :: 0 <= i < |a| ==> a[i] == b[i] || CasePair(a[i], b[i]) || CasePair(b[i], a[i])
  }

  lemma SpaceIsWhite(c: char)
    ensures IsSpace(c) <==> c in WHITE
  {
    assert '\t' as int == 9 && '\n' as int == 10 && '\U{0B}' as int == 11 && '\U{0C}' as int == 12 && '\r' as int == 13;
    if IsSpace(c) && c != ' ' {
      var n := c as int;
      assert n == 9 || n == 10 || n == 11 || n == 12 || n == 13;
      assert c == n as char;
    }
  }

  lemma {:induction false} TrimLeftDrops(p: string, s: string)
    requires OnlyWhite(p)
    ensures TrimLeft(p + s) == TrimLeft(s)
  {
    if p == "" {
      assert p + s == s;
    } else {
      SpaceIsWhite(p[0]);
      assert (p + s)[1..] == p[1..] + s;
      TrimLeftDrops(p[1..], s);
    }
  }

  lemma {:induction false} TrimRightDrops(s: string, q: string)
    requires OnlyWhite(q)
    ensures TrimRight(s + q) == TrimRight(s)
  {
    if q == "" {
      assert s + q == s;
    } else {
      SpaceIsWhite(q[|q| - 1]);
      assert (s + q)[..|s + q| - 1] == s + q[..|q| - 1];
      TrimRightDrops(s, q[..|q| - 1]);
    }
  }

  lemma {:induction false} TrimLeftSplits(s: string) returns (p: string)
    ensures s == p + TrimLeft(s) && OnlyWhite(p)
  {
    if s != "" && IsSpace(s[0]) {
      SpaceIsWhite(s[0]);
      var rest := TrimLeftSplits(s[1..]);
      p := [s[0]] + rest;
    } else {
      p := "";
    }
  }

  lemma {:induction false} TrimRightSplits(s: string) returns (q: string)
    ensures s == TrimRight(s) + q && OnlyWhite(q)
  {
    if s != "" && IsSpace(s[|s| - 1]) {
      SpaceIsWhite(s[|s| - 1]);
      var rest := TrimRightSplits(s[..|s| - 1]);
      q := rest + [s[|s| - 1]];
    } else {
      q := "";
    }
  }

  lemma TrimTrims(s: string)
    ensures Trims(s, Trim(s))
  {
    var p := TrimLeftSplits(s);
    var q := TrimRightSplits(TrimLeft(s));
    var t := Trim(s);
    assert s == p + t + q;
    if t != "" {
      assert t[0] == TrimLeft(s)[0];
      SpaceIsWhite(t[0]);
      SpaceIsWhite(t[|t| - 1]);
    }
  }

  lemma TrimsIsUnique(s: string, t: string)
    requires Trims(s, t)
    ensures t == Trim(s)
  {
    var p, q :| s == p + t + q && OnlyWhite(p) && OnlyWhite(q);
    assert p + t + q == p + (t + q);
    TrimLeftDrops(p, t + q);
    if t == "" {
      assert t + q == q + "";
      TrimLeftDrops(q, "");
    } else {
      SpaceIsWhite(t[0]);
      SpaceIsWhite(t[|t| - 1]);
      assert (t + q)[0] == t[0];
      TrimRightDrops(t, q);
    }
  }

  /** Trimming removes exactly the white space at both ends. */
  lemma TrimIsExact(s: string, t: string)
    ensures t == Trim(s) <==> Trims(s, t)
  {
    TrimTrims(s);
    if Trims(s, t) {
      TrimsIsUnique(s, t);
    }
  }

  lemma WhiteTrimsToNothing(s: string)
    ensures Trims(s, "") <==> OnlyWhite(s)
  {
    if OnlyWhite(s) {
      assert s == s + "" + "" && OnlyWhite("");
    }
    if Trims(s, "") {
      var p, q :| s == p + "" + q && OnlyWhite(p) && OnlyWhite(q);
      assert s == p + q;
    }
  }

  lemma TrimIsBlank(s: string)
    ensures Trim(s) == "" <==> OnlyWhite(s)
  {
    hide Trims, Trim, OnlyWhite;
    TrimIsExact(s, "");
    WhiteTrimsToNothing(s);
  }

  lemma UpperIsExact(s: string, c: string)
    ensures c == Upper(s) <==> InUpperCase(s, c)
  {
    if InUpperCase(s, c) {
      assert forall i :: 0 <= i < |s| ==> c[i] == UpperChar(s[i]);
    }
  }

  /** `c` is the stored form of the code `s`. */
  ghost predicate Stores(s: string, c: string) {
    exists t :: Trims(s, t) && InUpperCase(t, c)
  }

  lemma NormStores(s: string)
    ensures Stores(s, Norm(s))
  {
    hide Trims, InUpperCase, Trim, Upper;
    TrimTrims(s);
    UpperIsExact(Trim(s), Norm(s));
    assert Trims(s, Trim(s)) && InUpperCase(Trim(s), Norm(s));
  }

  lemma StoresIsUnique(s: string, c: string)
    requires Stores(s, c)
    ensures c == Norm(s)
  {
    hide Trims, InUpperCase, Trim, Upper;
    var t :| Trims(s, t) && InUpperCase(t, c);
    TrimIsExact(s, t);
    UpperIsExact(t, c);
  }

  /** The stored form of a code: no white space around it, and no lower case. */
  lemma NormIsExact(s: string, c: string)
    ensures c == Norm(s) <==> Stores(s, c)
  {
    hide Stores, Norm;
    NormStores(s);
    if Stores(s, c) {
      StoresIsUnique(s, c);
    }
  }

  /** Names are compared letter by letter, whatever their case. */
  lemma EqualFoldIsExact(a: string, b: string)
    ensures EqualFold(a, b) <==> SameName(a, b)
  {
    if EqualFold(a, b) {
      assert |a| == |Upper(a)| == |b|;
      forall i | 0 <= i < |a| ensures a[i] == b[i] || CasePair(a[i], b[i]) || CasePair(b[i], a[i]) {
        assert Upper(a)[i] == Upper(b)[i];
      }
    }
    if SameName(a, b) {
      forall i | 0 <= i < |a| ensures Upper(a)[i] == Upper(b)[i] {
        assert a[i] == b[i] || CasePair(a[i], b[i]) || CasePair(b[i], a[i]);
      }
    }
  }
}
