/**
 * `toPascalCase` of template/scripts/generateModules.js: the global regular
 * expression
 *   [A-Z]{2,}(?=[A-Z][a-z]+[0-9]*|\b) | [A-Z]?[a-z]+[0-9]* | [A-Z] | [0-9]+
 * is hand-coded as a matcher over ASCII characters, each match is capitalised
 * and the matches are joined.
 */
module PascalCase {
  import opened Wrappers

  predicate IsUpper(c: char) { 'A' <= c <= 'Z' }
  predicate IsLower(c: char) { 'a' <= c <= 'z' }
  predicate IsDigit(c: char) { '0' <= c <= '9' }
  predicate IsAlnum(c: char) { IsUpper(c) || IsLower(c) || IsDigit(c) }
  /** A word character of `\b`: `[A-Za-z0-9_]`. */
  predicate IsWordChar(c: char) { IsAlnum(c) || c == '_' }

  predicate AllAlnum(s: string) { forall k :: 0 <= k < |s| ==> IsAlnum(s[k]) }

  /** The length of the run of upper-case letters starting at `i`. */
  function UpperRun(s: string, i: nat): (n: nat)
    requires i <= |s|
    ensures i + n <= |s|
    ensures i + n == |s| || !IsUpper(s[i + n])
    decreases |s| - i
  {
    if i < |s| && IsUpper(s[i]) then 1 + UpperRun(s, i + 1) else 0
  }

  /** The length of the run of lower-case letters starting at `i`. */
  function LowerRun(s: string, i: nat): (n: nat)
    requires i <= |s|
    ensures i + n <= |s|
    ensures i + n == |s| || !IsLower(s[i + n])
    decreases |s| - i
  {
    if i < |s| && IsLower(s[i]) then 1 + LowerRun(s, i + 1) else 0
  }

  /** The length of the run of digits starting at `i`. */
  function DigitRun(s: string, i: nat): (n: nat)
    requires i <= |s|
    ensures i + n <= |s|
    ensures i + n == |s| || !IsDigit(s[i + n])
    decreases |s| - i
  {
    if i < |s| && IsDigit(s[i]) then 1 + DigitRun(s, i + 1) else 0
  }

  /** `[a-z]+[0-9]*` starting at `i`, where `s[i]` is lower case. */
  function LowerThenDigits(s: string, i: nat): (n: nat)
    requires i < |s| && IsLower(s[i])
    ensures 0 < n && i + n <= |s|
  {
    var l := LowerRun(s, i);
    l + DigitRun(s, i + l)
  }

  /**
   * The match at `i` when `s[i]` is upper case. The first alternative
   * backtracks from the whole upper-case run: it takes the whole run when a
   * word boundary follows it, or the run less its last letter when that
   * letter starts a capitalised word; otherwise a capitalised word
   * (`[A-Z][a-z]+[0-9]*`) or the single letter matches.
   */
  function UpperMatch(s: string, i: nat): (n: nat)
    requires i < |s| && IsUpper(s[i])
    ensures 0 < n && i + n <= |s|
  {
    var u := UpperRun(s, i);
    if u >= 2 && (i + u == |s| || !IsWordChar(s[i + u])) then u
    else if u >= 3 && i + u < |s| && IsLower(s[i + u]) then u - 1
    else if i + 1 < |s| && IsLower(s[i + 1]) then 1 + LowerThenDigits(s, i + 1)
    else 1
  }

  /**
   * The length of the regular expression's match at `i`, or 0 if none of
   * its four alternatives matches there. An alternative that starts with
   * an upper-case letter can only match at an upper-case letter, so the
   * first character selects the alternatives that can apply.
   */
  function MatchAt(s: string, i: nat): (n: nat)
    requires i < |s|
    ensures i + n <= |s|
    ensures n > 0 <==> IsAlnum(s[i])
  {
    if IsUpper(s[i]) then UpperMatch(s, i)
    else if IsLower(s[i]) then LowerThenDigits(s, i)
    else DigitRun(s, i)
  }

  /** The matches of the global search from position `i`, in order. */
  function Tokens(s: string, i: nat): (ts: seq<string>)
    requires i <= |s|
    decreases |s| - i
  {
    if i == |s| then []
    else
      var n := MatchAt(s, i);
      if n == 0 then Tokens(s, i + 1)
      else
        [s[i..i + n]] + Tokens(s, i + n)
  }

  function Concat(ts: seq<string>): string {
    if ts == [] then [] else ts[0] + Concat(ts[1..])
  }

  /** The ASCII letters and digits of `s`, in order. */
  function AlnumOnly(s: string): string {
    if s == [] then [] else (if IsAlnum(s[0]) then [s[0]] else []) + AlnumOnly(s[1..])
  }

  function ToUpper(c: char): char { if IsLower(c) then c - 'a' + 'A' else c }
  function ToLower(c: char): char { if IsUpper(c) then c - 'A' + 'a' else c }

  function LowerAll(s: string): (r: string)
    ensures |r| == |s| && forall k :: 0 <= k < |s| ==> r[k] == ToLower(s[k])
  {
    if s == [] then [] else [ToLower(s[0])] + LowerAll(s[1..])
  }

  /** `x.charAt(0).toUpperCase() + x.slice(1).toLowerCase()`; `charAt(0)` of
      the empty string is empty. */
  function Capitalize(t: string): (r: string)
    ensures |r| == |t|
  {
    if t == [] then [] else [ToUpper(t[0])] + LowerAll(t[1..])
  }

  function CapitalizeAll(ts: seq<string>): (ws: seq<string>)
    ensures |ws| == |ts|
  {
    if ts == [] then [] else [Capitalize(ts[0])] + CapitalizeAll(ts[1..])
  }

  /** `toPascalCase(str)`; `None` when `match` finds nothing and returns
      `null`, whose `.map` then throws. */
  function ToPascalCase(s: string): (r: Option<string>) {
    var ts := Tokens(s, 0);
    if ts == [] then None else Some(Concat(CapitalizeAll(ts)))
  }

  // ---------------------------------------------------------------- lemmas

  lemma {:induction false} UpperRunUpper(s: string, i: nat)
    requires i <= |s|
    ensures forall k :: i <= k < i + UpperRun(s, i) ==> IsUpper(s[k])
    decreases |s| - i
  {
    if i < |s| && IsUpper(s[i]) { UpperRunUpper(s, i + 1); }
  }

  lemma {:induction false} LowerRunLower(s: string, i: nat)
    requires i <= |s|
    ensures forall k :: i <= k < i + LowerRun(s, i) ==> IsLower(s[k])
    decreases |s| - i
  {
    if i < |s| && IsLower(s[i]) { LowerRunLower(s, i + 1); }
  }

  lemma {:induction false} DigitRunDigits(s: string, i: nat)
    requires i <= |s|
    ensures forall k :: i <= k < i + DigitRun(s, i) ==> IsDigit(s[k])
    decreases |s| - i
  {
    if i < |s| && IsDigit(s[i]) { DigitRunDigits(s, i + 1); }
  }

  lemma LowerThenDigitsAlnum(s: string, i: nat)
    requires i < |s| && IsLower(s[i])
    ensures forall k :: i <= k < i + LowerThenDigits(s, i) ==> IsAlnum(s[k])
  {
    LowerRunLower(s, i);
    DigitRunDigits(s, i + LowerRun(s, i));
  }

  /** Every match consists of ASCII letters and digits. */
  lemma MatchAlnum(s: string, i: nat)
    requires i < |s|
    ensures forall k :: i <= k < i + MatchAt(s, i) ==> IsAlnum(s[k])
  {
    if IsUpper(s[i]) {
      UpperRunUpper(s, i);
      if i + 1 < |s| && IsLower(s[i + 1]) { LowerThenDigitsAlnum(s, i + 1); }
    } else if IsLower(s[i]) {
      LowerThenDigitsAlnum(s, i);
    } else {
      DigitRunDigits(s, i);
    }
  }

  lemma SliceAlnum(s: string, i: nat, n: nat)
    requires i + n <= |s|
    requires forall k :: i <= k < i + n ==> IsAlnum(s[k])
    ensures AllAlnum(s[i..i + n])
  {
    var t := s[i..i + n];
    forall k | 0 <= k < n ensures IsAlnum(t[k]) { assert t[k] == s[i + k]; }
  }

  lemma {:induction false} AlnumOnlyAppend(a: string, b: string)
    ensures AlnumOnly(a + b) == AlnumOnly(a) + AlnumOnly(b)
  {
    if a == [] {
      assert a + b == b;
    } else {
      var h: string := if IsAlnum(a[0]) then [a[0]] else [];
      assert (a + b)[0] == a[0] && (a + b)[1..] == a[1..] + b;
      calc {
        AlnumOnly(a + b);
        h + AlnumOnly(a[1..] + b);
        { AlnumOnlyAppend(a[1..], b); }
        h + (AlnumOnly(a[1..]) + AlnumOnly(b));
        (h + AlnumOnly(a[1..])) + AlnumOnly(b);
      }
    }
  }

  lemma {:induction false} AlnumOnlyOfAlnum(s: string)
    requires AllAlnum(s)
    ensures AlnumOnly(s) == s
  {
    if s != [] {
      AlnumOnlyOfAlnum(s[1..]);
    }
  }

  lemma {:induction false} AlnumOnlyOfNonAlnum(c: char)
    requires !IsAlnum(c)
    ensures AlnumOnly([c]) == []
  {
    assert [c][1..] == [];
  }

  lemma ConcatPair(a: string, b: string)
    ensures Concat([a, b]) == a + b
  {
    ConcatCons(a, [b]);
    ConcatCons(b, []);
    assert [a] + [b] == [a, b];
    assert [b] + [] == [b];
    assert b + [] == b;
  }

  lemma ConcatCons(t: string, ts: seq<string>)
    ensures Concat([t] + ts) == t + Concat(ts)
  {
    assert ([t] + ts)[1..] == ts;
  }

  lemma SkipTokens(s: string, i: nat)
    requires i < |s| && MatchAt(s, i) == 0
    ensures Concat(Tokens(s, i)) == Concat(Tokens(s, i + 1))
  {
  }

  lemma MatchTokens(s: string, i: nat, n: nat)
    requires i < |s| && MatchAt(s, i) == n && n > 0
    ensures i + n <= |s|
    ensures Concat(Tokens(s, i)) == s[i..i + n] + Concat(Tokens(s, i + n))
  {
    assert Tokens(s, i) == [s[i..i + n]] + Tokens(s, i + n);
    ConcatCons(s[i..i + n], Tokens(s, i + n));
  }

  lemma SkipAlnum(s: string, i: nat)
    requires i < |s| && !IsAlnum(s[i])
    ensures AlnumOnly(s[i..]) == AlnumOnly(s[i + 1..])
  {
    assert s[i..] == [s[i]] + s[i + 1..];
    AlnumOnlyAppend([s[i]], s[i + 1..]);
    AlnumOnlyOfNonAlnum(s[i]);
  }

  lemma KeepAlnum(s: string, i: nat, n: nat)
    requires i + n <= |s| && forall k :: i <= k < i + n ==> IsAlnum(s[k])
    ensures AlnumOnly(s[i..]) == s[i..i + n] + AlnumOnly(s[i + n..])
  {
    assert s[i..] == s[i..i + n] + s[i + n..];
    AlnumOnlyAppend(s[i..i + n], s[i + n..]);
    SliceAlnum(s, i, n);
    AlnumOnlyOfAlnum(s[i..i + n]);
  }

  /** Every match is a non-empty run of ASCII letters and digits. */
  lemma {:induction false} TokensAlnum(s: string, i: nat)
    requires i <= |s|
    ensures forall t :: t in Tokens(s, i) ==> |t| > 0 && AllAlnum(t)
    decreases |s| - i
  {
    if i < |s| {
      var n := MatchAt(s, i);
      if n == 0 {
        TokensAlnum(s, i + 1);
        SkipTokensList(s, i, Tokens(s, i + 1));
      } else {
        TokensAlnum(s, i + n);
        MatchAlnum(s, i);
        SliceAlnum(s, i, n);
        assert Tokens(s, i) == [s[i..i + n]] + Tokens(s, i + n);
      }
    }
  }

  /**
   * The matches cover exactly the ASCII letters and digits: concatenated,
   * they are the input with every other character dropped.
   */
  lemma {:induction false} TokensCoverAlnum(s: string, i: nat)
    requires i <= |s|
    ensures Concat(Tokens(s, i)) == AlnumOnly(s[i..])
    decreases |s| - i
  {
    if i == |s| {
      assert s[i..] == [];
    } else {
      var n := MatchAt(s, i);
      if n == 0 {
        TokensCoverAlnum(s, i + 1);
        SkipTokens(s, i);
        SkipAlnum(s, i);
      } else {
        TokensCoverAlnum(s, i + n);
        MatchTokens(s, i, n);
        MatchAlnum(s, i);
        KeepAlnum(s, i, n);
      }
    }
  }

  lemma {:induction false} AlnumOnlyEmpty(s: string)
    ensures AlnumOnly(s) == [] <==> forall k :: 0 <= k < |s| ==> !IsAlnum(s[k])
  {
    if s != [] {
      AlnumOnlyEmpty(s[1..]);
      assert forall k :: 1 <= k < |s| ==> s[k] == s[1..][k - 1];
    }
  }

  lemma {:induction false} ConcatEmpty(ts: seq<string>)
    requires forall t :: t in ts ==> |t| > 0
    ensures Concat(ts) == [] <==> ts == []
  {
  }

  /** `toPascalCase` fails (the `match` result is `null`) exactly when the
      input holds no ASCII letter or digit. */
  lemma PascalCaseFailsIffNoAlnum(s: string)
    ensures ToPascalCase(s).None? <==> forall k :: 0 <= k < |s| ==> !IsAlnum(s[k])
  {
    TokensCoverAlnum(s, 0);
    TokensAlnum(s, 0);
    assert s[0..] == s;
    ConcatEmpty(Tokens(s, 0));
    AlnumOnlyEmpty(s);
  }

  lemma {:induction false} LowerAllAppend(a: string, b: string)
    ensures LowerAll(a + b) == LowerAll(a) + LowerAll(b)
  {
  }

  lemma {:induction false} CapitalizeLowers(t: string)
    ensures LowerAll(Capitalize(t)) == LowerAll(t)
  {
  }

  lemma {:induction false} CapitalizeAllLowers(ts: seq<string>)
    ensures LowerAll(Concat(CapitalizeAll(ts))) == LowerAll(Concat(ts))
  {
    if ts != [] {
      CapitalizeAllLowers(ts[1..]);
      assert CapitalizeAll(ts)[1..] == CapitalizeAll(ts[1..]);
      LowerAllAppend(Capitalize(ts[0]), Concat(CapitalizeAll(ts[1..])));
      LowerAllAppend(ts[0], Concat(ts[1..]));
      CapitalizeLowers(ts[0]);
    }
  }

  /**
   * Up to letter case, the PascalCase name is the input with every character
   * other than an ASCII letter or digit (`-`, `_`, spaces, ...) dropped.
   */
  lemma PascalCaseKeepsAlnum(s: string)
    requires ToPascalCase(s).Some?
    ensures LowerAll(ToPascalCase(s).value) == LowerAll(AlnumOnly(s))
  {
    TokensCoverAlnum(s, 0);
    assert s[0..] == s;
    CapitalizeAllLowers(Tokens(s, 0));
  }

  /** A capitalised word: its first character is not lower case and none of
      the rest is upper case. */
  predicate Capitalized(w: string) {
    |w| > 0 && !IsLower(w[0]) && forall k :: 1 <= k < |w| ==> !IsUpper(w[k])
  }

  lemma CapitalizeShape(t: string)
    requires |t| > 0 && AllAlnum(t)
    ensures Capitalized(Capitalize(t)) && AllAlnum(Capitalize(t))
  {
    var w := Capitalize(t);
    assert w[0] == ToUpper(t[0]);
    forall k | 1 <= k < |w| ensures !IsUpper(w[k]) && IsAlnum(w[k]) {
      assert w[k] == ToLower(t[k]);
    }
  }

  lemma {:induction false} CapitalizeAllShape(ts: seq<string>)
    requires forall t :: t in ts ==> |t| > 0 && AllAlnum(t)
    ensures forall w :: w in CapitalizeAll(ts) ==> Capitalized(w) && AllAlnum(w)
  {
    if ts != [] {
      CapitalizeAllShape(ts[1..]);
      assert ts[0] in ts;
      CapitalizeShape(ts[0]);
      assert CapitalizeAll(ts) == [Capitalize(ts[0])] + CapitalizeAll(ts[1..]);
    }
  }

  lemma {:induction false} ConcatAlnum(ws: seq<string>)
    requires forall w :: w in ws ==> AllAlnum(w)
    ensures AllAlnum(Concat(ws))
  {
    if ws != [] {
      ConcatAlnum(ws[1..]);
      assert ws[0] in ws;
      var c := Concat(ws);
      assert c == ws[0] + Concat(ws[1..]);
      forall k | 0 <= k < |c| ensures IsAlnum(c[k]) {
        if k >= |ws[0]| { assert c[k] == Concat(ws[1..])[k - |ws[0]|]; }
      }
    }
  }

  /**
   * The result is a concatenation of capitalised words (the capitalised
   * matches) and holds only ASCII letters and digits.
   */
  lemma PascalCaseShape(s: string)
    requires ToPascalCase(s).Some?
    ensures ToPascalCase(s).value == Concat(CapitalizeAll(Tokens(s, 0)))
    ensures forall w :: w in CapitalizeAll(Tokens(s, 0)) ==> Capitalized(w)
    ensures AllAlnum(ToPascalCase(s).value)
  {
    TokensAlnum(s, 0);
    CapitalizeAllShape(Tokens(s, 0));
    ConcatAlnum(CapitalizeAll(Tokens(s, 0)));
  }

  lemma {:induction false} UpperRunIs(s: string, i: nat, j: nat)
    requires i <= j <= |s|
    requires forall k :: i <= k < j ==> IsUpper(s[k])
    requires j == |s| || !IsUpper(s[j])
    ensures UpperRun(s, i) == j - i
    decreases j - i
  {
    if i < j { UpperRunIs(s, i + 1, j); }
  }

  lemma {:induction false} LowerRunIs(s: string, i: nat, j: nat)
    requires i <= j <= |s|
    requires forall k :: i <= k < j ==> IsLower(s[k])
    requires j == |s| || !IsLower(s[j])
    ensures LowerRun(s, i) == j - i
    decreases j - i
  {
    if i < j { LowerRunIs(s, i + 1, j); }
  }

  lemma MatchTokensList(s: string, i: nat, n: nat, rest: seq<string>)
    requires i < |s| && MatchAt(s, i) == n && n > 0 && Tokens(s, i + n) == rest
    ensures Tokens(s, i) == [s[i..i + n]] + rest
  {
  }

  lemma SkipTokensList(s: string, i: nat, rest: seq<string>)
    requires i < |s| && MatchAt(s, i) == 0 && Tokens(s, i + 1) == rest
    ensures Tokens(s, i) == rest
  {
  }

  predicate AllLower(w: string) { forall k :: 0 <= k < |w| ==> IsLower(w[k]) }
  predicate AllUpper(w: string) { forall k :: 0 <= k < |w| ==> IsUpper(w[k]) }

  /** A lower-case word runs to the next non-letter: it is one match. */
  lemma LowerWordMatch(s: string, i: nat, w: string)
    requires i + |w| <= |s| && |w| > 0 && s[i..i + |w|] == w && AllLower(w)
    requires i + |w| == |s| || !IsAlnum(s[i + |w|])
    ensures MatchAt(s, i) == |w|
  {
    assert forall k :: i <= k < i + |w| ==> s[k] == w[k - i];
    LowerRunIs(s, i, i + |w|);
    assert DigitRun(s, i + |w|) == 0;
  }

  lemma SeparatedWordsTokens(w1: string, sep: char, w2: string)
    requires |w1| > 0 && |w2| > 0 && AllLower(w1) && AllLower(w2) && !IsAlnum(sep)
    ensures Tokens(w1 + [sep] + w2, 0) == [w1, w2]
  {
    var s := w1 + [sep] + w2;
    var m := |w1| + 1;
    assert Tokens(s, m) == [w2] by {
      assert s[m..m + |w2|] == w2;
      LowerWordMatch(s, m, w2);
      assert Tokens(s, |s|) == [];
      MatchTokensList(s, m, |w2|, []);
    }
    assert Tokens(s, |w1|) == [w2] by {
      assert s[|w1|] == sep;
      SkipTokensList(s, |w1|, [w2]);
    }
    assert s[0..|w1|] == w1;
    LowerWordMatch(s, 0, w1);
    MatchTokensList(s, 0, |w1|, [w2]);
  }

  /**
   * Two lower-case words around a separator become two capitalised words
   * with the separator dropped; "my-wallet" becomes "MyWallet".
   */
  lemma SeparatedWords(w1: string, sep: char, w2: string)
    requires |w1| > 0 && |w2| > 0 && AllLower(w1) && AllLower(w2) && !IsAlnum(sep)
    ensures ToPascalCase(w1 + [sep] + w2) == Some(Capitalize(w1) + Capitalize(w2))
  {
    SeparatedWordsTokens(w1, sep, w2);
    assert [w1, w2][1..] == [w2];
    assert CapitalizeAll([w1, w2]) == [Capitalize(w1), Capitalize(w2)];
    ConcatPair(Capitalize(w1), Capitalize(w2));
  }

  /** The match of a capitalised word that ends the input. */
  lemma CapitalisedWordMatch(s: string, m: nat, c: char, l: string)
    requires m + 1 + |l| == |s| && s[m..] == [c] + l
    requires IsUpper(c) && |l| > 0 && AllLower(l)
    ensures MatchAt(s, m) == 1 + |l|
  {
    assert s[m] == c;
    assert forall k :: 0 <= k < |l| ==> s[m + 1 + k] == l[k];
    UpperRunIs(s, m, m + 1);
    LowerRunIs(s, m + 1, |s|);
    assert DigitRun(s, |s|) == 0;
  }

  /** A capitalised word that ends the input is its last token. */
  lemma CapitalisedWordAtEnd(s: string, m: nat, c: char, l: string)
    requires m + 1 + |l| == |s| && s[m..] == [c] + l
    requires IsUpper(c) && |l| > 0 && AllLower(l)
    ensures Tokens(s, m) == [[c] + l]
  {
    CapitalisedWordMatch(s, m, c, l);
    assert Tokens(s, |s|) == [];
    MatchTokensList(s, m, 1 + |l|, []);
    assert s[m..m + 1 + |l|] == [c] + l;
    assert [[c] + l] + [] == [[c] + l];
  }

  /** An upper-case run before a capitalised word matches without its last letter. */
  lemma AcronymRunMatch(s: string, u: string, c: char, l: string)
    requires s == u + [c] + l
    requires |u| >= 2 && AllUpper(u) && IsUpper(c) && |l| > 0 && AllLower(l)
    ensures MatchAt(s, 0) == |u|
  {
    assert forall k :: 0 <= k < |u| ==> s[k] == u[k];
    assert s[|u|] == c && s[|u| + 1] == l[0];
    UpperRunIs(s, 0, |u| + 1);
  }

  lemma AcronymTokens(u: string, c: char, l: string)
    requires |u| >= 2 && AllUpper(u) && IsUpper(c) && |l| > 0 && AllLower(l)
    ensures Tokens(u + [c] + l, 0) == [u, [c] + l]
  {
    var s := u + [c] + l;
    assert s[|u|..] == [c] + l;
    CapitalisedWordAtEnd(s, |u|, c, l);
    AcronymRunMatch(s, u, c, l);
    MatchTokensList(s, 0, |u|, [[c] + l]);
    assert s[0..|u|] == u;
  }

  /**
   * An upper-case run followed by a capitalised word splits before the
   * run's last capital; "XMLHttp" becomes "XmlHttp".
   */
  lemma AcronymBeforeWord(u: string, c: char, l: string)
    requires |u| >= 2 && AllUpper(u) && IsUpper(c) && |l| > 0 && AllLower(l)
    ensures ToPascalCase(u + [c] + l) == Some(Capitalize(u) + Capitalize([c] + l))
  {
    AcronymTokens(u, c, l);
    var ts := [u, [c] + l];
    assert ts[1..] == [[c] + l];
    assert CapitalizeAll(ts) == [Capitalize(u), Capitalize([c] + l)];
    ConcatPair(Capitalize(u), Capitalize([c] + l));
  }

  lemma LowerAllLower(t: string)
    requires forall k :: 0 <= k < |t| ==> !IsUpper(t[k])
    ensures LowerAll(t) == t
  {
  }

  lemma MyWalletParts()
    ensures "my-wallet" == "my" + ['-'] + "wallet"
    ensures Capitalize("my") + Capitalize("wallet") == "MyWallet"
  {
    assert Capitalize("my") == "My" by { assert LowerAll("y") == "y"; }
    assert Capitalize("wallet") == "Wallet" by { LowerAllLower("allet"); }
  }

  /** The documented example: "my-wallet" becomes "MyWallet". */
  lemma KebabCaseExample()
    ensures ToPascalCase("my-wallet") == Some("MyWallet")
  {
    MyWalletParts();
    SeparatedWords("my", '-', "wallet");
  }

  lemma XmlHttpParts()
    ensures "XMLHttp" == "XML" + ['H'] + "ttp"
    ensures Capitalize("XML") + Capitalize("Http") == "XmlHttp"
  {
    assert Capitalize("XML") == "Xml" by {
      assert LowerAll("ML") == "ml" by { assert LowerAll("L") == "l"; }
    }
    assert Capitalize("Http") == "Http" by { LowerAllLower("ttp"); }
  }

  /** "XMLHttp" becomes "XmlHttp". */
  lemma AcronymExample()
    ensures ToPascalCase("XMLHttp") == Some("XmlHttp")
  {
    XmlHttpParts();
    assert ['H'] + "ttp" == "Http";
    AcronymBeforeWord("XML", 'H', "ttp");
  }
}
