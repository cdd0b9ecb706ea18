// Python string and list semantics shared by every other module:
// str.isspace / split() / strip() / lower(), slicing with negative
// bounds, str(int), int() of a digit run and the `in` substring test.

module PyText {

  /** The characters Python's str.isspace() accepts (and so the
   *  separators of str.split() and str.strip() with no argument). */
  predicate IsSpace(c: char) {
    ('\t' <= c <= '\r') || ('\U{1C}' <= c <= '\U{1F}') || c == ' '
    || c == '\U{85}' || c == '\U{A0}' || c == '\U{1680}'
    || ('\U{2000}' <= c <= '\U{200A}') || c == '\U{2028}' || c == '\U{2029}'
    || c == '\U{202F}' || c == '\U{205F}' || c == '\U{3000}'
  }

  predicate IsDigit(c: char) { '0' <= c <= '9' }

  predicate IsUpper(c: char) { 'A' <= c <= 'Z' }

  predicate IsLowerLetter(c: char) { 'a' <= c <= 'z' }

  /** str.lower() on one character, restricted to ASCII letters. */
  function LowerChar(c: char): (r: char)
    ensures !IsUpper(r)
    ensures IsSpace(r) <==> IsSpace(c)
    ensures !IsUpper(c) ==> r == c
  {
    if IsUpper(c) then (c as int + 32) as char else c
  }

  function UpperChar(c: char): (r: char)
    ensures !IsLowerLetter(r)
    ensures !IsLowerLetter(c) ==> r == c
  {
    if IsLowerLetter(c) then (c as int - 32) as char else c
  }

  function Lower(s: string): (r: string)
    ensures |r| == |s|
    ensures forall i :: 0 <= i < |s| ==> r[i] == LowerChar(s[i])
  {
    if s == [] then [] else [LowerChar(s[0])] + Lower(s[1..])
  }

  predicate NoUpper(s: string) { forall i :: 0 <= i < |s| ==> !IsUpper(s[i]) }

  lemma LowerOfNoUpper(s: string)
    requires NoUpper(s)
    ensures Lower(s) == s
  {
  }

  lemma LowerIdempotent(s: string)
    ensures Lower(Lower(s)) == Lower(s)
  {
    LowerOfNoUpper(Lower(s));
  }

  /** Python slice s[:k] for any integer k. */
  function PyTake<T>(s: seq<T>, k: int): (r: seq<T>)
    ensures |r| <= |s|
    ensures 0 <= k ==> r == s[..if k < |s| then k else |s|]
    ensures k < 0 ==> r == s[..if |s| + k < 0 then 0 else |s| + k]
  {
    if k >= 0 then s[..if k < |s| then k else |s|]
    else s[..if |s| + k < 0 then 0 else |s| + k]
  }

  /** Python slice s[k:] for any integer k. */
  function PyDrop<T>(s: seq<T>, k: int): (r: seq<T>)
    ensures |r| <= |s|
    ensures 0 <= k ==> r == s[if k < |s| then k else |s|..]
    ensures k < 0 ==> r == s[if |s| + k < 0 then 0 else |s| + k..]
  {
    if k >= 0 then s[if k < |s| then k else |s|..]
    else s[if |s| + k < 0 then 0 else |s| + k..]
  }

  /** Python s[-n:] for a count n >= 0: since -0 == 0 it is the whole
   *  sequence when n == 0, otherwise the last min(n, |s|) elements. */
  lemma LastN<T>(s: seq<T>, n: nat)
    ensures n == 0 ==> PyDrop(s, -(n as int)) == s
    ensures n > 0 ==> PyDrop(s, -(n as int)) == s[if n < |s| then |s| - n else 0..]
  {
  }

  // ---------------------------------------------------------------
  // strip() and split()

  function DropSpaces(s: string): (r: string)
    ensures |r| <= |s| && r == s[|s| - |r|..]
    ensures r == [] || !IsSpace(r[0])
    ensures forall i :: 0 <= i < |s| - |r| ==> IsSpace(s[i])
  {
    if s != [] && IsSpace(s[0]) then DropSpaces(s[1..]) else s
  }

  function DropTrailingSpaces(s: string): (r: string)
    ensures |r| <= |s| && r == s[..|r|]
    ensures r == [] || !IsSpace(r[|r| - 1])
    ensures forall i :: |r| <= i < |s| ==> IsSpace(s[i])
  {
    if s != [] && IsSpace(s[|s| - 1]) then DropTrailingSpaces(s[..|s| - 1]) else s
  }

  /** str.strip() with no argument: leading spaces are skipped one at a
   *  time, then trailing spaces are dropped. */
  function Strip(s: string): (r: string)
    ensures r == [] || !IsSpace(r[|r| - 1])
    decreases |s|
  {
    if s != [] && IsSpace(s[0]) then Strip(s[1..]) else DropTrailingSpaces(s)
  }

  lemma StripDef(s: string)
    ensures Strip(s) == DropTrailingSpaces(DropSpaces(s))
    decreases |s|
  {
    if s != [] && IsSpace(s[0]) {
      StripDef(s[1..]);
    }
  }

  /** Longest prefix of s without a space character. */
  function WordPrefix(s: string): (r: string)
    ensures |r| <= |s| && r == s[..|r|]
    ensures forall i :: 0 <= i < |r| ==> !IsSpace(r[i])
    ensures |r| < |s| ==> IsSpace(s[|r|])
  {
    if s == [] || IsSpace(s[0]) then [] else [s[0]] + WordPrefix(s[1..])
  }

  predicate IsWord(w: string) {
    w != [] && forall i :: 0 <= i < |w| ==> !IsSpace(w[i])
  }

  /** str.split() with no argument: the maximal runs of non-space
   *  characters, left to right. */
  function Split(s: string): (r: seq<string>)
    ensures forall k :: 0 <= k < |r| ==> IsWord(r[k])
    decreases |s|
  {
    var t := DropSpaces(s);
    if t == [] then [] else
      var w := WordPrefix(t);
      [w] + Split(t[|w|..])
  }

  /** sep.join(parts). */
  function Join(sep: string, parts: seq<string>): (r: string)
  {
    if parts == [] then ""
    else if |parts| == 1 then parts[0]
    else parts[0] + sep + Join(sep, parts[1..])
  }

  lemma JoinCons(sep: string, w: string, rest: seq<string>)
    requires rest != []
    ensures Join(sep, [w] + rest) == w + sep + Join(sep, rest)
  {
    assert ([w] + rest)[1..] == rest;
  }

  lemma JoinAppend(sep: string, parts: seq<string>, w: string)
    ensures Join(sep, parts + [w]) == if parts == [] then w else Join(sep, parts) + sep + w
  {
    if |parts| <= 1 {
      if |parts| == 1 {
        assert (parts + [w])[1..] == [w];
      }
    } else {
      assert (parts + [w])[1..] == parts[1..] + [w];
      JoinAppend(sep, parts[1..], w);
    }
  }

  /** A word followed by a separator space splits off exactly that word. */
  lemma SplitWordThen(w: string, rest: string)
    requires IsWord(w)
    requires rest == [] || IsSpace(rest[0])
    ensures Split(w + rest) == [w] + Split(rest)
  {
    var s := w + rest;
    assert DropSpaces(s) == s;
    WordPrefixOfWord(w, rest);
    assert s[|w|..] == rest;
  }

  lemma WordPrefixOfWord(w: string, rest: string)
    requires forall i :: 0 <= i < |w| ==> !IsSpace(w[i])
    requires rest == [] || IsSpace(rest[0])
    ensures WordPrefix(w + rest) == w
  {
    if w != [] {
      assert (w + rest)[1..] == w[1..] + rest;
      WordPrefixOfWord(w[1..], rest);
    }
  }

  lemma SplitLeadingSpace(s: string)
    requires s != [] && IsSpace(s[0])
    ensures Split(s) == Split(s[1..])
  {
  }

  /** Splitting a space-joined list of words gives back the words. */
  lemma {:induction false} SplitJoin(ws: seq<string>)
    requires forall k :: 0 <= k < |ws| ==> IsWord(ws[k])
    ensures Split(Join(" ", ws)) == ws
  {
    if ws == [] {
    } else if |ws| == 1 {
      SplitWordThen(ws[0], "");
      assert ws[0] + "" == ws[0];
      assert DropSpaces("") == "";
    } else {
      JoinCons(" ", ws[0], ws[1..]);
      assert [ws[0]] + ws[1..] == ws;
      var rest := Join(" ", ws[1..]);
      assert ws[0] + " " + rest == ws[0] + (" " + rest);
      SplitWordThen(ws[0], " " + rest);
      SplitLeadingSpace(" " + rest);
      assert (" " + rest)[1..] == rest;
      SplitJoin(ws[1..]);
    }
  }

  /** Every character of a space-joined word list is a word character
   *  or the separator. */
  lemma JoinChars(ws: seq<string>, P: char -> bool)
    requires P(' ')
    requires forall k, i :: 0 <= k < |ws| && 0 <= i < |ws[k]| ==> P(ws[k][i])
    ensures forall i :: 0 <= i < |Join(" ", ws)| ==> P(Join(" ", ws)[i])
  {
    if |ws| > 1 {
      JoinChars(ws[1..], P);
      var rest := Join(" ", ws[1..]);
      var r := Join(" ", ws);
      assert r == ws[0] + " " + rest;
      forall i | 0 <= i < |r| ensures P(r[i]) {
        if i < |ws[0]| { assert r[i] == ws[0][i]; }
        else if i == |ws[0]| { assert r[i] == ' '; }
        else { assert r[i] == rest[i - |ws[0]| - 1]; }
      }
    }
  }

  /** A space-joined word list has no leading and no trailing space. */
  lemma JoinEnds(ws: seq<string>)
    requires forall k :: 0 <= k < |ws| ==> IsWord(ws[k])
    ensures var r := Join(" ", ws); r == [] || (!IsSpace(r[0]) && !IsSpace(r[|r| - 1]))
  {
    if |ws| > 1 {
      JoinEnds(ws[1..]);
      var rest := Join(" ", ws[1..]);
      assert Join(" ", ws) == ws[0] + " " + rest;
      assert rest != [] by { assert |rest| >= |ws[1]|; JoinLength(ws[1..]); }
    }
  }

  lemma JoinLength(ws: seq<string>)
    requires ws != []
    ensures |Join(" ", ws)| >= |ws[0]|
  {
    if |ws| > 1 {
      assert Join(" ", ws) == ws[0] + " " + Join(" ", ws[1..]);
    }
  }

  lemma StripNoEdgeSpaces(s: string)
    requires s == [] || (!IsSpace(s[0]) && !IsSpace(s[|s| - 1]))
    ensures Strip(s) == s
  {
    StripDef(s);
  }

  /** [w.lower() for w in ws] */
  function LowerEach(ws: seq<string>): (r: seq<string>)
    ensures |r| == |ws|
    ensures forall k :: 0 <= k < |ws| ==> r[k] == Lower(ws[k])
  {
    if ws == [] then [] else [Lower(ws[0])] + LowerEach(ws[1..])
  }

  lemma LowerSlice(s: string, k: nat)
    requires k <= |s|
    ensures Lower(s)[k..] == Lower(s[k..])
  {
  }

  lemma DropSpacesLower(s: string)
    ensures DropSpaces(Lower(s)) == Lower(DropSpaces(s))
  {
    if s != [] && IsSpace(s[0]) {
      LowerSlice(s, 1);
      DropSpacesLower(s[1..]);
    }
  }

  lemma WordPrefixLower(s: string)
    ensures WordPrefix(Lower(s)) == Lower(WordPrefix(s))
  {
    if s != [] && !IsSpace(s[0]) {
      LowerSlice(s, 1);
      WordPrefixLower(s[1..]);
      assert Lower([s[0]] + WordPrefix(s[1..])) == [LowerChar(s[0])] + Lower(WordPrefix(s[1..]));
    }
  }

  /** Lowercasing moves no word boundary: splitting the lowered string
   *  gives the lowered words. */
  lemma {:induction false} SplitLower(s: string)
    ensures Split(Lower(s)) == LowerEach(Split(s))
    decreases |s|
  {
    var t := DropSpaces(s);
    DropSpacesLower(s);
    if t != [] {
      var w := WordPrefix(t);
      assert |w| > 0;
      WordPrefixLower(t);
      LowerSlice(t, |w|);
      SplitLower(t[|w|..]);
      assert Split(s) == [w] + Split(t[|w|..]);
      assert Split(Lower(s)) == [Lower(w)] + Split(Lower(t)[|w|..]);
      assert LowerEach([w] + Split(t[|w|..])) == [Lower(w)] + LowerEach(Split(t[|w|..]));
    }
  }

  predicate AllSpaces(u: string) { forall i :: 0 <= i < |u| ==> IsSpace(u[i]) }

  lemma {:induction false} BlankDropSpaces(u: string)
    requires AllSpaces(u)
    ensures DropSpaces(u) == []
  {
    if u != [] {
      BlankDropSpaces(u[1..]);
    }
  }

  lemma SplitSpaces(u: string)
    requires AllSpaces(u)
    ensures Split(u) == []
  {
  }

  lemma WordPrefixAppend(t: string, u: string)
    requires |WordPrefix(t)| < |t|
    ensures WordPrefix(t + u) == WordPrefix(t)
  {
    if !IsSpace(t[0]) {
      assert (t + u)[1..] == t[1..] + u;
      WordPrefixAppend(t[1..], u);
    }
  }

  lemma SplitWordTrailing(w: string, u: string)
    requires IsWord(w) && AllSpaces(u)
    ensures Split(w + u) == Split(w) == [w]
  {
    SplitWordThen(w, u);
    SplitSpaces(u);
    SplitWordThen(w, "");
    assert w + "" == w;
  }

  /** Unfolds split() once on a string that starts with a word shorter
   *  than the whole string. */
  lemma SplitFirstWord(t: string, u: string)
    requires t != [] && !IsSpace(t[0]) && |WordPrefix(t)| < |t|
    ensures var w := WordPrefix(t);
      && Split(t) == [w] + Split(t[|w|..])
      && Split(t + u) == [w] + Split(t[|w|..] + u)
  {
    var w := WordPrefix(t);
    WordPrefixAppend(t, u);
    assert DropSpaces(t) == t && DropSpaces(t + u) == t + u;
    assert (t + u)[|w|..] == t[|w|..] + u;
  }

  /** Trailing whitespace adds no word. */
  lemma {:induction false} SplitTrailing(t: string, u: string)
    requires AllSpaces(u)
    ensures Split(t + u) == Split(t)
    decreases |t|
  {
    if t == [] {
      assert t + u == u;
      SplitSpaces(u);
    } else if IsSpace(t[0]) {
      assert (t + u)[1..] == t[1..] + u;
      SplitLeadingSpace(t + u);
      SplitLeadingSpace(t);
      SplitTrailing(t[1..], u);
    } else if |WordPrefix(t)| == |t| {
      assert WordPrefix(t) == t;
      SplitWordTrailing(t, u);
    } else {
      var w := WordPrefix(t);
      SplitFirstWord(t, u);
      SplitTrailing(t[|w|..], u);
    }
  }

  lemma SplitDropSpaces(s: string)
    ensures Split(DropSpaces(s)) == Split(s)
  {
    assert DropSpaces(DropSpaces(s)) == DropSpaces(s);
  }

  /** split() already ignores what strip() removes. */
  lemma {:induction false} SplitStrip(s: string)
    ensures Split(Strip(s)) == Split(s)
    decreases |s|
  {
    if s != [] && IsSpace(s[0]) {
      SplitStrip(s[1..]);
      SplitLeadingSpace(s);
    } else {
      var r := DropTrailingSpaces(s);
      assert s == r + s[|r|..];
      SplitTrailing(r, s[|r|..]);
    }
  }

  /** Concatenation of a list of strings (an f-string made of parts). */
  function Concat(parts: seq<string>): string {
    if parts == [] then "" else parts[0] + Concat(parts[1..])
  }

  lemma {:induction false} ConcatSplit(parts: seq<string>, k: nat)
    requires k <= |parts|
    ensures Concat(parts) == Concat(parts[..k]) + Concat(parts[k..])
  {
    if k > 0 {
      ConcatSplit(parts[1..], k - 1);
      assert parts[1..][..k - 1] == parts[..k][1..];
      assert parts[1..][k - 1..] == parts[k..];
    } else {
      assert parts[..0] == [] && parts[0..] == parts;
    }
  }

  /** Part k sits unchanged at the combined length of the parts before it. */
  lemma ConcatPart(parts: seq<string>, k: nat)
    requires k < |parts|
    ensures var o := |Concat(parts[..k])|;
      o + |parts[k]| <= |Concat(parts)| && Concat(parts)[o..o + |parts[k]|] == parts[k]
  {
    ConcatSplit(parts, k);
    var rest := parts[k..];
    assert Concat(rest) == parts[k] + Concat(rest[1..]);
    var o := |Concat(parts[..k])|;
    assert Concat(parts) == Concat(parts[..k]) + (parts[k] + Concat(rest[1..]));
  }

  /** Later parts start no earlier than earlier parts end. */
  lemma ConcatOrdered(parts: seq<string>, j: nat, k: nat)
    requires j < k <= |parts|
    ensures |Concat(parts[..j])| + |parts[j]| <= |Concat(parts[..k])|
  {
    var pre := parts[..k];
    ConcatSplit(pre, j);
    assert pre[..j] == parts[..j];
    var mid := pre[j..];
    assert Concat(mid) == parts[j] + Concat(mid[1..]);
  }

  /** The text from part k onwards starts with part k. */
  lemma ConcatSuffix(parts: seq<string>, k: nat)
    requires k < |parts|
    ensures var o := |Concat(parts[..k])|;
      o <= |Concat(parts)| && Concat(parts)[o..] == parts[k] + Concat(parts[k + 1..])
  {
    ConcatSplit(parts, k);
    var rest := parts[k..];
    assert Concat(rest) == parts[k] + Concat(rest[1..]);
    assert rest[1..] == parts[k + 1..];
  }

  // ---------------------------------------------------------------
  // Substring search (the `in` operator on strings)

  predicate StartsWith(s: string, p: string) {
    |p| <= |s| && s[..|p|] == p
  }

  lemma StartsWithAppend(a: string, b: string)
    ensures StartsWith(a + b, a)
  {
    assert (a + b)[..|a|] == a;
  }

  lemma StartsWithTrans(s: string, p: string, q: string)
    requires StartsWith(s, p) && StartsWith(p, q)
    ensures StartsWith(s, q)
  {
    assert s[..|q|] == s[..|p|][..|q|];
  }

  predicate OccursAt(s: string, p: string, i: int) {
    0 <= i && i + |p| <= |s| && s[i..i + |p|] == p
  }

  /** p in s, as a left-to-right scan. */
  function Contains(s: string, p: string): (r: bool)
    ensures r <==> exists i :: OccursAt(s, p, i)
    decreases |s|
  {
    if StartsWith(s, p) then
      assert OccursAt(s, p, 0);
      true
    else if s == [] then
      assert forall i :: !OccursAt(s, p, i);
      false
    else
      var r := Contains(s[1..], p);
      ContainsShift(s, p);
      r
  }

  lemma ContainsShift(s: string, p: string)
    requires s != [] && !StartsWith(s, p)
    ensures (exists i :: OccursAt(s, p, i)) <==> (exists i :: OccursAt(s[1..], p, i))
  {
    forall i | OccursAt(s, p, i) ensures OccursAt(s[1..], p, i - 1) {
      assert i != 0;
      assert s[1..][i - 1..i - 1 + |p|] == s[i..i + |p|];
    }
    forall i | OccursAt(s[1..], p, i) ensures OccursAt(s, p, i + 1) {
      assert s[1..][i..i + |p|] == s[i + 1..i + 1 + |p|];
    }
  }

  /** A lower-cased text never contains a pattern with an upper-case
   *  letter. */
  lemma LowerNeverContainsUpper(s: string, p: string, j: nat)
    requires j < |p| && IsUpper(p[j])
    ensures !Contains(Lower(s), p)
  {
    var l := Lower(s);
    forall i | 0 <= i && i + |p| <= |l| ensures !OccursAt(l, p, i) {
      assert l[i..i + |p|][j] == l[i + j];
    }
  }

  // ---------------------------------------------------------------
  // str(int) and int() of a digit run

  function DigitChar(d: nat): (c: char)
    requires d < 10
    ensures IsDigit(c)
  {
    (48 + d) as char
  }

  function DigitValue(c: char): (d: nat)
    requires IsDigit(c)
    ensures d < 10
  {
    c as int - 48
  }

  predicate AllDigits(s: string) { forall i :: 0 <= i < |s| ==> IsDigit(s[i]) }

  /** str(n) for n >= 0. */
  function NatToString(n: nat): (r: string)
    ensures r != [] && AllDigits(r)
  {
    if n < 10 then [DigitChar(n)] else NatToString(n / 10) + [DigitChar(n % 10)]
  }

  /** str(i) for any integer. */
  function IntToString(i: int): (r: string)
    ensures r != []
    ensures forall k :: 0 <= k < |r| ==> r[k] != ':'
  {
    if i < 0 then "-" + NatToString(-i) else NatToString(i)
  }

  /** int(s) for a non-empty run of decimal digits. */
  function DigitsValue(s: string): nat
    requires AllDigits(s)
  {
    if s == [] then 0 else DigitsValue(s[..|s| - 1]) * 10 + DigitValue(s[|s| - 1])
  }

  lemma {:induction false} DigitsValueOfNatToString(n: nat)
    ensures DigitsValue(NatToString(n)) == n
  {
    if n >= 10 {
      var r := NatToString(n);
      assert r[..|r| - 1] == NatToString(n / 10);
      DigitsValueOfNatToString(n / 10);
    }
  }

  lemma SignOfIntToString(i: int)
    ensures (IntToString(i)[0] == '-') <==> i < 0
  {
  }

  lemma IntToStringInjective(a: int, b: int)
    requires IntToString(a) == IntToString(b)
    ensures a == b
  {
    SignOfIntToString(a);
    SignOfIntToString(b);
    var sa, sb := IntToString(a), IntToString(b);
    if a < 0 {
      assert sa[1..] == NatToString(-a) && sb[1..] == NatToString(-b);
      DigitsValueOfNatToString(-a);
      DigitsValueOfNatToString(-b);
    } else {
      DigitsValueOfNatToString(a);
      DigitsValueOfNatToString(b);
    }
  }
}
