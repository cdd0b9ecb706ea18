// The CV loader: every PDF of the feed directory becomes a document
// dictionary whose url is derived from the file name, whose title is a
// candidate name guessed from the file name, and whose content is the
// stripped text of the non-blank pages.

module Loaders {
  import opened Records
  import opened PyText
  import opened Chunker

  // ---------------------------------------------------------------
  // _guess_candidate_name

  predicate IsSep(c: char) { c == '-' || c == '_' }

  /** Letters, the only characters str.title() treats as cased here. */
  predicate Cased(c: char) { IsUpper(c) || IsLowerLetter(c) }

  /** The index where a run of characters satisfying P that starts at
   *  `i` ends (a greedy `[...]*`). */
  function SkipRun(s: string, i: nat, P: char -> bool): (j: nat)
    requires i <= |s|
    ensures i <= j <= |s|
    ensures forall k :: i <= k < j ==> P(s[k])
    ensures j == |s| || !P(s[j])
    decreases |s| - i
  {
    if i < |s| && P(s[i]) then SkipRun(s, i + 1, P) else i
  }

  /** Whether the stem starts with "cv" in either case. */
  predicate CvStem(stem: string) {
    |stem| >= 2 && LowerChar(stem[0]) == 'c' && LowerChar(stem[1]) == 'v'
  }

  /** The length of the match of `^cv[-_]*\d*[-_]*` (0 when it does not
   *  match). */
  function PrefixEnd(stem: string): (n: nat)
    ensures n <= |stem|
    ensures !CvStem(stem) ==> n == 0
  {
    if CvStem(stem) then SkipRun(stem, SkipRun(stem, SkipRun(stem, 2, IsSep), IsDigit), IsSep) else 0
  }

  /** The stem with that prefix removed. */
  function AfterPrefix(stem: string): string {
    stem[PrefixEnd(stem)..]
  }

  /** Every "_" and "-" replaced by a space. */
  function Unhyphen(s: string): (r: string)
    ensures |r| == |s|
    ensures forall i :: 0 <= i < |s| ==> !IsSep(r[i]) && (IsSep(s[i]) ==> r[i] == ' ')
    ensures forall i :: 0 <= i < |s| && !IsSep(s[i]) ==> r[i] == s[i]
  {
    seq(|s|, i requires 0 <= i < |s| => if IsSep(s[i]) then ' ' else s[i])
  }

  /** The cleaned name before title-casing: the words of the unprefixed,
   *  unhyphenated stem joined by single spaces. */
  function CleanedName(stem: string): string {
    Join(" ", Split(Unhyphen(AfterPrefix(stem))))
  }

  /** str.title() on ASCII letters: a letter following a letter is
   *  lowered, every other letter is raised. */
  function Title(s: string): (r: string)
    ensures |r| == |s|
  {
    seq(|s|, i requires 0 <= i < |s| =>
      if i > 0 && Cased(s[i - 1]) then LowerChar(s[i]) else UpperChar(s[i]))
  }

  /** _guess_candidate_name on a file stem. */
  function GuessCandidateName(stem: string): string {
    var cleaned := CleanedName(stem);
    if cleaned != "" then Title(cleaned) else stem
  }

  lemma UpperCharCased(c: char)
    ensures Cased(UpperChar(c)) <==> Cased(c)
    ensures Cased(LowerChar(c)) <==> Cased(c)
    ensures LowerChar(UpperChar(c)) == LowerChar(c)
    ensures IsSpace(UpperChar(c)) <==> IsSpace(c)
    ensures IsSep(UpperChar(c)) <==> IsSep(c)
  {
  }

  /** title() on one character, given what precedes it. */
  lemma TitleAt(s: string, i: nat)
    requires i < |s|
    ensures LowerChar(Title(s)[i]) == LowerChar(s[i])
    ensures Cased(Title(s)[i]) <==> Cased(s[i])
    ensures IsSpace(Title(s)[i]) <==> IsSpace(s[i])
    ensures !Cased(s[i]) ==> Title(s)[i] == s[i]
    ensures i == 0 || !Cased(s[i - 1]) ==> !IsLowerLetter(Title(s)[i])
    ensures i > 0 && Cased(s[i - 1]) ==> !IsUpper(Title(s)[i])
  {
    UpperCharCased(s[i]);
  }

  /** title() changes only the case of letters: each letter that starts a
   *  run of letters is upper case, every other letter lower case, and
   *  lowering the result gives the lowered input. */
  lemma TitleShape(s: string)
    ensures Lower(Title(s)) == Lower(s)
    ensures forall i :: 0 <= i < |s| ==> (Cased(Title(s)[i]) <==> Cased(s[i]))
    ensures forall i :: 0 <= i < |s| ==> (IsSpace(Title(s)[i]) <==> IsSpace(s[i]))
    ensures forall i :: 0 <= i < |s| && !Cased(s[i]) ==> Title(s)[i] == s[i]
    ensures forall i :: 0 <= i < |s| && (i == 0 || !Cased(s[i - 1])) ==> !IsLowerLetter(Title(s)[i])
    ensures forall i :: 0 <= i < |s| && i > 0 && Cased(s[i - 1]) ==> !IsUpper(Title(s)[i])
  {
    forall i | 0 <= i < |s|
      ensures LowerChar(Title(s)[i]) == LowerChar(s[i])
      ensures Cased(Title(s)[i]) <==> Cased(s[i])
      ensures IsSpace(Title(s)[i]) <==> IsSpace(s[i])
      ensures !Cased(s[i]) ==> Title(s)[i] == s[i]
      ensures i == 0 || !Cased(s[i - 1]) ==> !IsLowerLetter(Title(s)[i])
      ensures i > 0 && Cased(s[i - 1]) ==> !IsUpper(Title(s)[i])
    {
      TitleAt(s, i);
    }
    assert Lower(Title(s)) == Lower(s);
  }

  /** A character the cleaned name may hold: no separator, and blanks
   *  as its only white space. */
  predicate NameChar(c: char) { !IsSep(c) && (IsSpace(c) ==> c == ' ') }

  /** The cleaned name is made of name characters and has no white space
   *  at either end. */
  lemma CleanedNameChars(stem: string)
    ensures forall i :: 0 <= i < |CleanedName(stem)| ==> NameChar(CleanedName(stem)[i])
    ensures var c := CleanedName(stem); c == [] || (!IsSpace(c[0]) && !IsSpace(c[|c| - 1]))
  {
    var u := Unhyphen(AfterPrefix(stem));
    var ws := Split(u);
    JoinEnds(ws);
    assert NoSeps(u);
    SplitNoSeps(u);
    forall k, i | 0 <= k < |ws| && 0 <= i < |ws[k]| ensures NameChar(ws[k][i]) {
      assert IsWord(ws[k]) && NoSeps(ws[k]);
    }
    JoinChars(ws, NameChar);
  }

  /** A name as the loader shows it: not empty, no white space at either
   *  end, only name characters, and upper case wherever a word starts. */
  predicate ShownName(r: string) {
    r != [] && !IsSpace(r[0]) && !IsSpace(r[|r| - 1]) && Strip(r) == r &&
    (forall i :: 0 <= i < |r| ==> NameChar(r[i])) &&
    (forall i :: 0 <= i < |r| && (i == 0 || r[i - 1] == ' ') ==> !IsLowerLetter(r[i]))
  }

  /** title() of a cleaned name keeps it a cleaned name and raises the
   *  first letter of each word. */
  lemma TitledName(c: string)
    requires c != [] && !IsSpace(c[0]) && !IsSpace(c[|c| - 1])
    requires forall i :: 0 <= i < |c| ==> NameChar(c[i])
    ensures Lower(Title(c)) == Lower(c) && ShownName(Title(c))
  {
    var r := Title(c);
    TitledNameChars(c);
    TitledWordStarts(c);
    TitleAt(c, 0);
    TitleAt(c, |r| - 1);
    StripNoEdgeSpaces(r);
    TitleShape(c);
  }

  lemma TitledNameChars(c: string)
    requires forall i :: 0 <= i < |c| ==> NameChar(c[i])
    ensures forall i :: 0 <= i < |Title(c)| ==> NameChar(Title(c)[i])
  {
    forall i | 0 <= i < |Title(c)| ensures NameChar(Title(c)[i]) {
      TitleAt(c, i);
    }
  }

  lemma TitledWordStarts(c: string)
    ensures forall i :: 0 <= i < |Title(c)| && (i == 0 || Title(c)[i - 1] == ' ') ==> !IsLowerLetter(Title(c)[i])
  {
    var r := Title(c);
    forall i | 0 <= i < |r| && (i == 0 || r[i - 1] == ' ')
      ensures !IsLowerLetter(r[i])
    {
      TitleAt(c, i);
      if i > 0 {
        TitleAt(c, i - 1);
      }
    }
  }

  /** The guessed name: when anything is left after cleaning, it is the
   *  cleaned words up to case and a shown name (no "-" or "_", blanks as
   *  its only white space, none at either end, every word starting upper
   *  case); when nothing is left the stem itself is the name. */
  lemma CandidateNameShape(stem: string)
    ensures CleanedName(stem) == "" ==> GuessCandidateName(stem) == stem
    ensures CleanedName(stem) != "" ==>
              Lower(GuessCandidateName(stem)) == Lower(CleanedName(stem)) &&
              ShownName(GuessCandidateName(stem))
  {
    var cleaned := CleanedName(stem);
    CleanedNameChars(stem);
    if cleaned != "" {
      TitledName(cleaned);
      assert GuessCandidateName(stem) == Title(cleaned);
    }
  }

  predicate NoSeps(s: string) { forall j :: 0 <= j < |s| ==> !IsSep(s[j]) }

  lemma NoSepsDrop(s: string, lo: nat)
    requires NoSeps(s) && lo <= |s|
    ensures NoSeps(s[lo..])
  {
    assert forall j :: 0 <= j < |s| - lo ==> s[lo..][j] == s[lo + j];
  }

  lemma NoSepsTake(s: string, hi: nat)
    requires NoSeps(s) && hi <= |s|
    ensures NoSeps(s[..hi])
  {
    assert forall j :: 0 <= j < hi ==> s[..hi][j] == s[j];
  }

  /** The words of a string without separators hold no separator. */
  lemma {:induction false} SplitNoSeps(s: string)
    requires NoSeps(s)
    ensures forall k :: 0 <= k < |Split(s)| ==> NoSeps(Split(s)[k])
    decreases |s|
  {
    var t := DropSpaces(s);
    if t == [] {
      assert Split(s) == [];
    } else {
      var w := WordPrefix(t);
      NoSepsDrop(s, |s| - |t|);
      NoSepsTake(t, |w|);
      NoSepsDrop(t, |w|);
      var rest := t[|w|..];
      SplitNoSeps(rest);
      var tail := Split(rest);
      ConsNoSeps(w, tail);
      assert Split(s) == [w] + tail;
    }
  }

  lemma ConsNoSeps(w: string, tail: seq<string>)
    requires NoSeps(w) && forall k :: 0 <= k < |tail| ==> NoSeps(tail[k])
    ensures forall k :: 0 <= k < |[w] + tail| ==> NoSeps(([w] + tail)[k])
  {
    forall k | 0 <= k < |[w] + tail| ensures NoSeps(([w] + tail)[k]) {
      if k > 0 {
        assert ([w] + tail)[k] == tail[k - 1];
      }
    }
  }

  /** A run of P that covers s[i..j] and stops at j ends at j. */
  lemma {:induction false} SkipRunTo(s: string, i: nat, j: nat, P: char -> bool)
    requires i <= j <= |s|
    requires forall k :: i <= k < j ==> P(s[k])
    requires j == |s| || !P(s[j])
    ensures SkipRun(s, i, P) == j
    decreases j - i
  {
    if i < j {
      SkipRunTo(s, i + 1, j, P);
    }
  }

  /** "cv" in any case. */
  predicate CvPair(p: string) {
    |p| == 2 && LowerChar(p[0]) == 'c' && LowerChar(p[1]) == 'v'
  }

  predicate AllSeps(s: string) { forall i :: 0 <= i < |s| ==> IsSep(s[i]) }

  /** The prefix pattern consumes "cv" (in any case), a run of
   *  separators, a non-empty run of digits and a run of separators, and
   *  leaves the rest when the rest starts with a letter. */
  lemma PrefixMatch(p: string, s1: string, d: string, s2: string, rest: string)
    requires CvPair(p) && AllSeps(s1) && AllSeps(s2)
    requires d != [] && AllDigits(d)
    requires rest == [] || Cased(rest[0])
    ensures AfterPrefix(p + s1 + d + s2 + rest) == rest
  {
    var s := p + s1 + d + s2 + rest;
    var i1 := 2 + |s1|;
    var i2 := i1 + |d|;
    var i3 := i2 + |s2|;
    assert CvStem(s);
    forall k | 2 <= k < i1 ensures IsSep(s[k]) { assert s[k] == s1[k - 2]; }
    assert s[i1] == d[0];
    SkipRunTo(s, 2, i1, IsSep);
    forall k | i1 <= k < i2 ensures IsDigit(s[k]) { assert s[k] == d[k - i1]; }
    assert i2 < |s| ==> s[i2] == if s2 != [] then s2[0] else rest[0];
    SkipRunTo(s, i1, i2, IsDigit);
    forall k | i2 <= k < i3 ensures IsSep(s[k]) { assert s[k] == s2[k - i2]; }
    assert i3 < |s| ==> s[i3] == rest[0];
    SkipRunTo(s, i2, i3, IsSep);
    assert s[i3..] == rest;
  }

  /** A stem made of nothing but the "cv" prefix, separators and digits
   *  (such as "CV-007") keeps the stem as the name. */
  lemma PrefixOnlyStem(p: string, s1: string, d: string, s2: string)
    requires CvPair(p) && AllSeps(s1) && AllSeps(s2)
    requires d != [] && AllDigits(d)
    ensures GuessCandidateName(p + s1 + d + s2) == p + s1 + d + s2
  {
    PrefixMatch(p, s1, d, s2, []);
    assert p + s1 + d + s2 + [] == p + s1 + d + s2;
    assert Split(Unhyphen([])) == [];
  }

  /** A non-empty run of lower-case letters is a word. */
  lemma LetterWord(w: string)
    requires w != [] && forall i :: 0 <= i < |w| ==> IsLowerLetter(w[i])
    ensures IsWord(w)
  {
  }

  /** title() of a space-separated pair of lower-case words raises the
   *  first letter of each. */
  lemma TitleTwoWords(a: string, b: string)
    requires a != [] && forall i :: 0 <= i < |a| ==> IsLowerLetter(a[i])
    requires b != [] && forall i :: 0 <= i < |b| ==> IsLowerLetter(b[i])
    ensures Title(a + " " + b) == [UpperChar(a[0])] + a[1..] + " " + [UpperChar(b[0])] + b[1..]
  {
    var s := a + " " + b;
    var e := [UpperChar(a[0])] + a[1..] + " " + [UpperChar(b[0])] + b[1..];
    forall i | 0 <= i < |s| ensures Title(s)[i] == e[i] {
      if i < |a| {
        assert s[i] == a[i];
        if i > 0 { assert s[i - 1] == a[i - 1]; }
      } else if i > |a| + 1 {
        assert s[i] == b[i - |a| - 1] && s[i - 1] == b[i - |a| - 2];
      }
    }
  }

  /** Two words separated by one blank split into those two words. */
  lemma SplitTwoWords(a: string, b: string)
    requires IsWord(a) && IsWord(b)
    ensures Split(a + " " + b) == [a, b]
  {
    var ws := [a, b];
    JoinCons(" ", a, [b]);
    assert [a] + [b] == ws;
    SplitJoin(ws);
  }

  lemma UnhyphenPair(a: string, b: string)
    requires forall i :: 0 <= i < |a| ==> !IsSep(a[i])
    requires forall i :: 0 <= i < |b| ==> !IsSep(b[i])
    ensures Unhyphen(a + "-" + b) == a + " " + b
  {
    var s := a + "-" + b;
    forall i | 0 <= i < |s| ensures Unhyphen(s)[i] == (a + " " + b)[i] {
      if i > |a| { assert s[i] == b[i - |a| - 1]; }
    }
  }

  /** The name derived from a "cv" stem whose rest is two lower-case
   *  words joined by a hyphen. */
  lemma TwoWordName(s: string, a: string, b: string)
    requires AfterPrefix(s) == a + "-" + b
    requires a != [] && forall i :: 0 <= i < |a| ==> IsLowerLetter(a[i])
    requires b != [] && forall i :: 0 <= i < |b| ==> IsLowerLetter(b[i])
    ensures GuessCandidateName(s) == [UpperChar(a[0])] + a[1..] + " " + [UpperChar(b[0])] + b[1..]
  {
    LetterWord(a);
    LetterWord(b);
    UnhyphenPair(a, b);
    SplitTwoWords(a, b);
    JoinCons(" ", a, [b]);
    assert [a] + [b] == [a, b];
    assert CleanedName(s) == a + " " + b;
    TitleTwoWords(a, b);
  }

  /** The file naming the dataset uses, as in "cv-02-caitlin-cannon"
   *  giving "Caitlin Cannon": "cv", separators, a number, separators and
   *  two lower-case words joined by a hyphen give the two words
   *  capitalised and joined by a blank. */
  lemma NumberedStem(p: string, s1: string, d: string, s2: string, a: string, b: string)
    requires CvPair(p) && AllSeps(s1) && AllSeps(s2)
    requires d != [] && AllDigits(d)
    requires a != [] && forall i :: 0 <= i < |a| ==> IsLowerLetter(a[i])
    requires b != [] && forall i :: 0 <= i < |b| ==> IsLowerLetter(b[i])
    ensures GuessCandidateName(p + s1 + d + s2 + (a + "-" + b)) ==
            [UpperChar(a[0])] + a[1..] + " " + [UpperChar(b[0])] + b[1..]
  {
    PrefixMatch(p, s1, d, s2, a + "-" + b);
    TwoWordName(p + s1 + d + s2 + (a + "-" + b), a, b);
  }

  /** The name derived from a stem whose rest is one lower-case word. */
  lemma OneWordName(s: string, w: string)
    requires AfterPrefix(s) == w
    requires w != [] && forall i :: 0 <= i < |w| ==> IsLowerLetter(w[i])
    ensures GuessCandidateName(s) == [UpperChar(w[0])] + w[1..]
  {
    assert Unhyphen(w) == w;
    LetterWord(w);
    SplitJoin([w]);
    assert CleanedName(s) == w;
    TitleOneWord(w);
  }

  /** str.title() of one lower-case word raises its first letter only. */
  lemma TitleOneWord(w: string)
    requires w != [] && forall i :: 0 <= i < |w| ==> IsLowerLetter(w[i])
    ensures Title(w) == [UpperChar(w[0])] + w[1..]
  {
    var r := [UpperChar(w[0])] + w[1..];
    forall i | 0 <= i < |w| ensures Title(w)[i] == r[i] {
      if i > 0 { assert Cased(w[i - 1]); }
    }
  }

  /** The prefix rule also fires inside a plain name, as in "cvetkova"
   *  giving "Etkova": "cv" directly followed by a lower-case word is
   *  dropped. */
  lemma CvInsideName(p: string, w: string)
    requires CvPair(p)
    requires w != [] && forall i :: 0 <= i < |w| ==> IsLowerLetter(w[i])
    ensures GuessCandidateName(p + w) == [UpperChar(w[0])] + w[1..]
  {
    var s := p + w;
    assert CvStem(s);
    assert s[2] == w[0];
    assert SkipRun(s, 2, IsSep) == 2;
    assert SkipRun(s, 2, IsDigit) == 2;
    assert s[2..] == w;
    OneWordName(s, w);
  }

  // ---------------------------------------------------------------
  // _extract_text

  /** The stripped texts of the pages that are not blank, in page order
   *  (a page whose extract_text() returns None counts as ""). */
  function PageTexts(pages: seq<Option<string>>): (r: seq<string>)
    ensures |r| <= |pages|
    ensures forall k :: 0 <= k < |r| ==> r[k] != "" && !IsSpace(r[k][|r[k]| - 1])
  {
    if pages == [] then []
    else
      var cleaned := Strip(pages[|pages| - 1].GetOr(""));
      StripEnds(pages[|pages| - 1].GetOr(""));
      PageTexts(pages[..|pages| - 1]) + (if cleaned != "" then [cleaned] else [])
  }

  lemma StripEnds(s: string)
    ensures Strip(s) == [] || !IsSpace(Strip(s)[|Strip(s)| - 1])
    ensures Strip(s) == [] <==> AllSpaces(s)
  {
    StripDef(s);
    var t := DropSpaces(s);
    if AllSpaces(s) {
      BlankDropSpaces(s);
    } else {
      var i :| 0 <= i < |s| && !IsSpace(s[i]);
      assert t != [] && !IsSpace(t[0]);
    }
  }

  /** _extract_text: the non-blank pages joined by a blank line, and the
   *  number of pages, blank ones included. */
  method ExtractText(pages: seq<Option<string>>) returns (text: string, pageCount: nat)
    ensures text == Join("\n\n", PageTexts(pages))
    ensures pageCount == |pages|
  {
    var kept: seq<string> := [];
    var i := 0;
    while i < |pages|
      invariant 0 <= i <= |pages|
      invariant kept == PageTexts(pages[..i])
    {
      assert pages[..i + 1][..i] == pages[..i];
      var pageText := pages[i].GetOr("");
      var cleaned := Strip(pageText);
      if cleaned != "" {
        kept := kept + [cleaned];
      }
      i := i + 1;
    }
    assert pages[..i] == pages;
    text := Join("\n\n", kept);
    pageCount := |pages|;
  }

  /** The extracted text is blank exactly when no page has text, so load
   *  skips precisely the PDFs without any text. */
  lemma ExtractedBlank(pages: seq<Option<string>>)
    ensures Strip(Join("\n\n", PageTexts(pages))) == "" <==> PageTexts(pages) == []
  {
    var ws := PageTexts(pages);
    var text := Join("\n\n", ws);
    StripEnds(text);
    if ws != [] {
      var w := ws[0];
      assert text[..|w|] == w by {
        if |ws| > 1 {
          assert text == w + "\n\n" + Join("\n\n", ws[1..]);
        }
      }
      assert text[|w| - 1] == w[|w| - 1];
      assert !AllSpaces(text);
    }
  }

  // ---------------------------------------------------------------
  // load

  /** One file of the sorted glob: its stem, name and path, and its pages
   *  or the exception opening it raised. */
  datatype PdfFile = PdfFile(stem: string, name: string, path: string, pages: Result<seq<Option<string>>>)

  /** The document dictionary built for a file with text. */
  function Document(file: PdfFile, text: string, pageCount: nat, md5: string -> string): SourceDoc {
    var candidate := GuessCandidateName(file.stem);
    SourceDoc(
      Some("cv://" + file.stem),
      Some(candidate),
      Some(text),
      Some(map["candidate" := JStr(candidate), "source_file" := JStr(file.name),
               "source_path" := JStr(file.path), "document_type" := JStr("resume"),
               "pages" := JInt(pageCount)]),
      Some(md5(text)))
  }

  /** The document a file yields, or None when opening it raised or its
   *  text is blank. */
  function FileDocument(file: PdfFile, md5: string -> string): Option<SourceDoc> {
    match file.pages
    case Failure(_) => None
    case Success(pages) =>
      var text := Join("\n\n", PageTexts(pages));
      if Strip(text) == "" then None else Some(Document(file, text, |pages|, md5))
  }

  /** What load returns for the files in glob order: a file that failed
   *  or had no text contributes nothing. */
  function Loaded(files: seq<PdfFile>, md5: string -> string): seq<SourceDoc> {
    if files == [] then []
    else
      var d := FileDocument(files[|files| - 1], md5);
      Loaded(files[..|files| - 1], md5) + (if d.Some? then [d.value] else [])
  }

  /** load. */
  method Load(files: seq<PdfFile>, md5: string -> string) returns (documents: seq<SourceDoc>)
    ensures documents == Loaded(files, md5)
  {
    documents := [];
    if files == [] {
      return;
    }
    var i := 0;
    while i < |files|
      invariant 0 <= i <= |files|
      invariant documents == Loaded(files[..i], md5)
    {
      var file := files[i];
      assert files[..i + 1][..i] == files[..i];
      if file.pages.Success? {
        var text, pageCount := ExtractText(file.pages.value);
        if Strip(text) != "" {
          var candidate := GuessCandidateName(file.stem);
          var contentHash := md5(text);
          documents := documents + [SourceDoc(
            Some("cv://" + file.stem),
            Some(candidate),
            Some(text),
            Some(map["candidate" := JStr(candidate), "source_file" := JStr(file.name),
                     "source_path" := JStr(file.path), "document_type" := JStr("resume"),
                     "pages" := JInt(pageCount)]),
            Some(contentHash))];
        }
      }
      i := i + 1;
    }
    assert files[..i] == files;
  }

  /** The document a file yields has the "cv://" url of its stem, the
   *  guessed name as title and candidate, content that is not blank and
   *  the hash of that content. */
  lemma FileDocumentShape(file: PdfFile, md5: string -> string)
    ensures var d := FileDocument(file, md5);
            d.Some? ==>
              d.value.url == Some("cv://" + file.stem) &&
              d.value.title == Some(GuessCandidateName(file.stem)) &&
              d.value.content.Some? && !Blank(d.value.content) &&
              d.value.metadata.Some? && "candidate" in d.value.metadata.value &&
              d.value.metadata.value["candidate"] == JStr(d.value.title.value) &&
              d.value.contentHash == Some(md5(d.value.content.value))
  {
  }

  /** Every loaded document comes from one of the files: its url is
   *  "cv://" and the stem, its title the guessed name, which is also
   *  its candidate metadata, its content is not blank (so the chunker
   *  never skips it) and its hash is the hash of its content. */
  lemma {:induction false} LoadedDocuments(files: seq<PdfFile>, md5: string -> string)
    ensures |Loaded(files, md5)| <= |files|
    ensures forall d :: d in Loaded(files, md5) ==>
              (exists j :: 0 <= j < |files| && d.url == Some("cv://" + files[j].stem) &&
                           d.title == Some(GuessCandidateName(files[j].stem))) &&
              d.content.Some? && !Blank(d.content) &&
              d.metadata.Some? && "candidate" in d.metadata.value &&
              d.metadata.value["candidate"] == JStr(d.title.value) &&
              d.contentHash == Some(md5(d.content.value))
  {
    if files != [] {
      var init := files[..|files| - 1];
      var last := files[|files| - 1];
      LoadedDocuments(init, md5);
      FileDocumentShape(last, md5);
      var extra := FileDocument(last, md5);
      assert Loaded(files, md5) == Loaded(init, md5) + (if extra.Some? then [extra.value] else []);
      forall d | d in Loaded(files, md5)
        ensures exists j :: 0 <= j < |files| && d.url == Some("cv://" + files[j].stem) &&
                            d.title == Some(GuessCandidateName(files[j].stem))
      {
        if d in Loaded(init, md5) {
          var j :| 0 <= j < |init| && d.url == Some("cv://" + init[j].stem) &&
                   d.title == Some(GuessCandidateName(init[j].stem));
          assert files[j] == init[j];
        } else {
          assert d == extra.value;
          assert files[|files| - 1] == last;
        }
      }
    }
  }

  lemma CvUrlInjective(a: string, b: string)
    requires "cv://" + a == "cv://" + b
    ensures a == b
  {
    assert a == ("cv://" + a)[5..];
    assert b == ("cv://" + b)[5..];
  }

  /** The url a loaded file gets. */
  lemma FileUrl(file: PdfFile, md5: string -> string)
    ensures FileDocument(file, md5).Some? ==> FileDocument(file, md5).value.url == Some("cv://" + file.stem)
  {
  }

  /** No loaded document has the url of a stem no file has. */
  lemma {:induction false} LoadedUrlsAvoid(files: seq<PdfFile>, md5: string -> string, stem: string)
    requires forall j :: 0 <= j < |files| ==> files[j].stem != stem
    ensures forall i :: 0 <= i < |Loaded(files, md5)| ==> Loaded(files, md5)[i].url != Some("cv://" + stem)
  {
    if files != [] {
      var init := files[..|files| - 1];
      var last := files[|files| - 1];
      LoadedUrlsAvoid(init, md5, stem);
      FileUrl(last, md5);
      if FileDocument(last, md5).Some? && FileDocument(last, md5).value.url == Some("cv://" + stem) {
        CvUrlInjective(last.stem, stem);
      }
    }
  }

  /** Files with distinct stems give documents with distinct urls, so no
   *  loaded document overwrites another when stored. */
  lemma {:induction false} LoadedUrlsDistinct(files: seq<PdfFile>, md5: string -> string)
    requires forall i, j :: 0 <= i < j < |files| ==> files[i].stem != files[j].stem
    ensures forall i, j :: 0 <= i < j < |Loaded(files, md5)| ==>
              Loaded(files, md5)[i].url != Loaded(files, md5)[j].url
  {
    if files != [] {
      var init := files[..|files| - 1];
      var last := files[|files| - 1];
      LoadedUrlsDistinct(init, md5);
      LoadedUrlsAvoid(init, md5, last.stem);
      FileUrl(last, md5);
      var before := Loaded(init, md5);
      var extra := FileDocument(last, md5);
      if extra.Some? {
        var docs := before + [extra.value];
        assert Loaded(files, md5) == docs;
        forall i, j | 0 <= i < j < |docs| ensures docs[i].url != docs[j].url {
          assert docs[i] == before[i];
          if j < |before| {
            assert docs[j] == before[j];
          } else {
            assert docs[j] == extra.value;
          }
        }
      }
    }
  }

  /** A file that cannot be read, or whose text is blank, is skipped and
   *  the files around it still load. */
  lemma {:induction false} LoadedAppend(a: seq<PdfFile>, b: seq<PdfFile>, md5: string -> string)
    ensures Loaded(a + b, md5) == Loaded(a, md5) + Loaded(b, md5)
    decreases |b|
  {
    if b == [] {
      assert a + b == a;
    } else {
      var n := |b| - 1;
      assert (a + b)[..|a + b| - 1] == a + b[..n];
      assert (a + b)[|a + b| - 1] == b[n];
      LoadedAppend(a, b[..n], md5);
    }
  }

  lemma SkippedFile(file: PdfFile, md5: string -> string)
    ensures Loaded([file], md5) == [] <==>
              file.pages.Failure? || PageTexts(file.pages.value) == []
  {
    assert [file][..0] == [];
    if file.pages.Success? {
      ExtractedBlank(file.pages.value);
    }
  }
}
