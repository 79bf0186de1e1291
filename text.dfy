/**
 * The string operations the sheet import applies to cell text: Python's
 * `str.strip()`, the case-insensitive test for the word "nan", and
 * `str.title()` on ASCII letters.
 */
module SheetText {

  /** The characters `str.isspace()` accepts, which `str.strip()` removes from both ends. */
  predicate IsSpace(c: char) {
    c == ' ' || ('\t' <= c <= '\r') || ('\U{1c}' <= c <= '\U{1f}') || c == '\U{85}' || c == '\U{a0}'
    || c == '\U{1680}' || ('\U{2000}' <= c <= '\U{200a}') || c == '\U{2028}' || c == '\U{2029}'
    || c == '\U{202f}' || c == '\U{205f}' || c == '\U{3000}'
  }

  predicate AllSpace(s: string) {
    forall i | 0 <= i < |s| :: IsSpace(s[i])
  }

  /** The index of the first character at or after `i` that is not whitespace, or `|s|`. */
  function TextStart(s: string, i: nat): (j: nat)
    requires i <= |s|
    ensures i <= j <= |s|
    ensures forall k | i <= k < j :: IsSpace(s[k])
    ensures j == |s| || !IsSpace(s[j])
    decreases |s| - i
  {
    if i < |s| && IsSpace(s[i]) then TextStart(s, i + 1) else i
  }

  /** The index just past the last character before `j`, and at or after `lo`, that is not whitespace, or `lo`. */
  function TextEnd(s: string, lo: nat, j: nat): (e: nat)
    requires lo <= j <= |s|
    ensures lo <= e <= j
    ensures forall k | e <= k < j :: IsSpace(s[k])
    ensures e == lo || !IsSpace(s[e - 1])
    decreases j
  {
    if lo < j && IsSpace(s[j - 1]) then TextEnd(s, lo, j - 1) else j
  }

  /** `str.strip()`: the text between the leading and the trailing whitespace. */
  function Strip(s: string): (r: string)
    ensures |r| <= |s|
    ensures r == [] || (!IsSpace(r[0]) && !IsSpace(r[|r| - 1]))
  {
    var i := TextStart(s, 0);
    s[i..TextEnd(s, i, |s|)]
  }

  /** What strip removes is whitespace at the two ends, and what it keeps is the text in between. */
  lemma StripSlice(s: string) returns (i: nat)
    ensures i + |Strip(s)| <= |s|
    ensures Strip(s) == s[i..i + |Strip(s)|]
    ensures AllSpace(s[..i]) && AllSpace(s[i + |Strip(s)|..])
  {
    i := TextStart(s, 0);
    var e := TextEnd(s, i, |s|);
    assert Strip(s) == s[i..e];
    forall k | 0 <= k < |s[..i]| ensures IsSpace(s[..i][k]) {
      assert s[..i][k] == s[k];
    }
    forall k | 0 <= k < |s[e..]| ensures IsSpace(s[e..][k]) {
      assert s[e..][k] == s[e + k];
    }
  }

  /** A string is stripped to nothing exactly when it is all whitespace. */
  lemma StripEmpty(s: string)
    ensures Strip(s) == [] <==> AllSpace(s)
  {
    var i := TextStart(s, 0);
    if AllSpace(s) {
      assert i == |s|;
    } else {
      assert i < |s| && !IsSpace(s[i]);
      assert TextEnd(s, i, |s|) > i;
    }
  }

  /** Text without whitespace at either end is left as it is. */
  lemma StripKeeps(s: string)
    requires s == [] || (!IsSpace(s[0]) && !IsSpace(s[|s| - 1]))
    ensures Strip(s) == s
  {
    assert TextStart(s, 0) == 0;
    assert TextEnd(s, 0, |s|) == |s|;
  }

  /** Stripping twice strips no more than stripping once. */
  lemma StripIdempotent(s: string)
    ensures Strip(Strip(s)) == Strip(s)
  {
    StripKeeps(Strip(s));
  }

  lemma StripExample()
    ensures Strip(" Bkk\t") == "Bkk"
  {
    var s := " Bkk\t";
    assert IsSpace(s[0]) && !IsSpace(s[1]);
    assert TextStart(s, 1) == 1;
    assert TextStart(s, 0) == 1;
    assert IsSpace(s[4]) && !IsSpace(s[3]);
    assert TextEnd(s, 1, 4) == 4;
    assert TextEnd(s, 1, 5) == 4;
    assert s[1..4] == "Bkk";
  }

  // ---- case ----

  predicate IsUpper(c: char) { 'A' <= c <= 'Z' }

  predicate IsLower(c: char) { 'a' <= c <= 'z' }

  predicate IsLetter(c: char) { IsUpper(c) || IsLower(c) }

  function ToUpper(c: char): (u: char)
    ensures IsLetter(c) ==> IsUpper(u)
    ensures !IsLetter(c) ==> u == c
  {
    if IsLower(c) then (c as int - 32) as char else c
  }

  function ToLower(c: char): (l: char)
    ensures IsLetter(c) ==> IsLower(l)
    ensures !IsLetter(c) ==> l == c
  {
    if IsUpper(c) then (c as int + 32) as char else c
  }

  /** `s.lower() == "nan"`: the three letters n, a, n in any case. */
  predicate IsNanWord(s: string) {
    |s| == 3 && (s[0] == 'n' || s[0] == 'N') && (s[1] == 'a' || s[1] == 'A') && (s[2] == 'n' || s[2] == 'N')
  }

  /** The same test through `lower()`. */
  lemma NanWordIsLowerNan(s: string)
    ensures IsNanWord(s) <==> |s| == 3 && ToLower(s[0]) == 'n' && ToLower(s[1]) == 'a' && ToLower(s[2]) == 'n'
  {
  }

  lemma NanWordExamples()
    ensures IsNanWord("nan") && IsNanWord("NaN") && IsNanWord("NAN")
    ensures !IsNanWord("nana") && !IsNanWord("na") && !IsNanWord("Fuel")
  {
  }

  /**
   * `str.title()` on ASCII text: a letter that follows a letter is lowered,
   * any other letter is raised, and every other character is kept.
   * `afterLetter` says whether the character before `s` was a letter.
   */
  function TitleFrom(s: string, afterLetter: bool): (t: string)
    ensures |t| == |s|
    ensures forall i | 0 <= i < |s| :: IsLetter(t[i]) <==> IsLetter(s[i])
    ensures forall i | 0 <= i < |s| && !IsLetter(s[i]) :: t[i] == s[i]
    ensures forall i | 0 < i < |s| && IsLetter(s[i]) :: IsLower(t[i]) <==> IsLetter(s[i - 1])
    ensures |s| > 0 && IsLetter(s[0]) ==> (IsLower(t[0]) <==> afterLetter)
  {
    if s == [] then []
    else
      var c := s[0];
      var head := if !IsLetter(c) then c else if afterLetter then ToLower(c) else ToUpper(c);
      [head] + TitleFrom(s[1..], IsLetter(c))
  }

  function Title(s: string): (t: string)
    ensures |t| == |s|
  {
    TitleFrom(s, false)
  }

  /** Title case is kept by a second application. */
  lemma {:induction false} TitleFromIdempotent(s: string, afterLetter: bool)
    ensures TitleFrom(TitleFrom(s, afterLetter), afterLetter) == TitleFrom(s, afterLetter)
  {
    if s != [] {
      var t := TitleFrom(s, afterLetter);
      TitleFromIdempotent(s[1..], IsLetter(s[0]));
      assert t[1..] == TitleFrom(s[1..], IsLetter(s[0]));
      assert IsLetter(t[0]) == IsLetter(s[0]);
    }
  }

  lemma TitleIdempotent(s: string)
    ensures Title(Title(s)) == Title(s)
  {
    TitleFromIdempotent(s, false);
  }

  lemma TitleExample()
    ensures Title("bKK") == "Bkk"
  {
    assert "bKK"[1..] == "KK" && "KK"[1..] == "K" && "K"[1..] == [];
    assert TitleFrom("K", true) == "k";
    assert TitleFrom("KK", true) == "kk";
  }
}
