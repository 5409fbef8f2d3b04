/** Python's `str` operations used by the location normaliser, restricted to
    ASCII: `strip()`, `replace("&", "And")`, `title()`, `lower()`, and the
    code-point ordering Python uses to sort strings. */
module Text {

  /** Python's `str.isspace()` on the ASCII range: space, \t \n \v \f \r and
      the four separator controls \x1c to \x1f. */
  predicate IsSpace(c: char) {
    c == ' ' || ('\t' <= c <= '\r') || ('\U{1C}' <= c <= '\U{1F}')
  }

  predicate IsUpper(c: char) { 'A' <= c <= 'Z' }

  predicate IsLower(c: char) { 'a' <= c <= 'z' }

  /** On ASCII the cased characters of Python are exactly the letters. */
  predicate IsLetter(c: char) { IsUpper(c) || IsLower(c) }

  function ToUpper(c: char): (r: char)
    ensures IsLetter(r) == IsLetter(c)
    ensures IsLetter(c) ==> IsUpper(r)
    ensures !IsLower(c) ==> r == c
  {
    if IsLower(c) then (c as int - 32) as char else c
  }

  function ToLower(c: char): (r: char)
    ensures IsLetter(r) == IsLetter(c)
    ensures IsLetter(c) ==> IsLower(r)
    ensures !IsUpper(c) ==> r == c
  {
    if IsUpper(c) then (c as int + 32) as char else c
  }

  /** Python's `str.lower()`. */
  function Lower(s: string): (r: string)
    ensures |r| == |s|
    ensures forall i :: 0 <= i < |s| ==> r[i] == ToLower(s[i])
  {
    seq(|s|, i requires 0 <= i < |s| => ToLower(s[i]))
  }

  // ---------------------------------------------------------------------------
  // strip()
  // ---------------------------------------------------------------------------

  /** The number of whitespace characters that open `s`. */
  function LeadingSpaces(s: string): (n: nat)
    ensures n <= |s|
    ensures forall i :: 0 <= i < n ==> IsSpace(s[i])
    ensures n < |s| ==> !IsSpace(s[n])
  {
    if s == [] || !IsSpace(s[0]) then 0 else 1 + LeadingSpaces(s[1..])
  }

  /** The number of whitespace characters that close `s`. */
  function TrailingSpaces(s: string): (n: nat)
    ensures n <= |s|
    ensures forall i :: |s| - n <= i < |s| ==> IsSpace(s[i])
    ensures n < |s| ==> !IsSpace(s[|s| - 1 - n])
  {
    if s == [] || !IsSpace(s[|s| - 1]) then 0 else 1 + TrailingSpaces(s[..|s| - 1])
  }

  /** No whitespace at either end. */
  predicate IsStripped(s: string) {
    s == [] || (!IsSpace(s[0]) && !IsSpace(s[|s| - 1]))
  }

  /** Python's `str.strip()`: the longest infix of `s` that neither starts nor
      ends with whitespace, once every whitespace character around it is gone. */
  function Strip(s: string): (r: string)
    ensures IsStripped(r)
    ensures var lo := LeadingSpaces(s);
            lo <= |s| - TrailingSpaces(s[lo..]) && r == s[lo..|s| - TrailingSpaces(s[lo..])]
  {
    var rest := s[LeadingSpaces(s)..];
    rest[..|rest| - TrailingSpaces(rest)]
  }

  /** Stripping keeps every non-whitespace character. */
  lemma StripKeeps(s: string, i: nat)
    requires i < |s| && !IsSpace(s[i])
    ensures s[i] in Strip(s)
  {
    var lo := LeadingSpaces(s);
    var rest := s[lo..];
    var t := TrailingSpaces(rest);
    assert lo <= i;
    assert i - lo < |rest| - t;
    assert Strip(s)[i - lo] == s[i];
  }

  /** Stripping only removes characters. */
  lemma StripSubset(s: string, c: char)
    requires c in Strip(s)
    ensures c in s
  {
    var lo := LeadingSpaces(s);
    var rest := s[lo..];
    var j :| 0 <= j < |Strip(s)| && Strip(s)[j] == c;
    assert s[lo + j] == c;
  }

  lemma StripStripped(s: string)
    requires IsStripped(s)
    ensures Strip(s) == s
  {
  }

  // ---------------------------------------------------------------------------
  // replace("&", "And")
  // ---------------------------------------------------------------------------

  /** Python's `str.replace("&", "And")`. */
  function ReplaceAmpersand(s: string): (r: string)
    ensures '&' !in r
    ensures r == [] <==> s == []
    ensures s != [] ==> r[0] == (if s[0] == '&' then 'A' else s[0])
    ensures s != [] ==> r[|r| - 1] == (if s[|s| - 1] == '&' then 'd' else s[|s| - 1])
  {
    if s == [] then []
    else (if s[0] == '&' then "And" else [s[0]]) + ReplaceAmpersand(s[1..])
  }

  lemma {:induction false} ReplaceAmpersandNone(s: string)
    requires '&' !in s
    ensures ReplaceAmpersand(s) == s
  {
    if s != [] {
      ReplaceAmpersandNone(s[1..]);
    }
  }

  /** The replacement works character by character: on a concatenation it
      is the concatenation of the replacements. */
  lemma {:induction false} ReplaceAmpersandConcat(a: string, b: string)
    ensures ReplaceAmpersand(a + b) == ReplaceAmpersand(a) + ReplaceAmpersand(b)
  {
    if a == [] {
      assert a + b == b;
    } else {
      var head := if a[0] == '&' then "And" else [a[0]];
      assert (a + b)[0] == a[0];
      assert (a + b)[1..] == a[1..] + b;
      ReplaceAmpersandConcat(a[1..], b);
      calc {
        ReplaceAmpersand(a + b);
        head + ReplaceAmpersand(a[1..] + b);
        head + (ReplaceAmpersand(a[1..]) + ReplaceAmpersand(b));
        (head + ReplaceAmpersand(a[1..])) + ReplaceAmpersand(b);
      }
    }
  }

  /** One character: `&` becomes "And", any other character stays. */
  lemma ReplaceAmpersandChar(c: char)
    ensures ReplaceAmpersand([c]) == if c == '&' then "And" else [c]
  {
    assert [c][1..] == [];
  }

  /** Replacing keeps the two ends free of whitespace. */
  lemma ReplaceAmpersandStripped(s: string)
    requires IsStripped(s)
    ensures IsStripped(ReplaceAmpersand(s))
  {
  }

  /** Strings equal up to letter case stay so after the replacement. */
  lemma {:induction false} ReplaceAmpersandLower(a: string, b: string)
    requires Lower(a) == Lower(b)
    ensures Lower(ReplaceAmpersand(a)) == Lower(ReplaceAmpersand(b))
  {
    if a != [] {
      assert |a| == |Lower(a)| == |b|;
      assert ToLower(a[0]) == Lower(a)[0] == ToLower(b[0]);
      assert a[0] == '&' <==> b[0] == '&';
      assert Lower(a[1..]) == Lower(a)[1..] == Lower(b)[1..] == Lower(b[1..]);
      ReplaceAmpersandLower(a[1..], b[1..]);
      var head := if a[0] == '&' then "And" else [a[0]];
      var head' := if b[0] == '&' then "And" else [b[0]];
      LowerConcat(head, ReplaceAmpersand(a[1..]));
      LowerConcat(head', ReplaceAmpersand(b[1..]));
    }
  }

  lemma LowerConcat(a: string, b: string)
    ensures Lower(a + b) == Lower(a) + Lower(b)
  {
  }

  // ---------------------------------------------------------------------------
  // title()
  // ---------------------------------------------------------------------------

  /** The case `title()` gives the letter `c`: lower case after a letter,
      upper case otherwise; a non-letter is left alone. */
  function TitleCase(c: char, afterLetter: bool): char {
    if !IsLetter(c) then c
    else if afterLetter then ToLower(c)
    else ToUpper(c)
  }

  /** The character Python's `title()` puts at `i`: a letter becomes upper case
      when it opens the string or follows a non-letter, lower case otherwise. */
  function TitleChar(s: string, i: nat): char
    requires i < |s|
  {
    TitleCase(s[i], i > 0 && IsLetter(s[i - 1]))
  }

  /** `title()` of `s` when the character before `s` was a letter
      (`afterLetter`) or not. */
  function TitleFrom(s: string, afterLetter: bool): (r: string)
    ensures |r| == |s|
    ensures |s| > 0 ==> r[0] == TitleCase(s[0], afterLetter)
    ensures forall i :: 0 < i < |s| ==> r[i] == TitleChar(s, i)
  {
    if s == [] then []
    else
      var rest := TitleFrom(s[1..], IsLetter(s[0]));
      assert forall i :: 1 < i < |s| ==> TitleChar(s[1..], i - 1) == TitleChar(s, i);
      [TitleCase(s[0], afterLetter)] + rest
  }

  /** Python's `str.title()`. */
  function Title(s: string): (r: string)
    ensures |r| == |s|
    ensures forall i :: 0 <= i < |s| ==> r[i] == TitleChar(s, i)
  {
    TitleFrom(s, false)
  }

  /** `title()` changes case only: it keeps every non-letter where it was and
      every letter a letter. */
  lemma TitleShape(s: string)
    ensures forall i :: 0 <= i < |s| ==> IsLetter(Title(s)[i]) == IsLetter(s[i])
    ensures forall i :: 0 <= i < |s| ==> !IsLetter(s[i]) ==> Title(s)[i] == s[i]
    ensures Lower(Title(s)) == Lower(s)
  {
    var t := Title(s);
    forall i | 0 <= i < |s|
      ensures IsLetter(t[i]) == IsLetter(s[i])
      ensures !IsLetter(s[i]) ==> t[i] == s[i]
      ensures Lower(t)[i] == Lower(s)[i]
    {
      TitleCaseShape(s[i], i > 0 && IsLetter(s[i - 1]));
    }
  }

  lemma TitleCaseShape(c: char, afterLetter: bool)
    ensures IsLetter(TitleCase(c, afterLetter)) == IsLetter(c)
    ensures !IsLetter(c) ==> TitleCase(c, afterLetter) == c
    ensures ToLower(TitleCase(c, afterLetter)) == ToLower(c)
  {
  }

  /** `title()` looks only at letters up to case, so strings equal up to case
      title-case to the same string. */
  lemma TitleIgnoresCase(a: string, b: string)
    requires Lower(a) == Lower(b)
    ensures Title(a) == Title(b)
  {
    assert |a| == |Lower(a)| == |b|;
    forall i | 0 <= i < |a|
      ensures Title(a)[i] == Title(b)[i]
    {
      assert ToLower(a[i]) == Lower(a)[i] == ToLower(b[i]);
      if i > 0 {
        assert ToLower(a[i - 1]) == Lower(a)[i - 1] == ToLower(b[i - 1]);
      }
    }
  }

  lemma TitleIdempotent(s: string)
    ensures Title(Title(s)) == Title(s)
  {
    TitleShape(s);
    TitleIgnoresCase(Title(s), s);
  }

  lemma TitleStripped(s: string)
    requires IsStripped(s)
    ensures IsStripped(Title(s))
  {
  }

  /** `title()` neither adds nor removes an ampersand. */
  lemma TitleAmpersand(s: string)
    ensures '&' in Title(s) <==> '&' in s
  {
    TitleShape(s);
    if '&' in s {
      var i :| 0 <= i < |s| && s[i] == '&';
      assert Title(s)[i] == '&';
    }
    if '&' in Title(s) {
      var i :| 0 <= i < |s| && Title(s)[i] == '&';
      assert s[i] == '&';
    }
  }

  // ---------------------------------------------------------------------------
  // Ordering
  // ---------------------------------------------------------------------------

  /** Python's `<` on strings: lexicographic by code point, a proper prefix
      first. */
  predicate StrLess(a: string, b: string) {
    if a == [] then b != []
    else if b == [] then false
    else if a[0] != b[0] then a[0] < b[0]
    else StrLess(a[1..], b[1..])
  }

  lemma {:induction false} StrLessIrreflexive(a: string)
    ensures !StrLess(a, a)
  {
    if a != [] {
      StrLessIrreflexive(a[1..]);
    }
  }

  lemma {:induction false} StrLessTransitive(a: string, b: string, c: string)
    requires StrLess(a, b) && StrLess(b, c)
    ensures StrLess(a, c)
  {
    if a != [] && b != [] && c != [] && a[0] == b[0] == c[0] {
      StrLessTransitive(a[1..], b[1..], c[1..]);
    }
  }

  lemma {:induction false} StrLessTotal(a: string, b: string)
    requires a != b
    ensures StrLess(a, b) || StrLess(b, a)
  {
    if a != [] && b != [] && a[0] == b[0] {
      assert a == [a[0]] + a[1..] && b == [b[0]] + b[1..];
      StrLessTotal(a[1..], b[1..]);
    }
  }
}
