/**
 * The Python `str` methods the account code relies on (`upper`, `lower`, `title`,
 * `split` with no separator), restricted to ASCII: characters outside ASCII are left
 * as they are, where Python would map them by the Unicode tables.
 */
module PyStr {

  /** `str.isspace()` on ASCII: tab, line feed, vertical tab, form feed, carriage return,
      the four separators 0x1C-0x1F and the space. */
  predicate IsSpace(c: char) {
    9 <= c as int <= 13 || 28 <= c as int <= 32
  }

  predicate IsUpper(c: char) { 'A' <= c <= 'Z' }

  predicate IsLower(c: char) { 'a' <= c <= 'z' }

  /** A cased character: the only kind `title()` treats as part of a word. */
  predicate IsCased(c: char) { IsUpper(c) || IsLower(c) }

  function UpperChar(c: char): (d: char)
    ensures !IsLower(d) && IsCased(d) == IsCased(c) && IsSpace(d) == IsSpace(c)
  {
    if IsLower(c) then (c as int - 32) as char else c
  }

  function LowerChar(c: char): (d: char)
    ensures !IsUpper(d) && IsCased(d) == IsCased(c) && IsSpace(d) == IsSpace(c)
  {
    if IsUpper(c) then (c as int + 32) as char else c
  }

  /** `s.upper()`. */
  function Upper(s: string): (r: string)
    ensures |r| == |s| && forall i :: 0 <= i < |s| ==> r[i] == UpperChar(s[i])
  {
    seq(|s|, i requires 0 <= i < |s| => UpperChar(s[i]))
  }

  /** `s.lower()`. */
  function Lower(s: string): (r: string)
    ensures |r| == |s| && forall i :: 0 <= i < |s| ==> r[i] == LowerChar(s[i])
  {
    seq(|s|, i requires 0 <= i < |s| => LowerChar(s[i]))
  }

  /** Upper-casing twice is upper-casing once. */
  lemma UpperIdempotent(s: string)
    ensures Upper(Upper(s)) == Upper(s)
  {
    assert forall i :: 0 <= i < |s| ==> Upper(Upper(s))[i] == Upper(s)[i];
  }

  /** Lower-casing twice is lower-casing once. */
  lemma LowerIdempotent(s: string)
    ensures Lower(Lower(s)) == Lower(s)
  {
    assert forall i :: 0 <= i < |s| ==> Lower(Lower(s))[i] == Lower(s)[i];
  }

  /** Two strings have the same upper case exactly when they agree letter by letter up to case. */
  lemma {:induction false} UpperEqualIff(s: string, t: string)
    ensures Upper(s) == Upper(t) <==> |s| == |t| && forall i :: 0 <= i < |s| ==> UpperChar(s[i]) == UpperChar(t[i])
  {
    if |s| == |t| && forall i :: 0 <= i < |s| ==> UpperChar(s[i]) == UpperChar(t[i]) {
      assert forall i :: 0 <= i < |s| ==> Upper(s)[i] == Upper(t)[i];
    }
  }

  /** Title-casing a character: upper case when it starts a word, lower case inside one. */
  function TitleChar(c: char, inWord: bool): char {
    if inWord then LowerChar(c) else UpperChar(c)
  }

  /** `title()` from a position whose previous character was cased (`inWord`) or not:
      character `k` is upper-cased when it opens a word and lower-cased otherwise. */
  function TitleFrom(s: string, inWord: bool): (r: string)
    ensures |r| == |s|
    ensures forall k :: 0 <= k < |s| ==> r[k] == TitleChar(s[k], if k == 0 then inWord else IsCased(s[k - 1]))
  {
    if s == [] then [] else [TitleChar(s[0], inWord)] + TitleFrom(s[1..], IsCased(s[0]))
  }

  /** `s.title()`: every maximal run of cased characters starts upper-case and continues
      lower-case; a word opens at the start or after a character that is not cased. */
  function Title(s: string): (r: string)
    ensures |r| == |s|
    ensures forall k :: 0 <= k < |s| ==> r[k] == TitleChar(s[k], k > 0 && IsCased(s[k - 1]))
  {
    TitleFrom(s, false)
  }

  /** Title-casing does not depend on the case of its input: `title()` after `lower()` or `upper()` is `title()`. */
  lemma {:induction false} TitleFromIgnoresCase(s: string, t: string, inWord: bool)
    requires |s| == |t| && forall i :: 0 <= i < |s| ==> LowerChar(s[i]) == LowerChar(t[i])
    ensures TitleFrom(s, inWord) == TitleFrom(t, inWord)
  {
    if s != [] {
      assert IsCased(s[0]) == IsCased(t[0]) by {
        assert IsCased(LowerChar(s[0])) == IsCased(LowerChar(t[0]));
      }
      assert TitleChar(s[0], inWord) == TitleChar(t[0], inWord) by {
        assert UpperChar(LowerChar(s[0])) == UpperChar(s[0]);
        assert UpperChar(LowerChar(t[0])) == UpperChar(t[0]);
      }
      TitleFromIgnoresCase(s[1..], t[1..], IsCased(s[0]));
    }
  }

  /** Title-casing keeps whitespace where it was and only changes letters' case, so it has the same upper case. */
  lemma TitleKeepsShape(s: string)
    ensures |Title(s)| == |s|
    ensures forall k :: 0 <= k < |s| ==> IsSpace(Title(s)[k]) == IsSpace(s[k])
    ensures Upper(Title(s)) == Upper(s)
  {
    forall k | 0 <= k < |s|
      ensures IsSpace(Title(s)[k]) == IsSpace(s[k]) && Upper(Title(s))[k] == Upper(s)[k]
    {
      assert Title(s)[k] == TitleChar(s[k], k > 0 && IsCased(s[k - 1]));
    }
  }

  /** A word of `s` preceded by whitespace (or at the start) is title-cased inside `title(s)`
      exactly as it is on its own. */
  lemma TitleOfWord(s: string, i: nat, j: nat)
    requires i <= j <= |s|
    requires i == 0 || !IsCased(s[i - 1])
    ensures Title(s)[i..j] == Title(s[i..j])
  {
    forall k | 0 <= k < j - i
      ensures Title(s)[i..j][k] == Title(s[i..j])[k]
    {
      assert Title(s)[i + k] == TitleChar(s[i + k], i + k > 0 && IsCased(s[i + k - 1]));
      assert Title(s[i..j])[k] == TitleChar(s[i + k], k > 0 && IsCased(s[i + k - 1]));
    }
  }

  lemma TitleOfLower(s: string)
    ensures Title(Lower(s)) == Title(s)
  {
    TitleFromIgnoresCase(Lower(s), s, false);
  }

  /** `s.lstrip()`: `s` without its leading whitespace, a suffix of `s`. */
  function StripLeading(s: string): (r: string)
    ensures |r| <= |s| && r == s[|s| - |r|..]
    ensures forall i :: 0 <= i < |s| - |r| ==> IsSpace(s[i])
    ensures r == [] || !IsSpace(r[0])
  {
    if s != [] && IsSpace(s[0]) then StripLeading(s[1..]) else s
  }

  /** `s.rstrip()`: `s` without its trailing whitespace, a prefix of `s`. */
  function StripTrailing(s: string): (r: string)
    ensures |r| <= |s| && r == s[..|r|]
    ensures forall i :: |r| <= i < |s| ==> IsSpace(s[i])
    ensures r == [] || !IsSpace(r[|r| - 1])
  {
    if s != [] && IsSpace(s[|s| - 1]) then StripTrailing(s[..|s| - 1]) else s
  }

  /** `s.strip()`: `s` without surrounding whitespace. The result is the slice of `s` that
      starts at its first non-whitespace character; everything cut off on either side is
      whitespace. */
  function Strip(s: string): (r: string)
    ensures LeadingSpace(s) + |r| <= |s| && r == s[LeadingSpace(s)..LeadingSpace(s) + |r|]
    ensures forall i :: LeadingSpace(s) + |r| <= i < |s| ==> IsSpace(s[i])
    ensures r == [] || (!IsSpace(r[0]) && !IsSpace(r[|r| - 1]))
  {
    StripTrailing(StripLeading(s))
  }

  /** Lower-casing keeps whitespace where it is, so it commutes with cutting off leading whitespace. */
  lemma {:induction false} StripLeadingLower(s: string)
    ensures StripLeading(Lower(s)) == Lower(StripLeading(s))
  {
    if s != [] && IsSpace(s[0]) {
      assert Lower(s)[1..] == Lower(s[1..]);
      StripLeadingLower(s[1..]);
    }
  }

  /** Lower-casing commutes with cutting off trailing whitespace. */
  lemma {:induction false} StripTrailingLower(s: string)
    ensures StripTrailing(Lower(s)) == Lower(StripTrailing(s))
  {
    if s != [] && IsSpace(s[|s| - 1]) {
      assert Lower(s)[..|s| - 1] == Lower(s[..|s| - 1]);
      StripTrailingLower(s[..|s| - 1]);
    }
  }

  /** Trimming then lower-casing is lower-casing then trimming. */
  lemma StripLower(s: string)
    ensures Strip(Lower(s)) == Lower(Strip(s))
  {
    StripLeadingLower(s);
    StripTrailingLower(StripLeading(s));
  }

  /** A slice of a string that upper- or lower-casing leaves alone is left alone too. */
  lemma SliceKeepsCase(s: string, i: nat, j: nat)
    requires i <= j <= |s|
    ensures Upper(s) == s ==> Upper(s[i..j]) == s[i..j]
    ensures Lower(s) == s ==> Lower(s[i..j]) == s[i..j]
  {
    assert forall k :: 0 <= k < j - i ==> s[i..j][k] == s[i + k];
  }

  /** Stripping whitespace keeps a string that is already upper (or lower) case so. */
  lemma StripKeepsCase(s: string)
    ensures Upper(s) == s ==> Upper(Strip(s)) == Strip(s)
    ensures Lower(s) == s ==> Lower(Strip(s)) == Strip(s)
  {
    var a := StripLeading(s);
    SliceKeepsCase(s, |s| - |a|, |s|);
    SliceKeepsCase(a, 0, |StripTrailing(a)|);
  }

  /** The number of whitespace characters at the start of `s`. */
  function LeadingSpace(s: string): (n: nat)
    ensures n <= |s|
    ensures forall i :: 0 <= i < n ==> IsSpace(s[i])
    ensures n == |s| || !IsSpace(s[n])
  {
    if s == [] || !IsSpace(s[0]) then 0 else 1 + LeadingSpace(s[1..])
  }

  /** The number of non-whitespace characters at the start of `s`. */
  function WordLength(s: string): (n: nat)
    ensures n <= |s|
    ensures forall i :: 0 <= i < n ==> !IsSpace(s[i])
    ensures n == |s| || IsSpace(s[n])
  {
    if s == [] || IsSpace(s[0]) then 0 else 1 + WordLength(s[1..])
  }

  /** A token of `split()`: non-empty and free of whitespace. */
  predicate IsWord(w: string) {
    |w| > 0 && forall i :: 0 <= i < |w| ==> !IsSpace(w[i])
  }

  /** `s.split()`: the maximal runs of non-whitespace characters, in order. */
  function Split(s: string): (words: seq<string>)
    ensures forall k :: 0 <= k < |words| ==> IsWord(words[k])
    decreases |s|
  {
    var t := s[LeadingSpace(s)..];
    if t == [] then [] else
      var n := WordLength(t);
      [t[..n]] + Split(t[n..])
  }

  /** `split()` yields no token exactly when the string is all whitespace (so `split()[0]` raises). */
  lemma SplitEmptyIff(s: string)
    ensures Split(s) == [] <==> forall i :: 0 <= i < |s| ==> IsSpace(s[i])
  {
    var n := LeadingSpace(s);
    if n < |s| {
      assert !IsSpace(s[n]);
      assert s[n..] != [];
    }
  }

  /** The first token of `split()` is the run of non-whitespace that starts at the first
      non-whitespace character `s[i]` and ends before the next whitespace `s[j]` (or the end). */
  lemma SplitFirstWord(s: string, i: nat, j: nat)
    requires i < j <= |s|
    requires forall k :: 0 <= k < i ==> IsSpace(s[k])
    requires forall k :: i <= k < j ==> !IsSpace(s[k])
    requires j == |s| || IsSpace(s[j])
    ensures |Split(s)| > 0 && Split(s)[0] == s[i..j]
  {
    var n := LeadingSpace(s);
    assert !IsSpace(s[i]);
    assert n < |s| ==> !IsSpace(s[n]);
    assert n == i;
    var t := s[i..];
    var m := WordLength(t);
    assert !IsSpace(t[0]) && (j < |s| ==> IsSpace(s[j]));
    assert m < |t| ==> IsSpace(t[m]) && s[i + m] == t[m];
    assert m == j - i;
    assert t[..m] == s[i..j];
  }

  /** The first token of `title(s).split()` is the title case of the first token of `s.split()`. */
  lemma TitleFirstWord(s: string, i: nat, j: nat)
    requires i < j <= |s|
    requires forall k :: 0 <= k < i ==> IsSpace(s[k])
    requires forall k :: i <= k < j ==> !IsSpace(s[k])
    requires j == |s| || IsSpace(s[j])
    ensures |Split(Title(s))| > 0 && Split(Title(s))[0] == Title(s[i..j])
  {
    TitleKeepsShape(s);
    SplitFirstWord(Title(s), i, j);
    assert i == 0 || IsSpace(s[i - 1]);
    TitleOfWord(s, i, j);
  }
}
