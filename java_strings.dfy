/**
 * Models of the few java.lang.String operations the core relies on:
 * contains, startsWith, trim, split on a one-character separator, the three
 * replaceAll patterns the wordlist parser applies, and String.valueOf(int).
 * Each is stated over `string`, a sequence of characters (Unicode scalar
 * values here, where Java has UTF-16 code units; the operations modelled only
 * look at ASCII characters, so the difference does not show), with the Java
 * semantics written out, not left to Dafny's own sequence operations.
 */
module JavaStrings {

  datatype Option<+T> = None | Some(value: T)

  /** s.startsWith(p) */
  predicate StartsWith(s: string, p: string) {
    p <= s
  }

  /** s.contains(sub): some suffix of s starts with sub. */
  predicate Contains(s: string, sub: string) {
    exists i :: 0 <= i <= |s| && sub <= s[i..]
  }

  // ---------------------------------------------------------------------------
  // String.trim()
  // ---------------------------------------------------------------------------

  /** The characters String.trim() strips: every code unit up to U+0020. */
  predicate IsBlank(c: char) {
    c <= ' '
  }

  /** Number of leading characters trim() strips. */
  function LeadingBlanks(s: string): (k: nat)
    ensures k <= |s|
    ensures forall i :: 0 <= i < k ==> IsBlank(s[i])
    ensures k == |s| || !IsBlank(s[k])
  {
    if s == [] || !IsBlank(s[0]) then 0 else 1 + LeadingBlanks(s[1..])
  }

  /** Number of trailing characters trim() strips. */
  function TrailingBlanks(s: string): (k: nat)
    ensures k <= |s|
    ensures forall i :: |s| - k <= i < |s| ==> IsBlank(s[i])
    ensures k == |s| || !IsBlank(s[|s| - 1 - k])
  {
    if s == [] || !IsBlank(s[|s| - 1]) then 0 else 1 + TrailingBlanks(s[..|s| - 1])
  }

  /** s.trim(): the slice of s left after removing blank characters at both ends. */
  function Trim(s: string): (r: string)
    ensures r == [] || (!IsBlank(r[0]) && !IsBlank(r[|r| - 1]))
    ensures r == [] <==> forall i :: 0 <= i < |s| ==> IsBlank(s[i])
    ensures exists a, b :: 0 <= a <= b <= |s| && r == s[a..b]
              && (forall i :: 0 <= i < a ==> IsBlank(s[i]))
              && (forall i :: b <= i < |s| ==> IsBlank(s[i]))
  {
    var a := LeadingBlanks(s);
    var b := if a == |s| then a else |s| - TrailingBlanks(s);
    assert a < |s| ==> a < b by {
      if a < |s| {
        assert !IsBlank(s[a]);
      }
    }
    s[a..b]
  }

  // ---------------------------------------------------------------------------
  // String.split(String.valueOf(sep)) for a separator that is one plain character
  // ---------------------------------------------------------------------------

  /** Index of the first occurrence of c in s. */
  function IndexOf(s: string, c: char): (k: nat)
    requires c in s
    ensures k < |s| && s[k] == c && c !in s[..k]
  {
    if s[0] == c then 0 else 1 + IndexOf(s[1..], c)
  }

  /** Concatenation of the fields with sep between neighbours. */
  function Join(fields: seq<string>, sep: char): string {
    if |fields| == 0 then ""
    else if |fields| == 1 then fields[0]
    else fields[0] + [sep] + Join(fields[1..], sep)
  }

  /** Every field of s between occurrences of sep, trailing empty fields included. */
  function Fields(s: string, sep: char): (r: seq<string>)
    ensures |r| >= 1
    ensures forall i :: 0 <= i < |r| ==> sep !in r[i]
    ensures Join(r, sep) == s
    decreases |s|
  {
    if sep !in s then [s]
    else
      var k := IndexOf(s, sep);
      assert s == s[..k] + [sep] + s[k + 1..];
      [s[..k]] + Fields(s[k + 1..], sep)
  }

  /** The list without its trailing empty strings. */
  function DropTrailingEmpty(fields: seq<string>): (r: seq<string>)
    ensures r <= fields
    ensures forall i :: |r| <= i < |fields| ==> fields[i] == ""
    ensures r == [] || r[|r| - 1] != ""
  {
    if fields != [] && fields[|fields| - 1] == "" then DropTrailingEmpty(fields[..|fields| - 1])
    else fields
  }

  /**
   * s.split(sep) with Java's limit-0 semantics: when sep does not occur the
   * result is [s] (even for the empty string); otherwise it is every field with
   * the trailing empty ones removed, so ";;;" splits into no fields at all.
   */
  function Split(s: string, sep: char): (r: seq<string>)
    ensures sep !in s ==> r == [s]
    ensures sep in s ==> r <= Fields(s, sep) && (r == [] || r[|r| - 1] != "")
    ensures sep in s ==> forall i :: |r| <= i < |Fields(s, sep)| ==> Fields(s, sep)[i] == ""
    ensures forall i :: 0 <= i < |r| ==> sep !in r[i]
  {
    if sep !in s then [s]
    else
      var fields := Fields(s, sep);
      var r := DropTrailingEmpty(fields);
      assert forall i :: 0 <= i < |r| ==> r[i] == fields[i];
      assert r == [] || r[|r| - 1] != "";
      r
  }

  lemma IndexOfAfterField(a: string, sep: char, b: string)
    requires sep !in a
    ensures sep in a + [sep] + b && IndexOf(a + [sep] + b, sep) == |a|
  {
    var s := a + [sep] + b;
    assert s[|a|] == sep;
    assert s[..|a|] == a;
  }

  /** Splitting the fields back out of their join gives the same fields. */
  lemma {:induction false} FieldsJoin(fields: seq<string>, sep: char)
    requires |fields| >= 1
    requires forall i :: 0 <= i < |fields| ==> sep !in fields[i]
    ensures Fields(Join(fields, sep), sep) == fields
  {
    if |fields| > 1 {
      var rest := Join(fields[1..], sep);
      var s := Join(fields, sep);
      assert s == fields[0] + [sep] + rest;
      IndexOfAfterField(fields[0], sep, rest);
      assert s[..|fields[0]|] == fields[0];
      assert s[|fields[0]| + 1..] == rest;
      FieldsJoin(fields[1..], sep);
    }
  }

  /**
   * split inverts a join whose fields hold no separator, provided the last
   * field is not empty (Java drops trailing empty fields) or there is only one.
   */
  lemma SplitJoin(fields: seq<string>, sep: char)
    requires |fields| >= 1
    requires forall i :: 0 <= i < |fields| ==> sep !in fields[i]
    requires |fields| == 1 || fields[|fields| - 1] != ""
    ensures Split(Join(fields, sep), sep) == fields
  {
    var s := Join(fields, sep);
    if |fields| > 1 {
      assert s == fields[0] + [sep] + Join(fields[1..], sep);
      assert s[|fields[0]|] == sep;
      FieldsJoin(fields, sep);
    }
  }

  /**
   * With two or more fields the separator occurs, so split returns the fields
   * with the trailing empty ones dropped; ";;" splits into no field at all.
   */
  lemma SplitJoinDropped(fields: seq<string>, sep: char)
    requires |fields| >= 2
    requires forall i :: 0 <= i < |fields| ==> sep !in fields[i]
    ensures Split(Join(fields, sep), sep) == DropTrailingEmpty(fields)
  {
    var s := Join(fields, sep);
    assert s == fields[0] + [sep] + Join(fields[1..], sep);
    assert s[|fields[0]|] == sep;
    FieldsJoin(fields, sep);
  }

  // ---------------------------------------------------------------------------
  // The three replaceAll patterns of the wordlist parser
  // ---------------------------------------------------------------------------

  /** Number of leading ' ' characters. */
  function SpaceRun(s: string): (k: nat)
    ensures k <= |s|
    ensures forall i :: 0 <= i < k ==> s[i] == ' '
    ensures k == |s| || s[k] != ' '
  {
    if s == [] || s[0] != ' ' then 0 else 1 + SpaceRun(s[1..])
  }

  /** s without any ' ': what the replaceAll patterns below leave unchanged. */
  function RemoveSpaces(s: string): string {
    if s == [] then [] else (if s[0] == ' ' then [] else [s[0]]) + RemoveSpaces(s[1..])
  }

  lemma {:induction false} RemoveSpacesAfterRun(s: string, k: nat)
    requires k <= |s|
    requires forall i :: 0 <= i < k ==> s[i] == ' '
    ensures RemoveSpaces(s) == RemoveSpaces(s[k..])
  {
    if k > 0 {
      assert s[1..][k - 1..] == s[k..];
      RemoveSpacesAfterRun(s[1..], k - 1);
    }
  }

  predicate NoDoubleSpace(s: string) {
    forall i :: 0 <= i < |s| - 1 ==> !(s[i] == ' ' && s[i + 1] == ' ')
  }

  /** s.replaceAll(" +", " "): every run of spaces becomes one space. */
  function CollapseSpaces(s: string): (r: string)
    ensures NoDoubleSpace(r)
    ensures RemoveSpaces(r) == RemoveSpaces(s)
    ensures |r| == 0 <==> |s| == 0
    ensures |s| > 0 ==> (r[0] == ' ' <==> s[0] == ' ')
    decreases |s|
  {
    if s == [] then []
    else if s[0] == ' ' then
      var k := SpaceRun(s);
      RemoveSpacesAfterRun(s, k);
      [' '] + CollapseSpaces(s[k..])
    else
      [s[0]] + CollapseSpaces(s[1..])
  }

  /** Every comma is followed by exactly one space. */
  predicate CommasSpaced(s: string) {
    forall i :: 0 <= i < |s| && s[i] == ',' ==>
      i + 1 < |s| && s[i + 1] == ' ' && (i + 2 == |s| || s[i + 2] != ' ')
  }

  lemma CommasSpacedCons(c: char, t: string)
    requires c != ',' && CommasSpaced(t)
    ensures CommasSpaced([c] + t)
  {
    var s := [c] + t;
    forall i | 0 <= i < |s| && s[i] == ','
      ensures i + 1 < |s| && s[i + 1] == ' ' && (i + 2 == |s| || s[i + 2] != ' ')
    {
      assert s[i] == t[i - 1];
    }
  }

  lemma CommasSpacedComma(t: string)
    requires CommasSpaced(t) && (t == [] || t[0] != ' ')
    ensures CommasSpaced(", " + t)
  {
    var s := ", " + t;
    forall i | 0 <= i < |s| && s[i] == ','
      ensures i + 1 < |s| && s[i + 1] == ' ' && (i + 2 == |s| || s[i + 2] != ' ')
    {
      if i >= 2 {
        assert s[i] == t[i - 2];
      }
    }
  }

  /**
   * s.replaceAll(" *, *", ", "): a comma with the spaces on both sides of it
   * becomes ", ". A run of spaces not followed by a comma is kept.
   */
  function NormaliseCommas(s: string): (r: string)
    ensures RemoveSpaces(r) == RemoveSpaces(s)
    ensures CommasSpaced(r)
    ensures |s| > 0 && s[0] != ' ' ==> |r| > 0 && r[0] != ' '
    decreases |s|
  {
    if s == [] then []
    else
      var k := SpaceRun(s);
      if k < |s| && s[k] == ',' then
        var rest := s[k + 1..];
        var m := SpaceRun(rest);
        var tail := NormaliseCommas(rest[m..]);
        RemoveSpacesAroundComma(s, k, rest, m, tail);
        CommasSpacedComma(tail);
        ", " + tail
      else
        var tail := NormaliseCommas(s[1..]);
        RemoveSpacesCons(s[0], tail);
        RemoveSpacesCons(s[0], s[1..]);
        CommasSpacedCons(s[0], tail);
        [s[0]] + tail
  }

  lemma RemoveSpacesCons(c: char, t: string)
    ensures RemoveSpaces([c] + t) == (if c == ' ' then [] else [c]) + RemoveSpaces(t)
  {
    assert ([c] + t)[1..] == t;
  }

  /** Replacing a comma and the spaces around it by ", " keeps everything but spaces. */
  lemma RemoveSpacesAroundComma(s: string, k: nat, rest: string, m: nat, t: string)
    requires k < |s| && s[k] == ',' && forall i :: 0 <= i < k ==> s[i] == ' '
    requires rest == s[k + 1..]
    requires m <= |rest| && forall i :: 0 <= i < m ==> rest[i] == ' '
    requires RemoveSpaces(t) == RemoveSpaces(rest[m..])
    ensures RemoveSpaces(", " + t) == RemoveSpaces(s)
  {
    calc {
      RemoveSpaces(s);
      { RemoveSpacesAfterRun(s, k); }
      RemoveSpaces(s[k..]);
      { assert s[k..] == [','] + rest; RemoveSpacesCons(',', rest); }
      [','] + RemoveSpaces(rest);
      { RemoveSpacesAfterRun(rest, m); }
      [','] + RemoveSpaces(t);
      { RemoveSpacesCons(' ', t); }
      [','] + RemoveSpaces([' '] + t);
      { RemoveSpacesCons(',', [' '] + t); assert ", " + t == [','] + ([' '] + t); }
      RemoveSpaces(", " + t);
    }
  }

  /**
   * s.replaceAll("\\<[^>]+\\>", ""): scanning left to right, a '<' followed by
   * one or more characters other than '>' and then a '>' is deleted. Nested
   * brackets are not balanced: the first '>' closes the match.
   */
  function StripGenerics(s: string): (r: string)
    ensures forall c :: c in r ==> c in s
    ensures '<' !in s ==> r == s
    ensures |s| > 0 && s[0] != '<' ==> |r| > 0 && r[0] == s[0]
    ensures NoOpenBracket(r)
    decreases |s|
  {
    if s == [] then []
    else if s[0] == '<' && '>' in s && IndexOf(s, '>') >= 2 then
      StripGenerics(s[IndexOf(s, '>') + 1..])
    else
      var t := StripGenerics(s[1..]);
      KeepBeforeStripped(s, t);
      [s[0]] + t
  }

  /** r is s with some characters deleted: its characters occur in s in the same order. */
  predicate Subsequence(r: string, s: string)
    decreases |s|
  {
    r == [] || (s != [] && ((r[0] == s[0] && Subsequence(r[1..], s[1..])) || Subsequence(r, s[1..])))
  }

  /** Stripping only deletes characters: the rest keep their order. */
  lemma {:induction false} StripGenericsDeletes(s: string)
    ensures Subsequence(StripGenerics(s), s)
    decreases |s|
  {
    if s == [] {
    } else if s[0] == '<' && '>' in s && IndexOf(s, '>') >= 2 {
      var k := IndexOf(s, '>') + 1;
      StripGenericsSkips(s);
      StripGenericsDeletes(s[k..]);
      SubsequenceOfSuffix(StripGenerics(s[k..]), s, k);
    } else {
      StripGenericsDeletes(s[1..]);
      SubsequenceCons(StripGenerics(s[1..]), s);
    }
  }

  /** A leading '<'…'>' group is deleted as a whole. */
  lemma StripGenericsSkips(s: string)
    requires s != [] && s[0] == '<' && '>' in s && IndexOf(s, '>') >= 2
    ensures StripGenerics(s) == StripGenerics(s[IndexOf(s, '>') + 1..])
  {
  }

  /** Keeping the first character of s in front of a subsequence of the rest. */
  lemma SubsequenceCons(t: string, s: string)
    requires s != [] && Subsequence(t, s[1..])
    ensures Subsequence([s[0]] + t, s)
  {
    assert ([s[0]] + t)[1..] == t;
  }

  /** A subsequence of a suffix of s is a subsequence of s. */
  lemma {:induction false} SubsequenceOfSuffix(r: string, s: string, k: nat)
    requires k <= |s| && Subsequence(r, s[k..])
    ensures Subsequence(r, s)
  {
    if k > 0 {
      assert s[k - 1..][1..] == s[k..];
      assert Subsequence(r, s[k - 1..]);
      SubsequenceOfSuffix(r, s, k - 1);
    }
  }

  /** No '<' with a later '>' remains: either it closes at once or no '>' follows it. */
  predicate NoOpenBracket(r: string) {
    forall i :: 0 <= i < |r| && r[i] == '<' ==> (i + 1 < |r| && r[i + 1] == '>') || '>' !in r[i + 1..]
  }

  /** Keeping the first character of s in front of the stripped rest leaves no bracket open. */
  lemma KeepBeforeStripped(s: string, t: string)
    requires |s| > 0 && !(s[0] == '<' && '>' in s && IndexOf(s, '>') >= 2)
    requires forall c :: c in t ==> c in s[1..]
    requires |s| > 1 && s[1] != '<' ==> |t| > 0 && t[0] == s[1]
    requires NoOpenBracket(t)
    ensures NoOpenBracket([s[0]] + t)
  {
    var r := [s[0]] + t;
    forall i | 0 <= i < |r| && r[i] == '<'
      ensures (i + 1 < |r| && r[i + 1] == '>') || '>' !in r[i + 1..]
    {
      if i > 0 {
        assert r[i] == t[i - 1];
        assert r[i + 1..] == t[i..];
      } else if '>' in s {
        assert s[IndexOf(s, '>')] == '>';
      } else {
        assert r[1..] == t;
      }
    }
  }

  // ---------------------------------------------------------------------------
  // String.valueOf(int) and its inverse
  // ---------------------------------------------------------------------------

  predicate IsDigit(c: char) {
    '0' <= c <= '9'
  }

  function DigitChar(d: nat): (c: char)
    requires d < 10
    ensures IsDigit(c)
  {
    (48 + d) as char
  }

  function DigitValue(c: char): nat
    requires IsDigit(c)
  {
    c as int - 48
  }

  predicate AllDigits(s: string) {
    forall i :: 0 <= i < |s| ==> IsDigit(s[i])
  }

  /** Decimal digits of n, most significant first, without leading zeros. */
  function NatToString(n: nat): (s: string)
    ensures |s| > 0 && AllDigits(s)
    ensures s[0] == '0' ==> n == 0 && |s| == 1
  {
    if n < 10 then [DigitChar(n)] else NatToString(n / 10) + [DigitChar(n % 10)]
  }

  function ParseNat(s: string): nat
    requires AllDigits(s)
  {
    if s == [] then 0 else 10 * ParseNat(s[..|s| - 1]) + DigitValue(s[|s| - 1])
  }

  lemma {:induction false} ParseNatToString(n: nat)
    ensures ParseNat(NatToString(n)) == n
  {
    var s := NatToString(n);
    if n >= 10 {
      ParseNatToString(n / 10);
      assert s[..|s| - 1] == NatToString(n / 10);
    }
  }

  /** String.valueOf(n): an optional '-' and the decimal digits of |n|. */
  function IntToString(n: int): (s: string)
    ensures |s| > 0
    ensures forall i :: 0 <= i < |s| ==> IsDigit(s[i]) || (i == 0 && s[i] == '-')
  {
    if n < 0 then "-" + NatToString(-n) else NatToString(n)
  }

  /** Decimal digits without a leading zero, or the single digit "0". */
  predicate Canonical(d: string) {
    |d| > 0 && AllDigits(d) && (d[0] == '0' ==> |d| == 1)
  }

  /**
   * Integer.parseInt restricted to what String.valueOf(int) produces: no
   * leading zeros, no "+" sign and no "-0".
   */
  function ParseInt(s: string): (r: Option<int>)
    ensures r.Some? ==> IntToString(r.value) == s
  {
    if |s| > 1 && s[0] == '-' && Canonical(s[1..]) && s[1] != '0' then
      ParseStringToNat(s[1..]);
      Some(0 - ParseNat(s[1..]))
    else if Canonical(s) then
      ParseStringToNat(s);
      Some(ParseNat(s))
    else None
  }

  /** A canonical numeral is the rendering of its value. */
  lemma {:induction false} ParseStringToNat(d: string)
    requires Canonical(d)
    ensures NatToString(ParseNat(d)) == d
  {
    if |d| > 1 {
      var init := d[..|d| - 1];
      assert init[0] == d[0];
      ParseStringToNat(init);
      var n := ParseNat(d);
      assert n / 10 == ParseNat(init) && n % 10 == DigitValue(d[|d| - 1]);
      assert n >= 10;
      assert DigitChar(DigitValue(d[|d| - 1])) == d[|d| - 1];
      assert d == init + [d[|d| - 1]];
    } else {
      assert DigitChar(DigitValue(d[0])) == d[0];
    }
  }

  lemma IntToStringRoundTrip(n: int)
    ensures ParseInt(IntToString(n)) == Some(n)
  {
    if n < 0 {
      var d := NatToString(-n);
      assert ("-" + d)[1..] == d;
      ParseNatToString(-n);
    } else {
      var d := NatToString(n);
      assert d[0] != '-';
      ParseNatToString(n);
    }
  }
}
