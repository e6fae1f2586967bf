/** Byte-string helpers the discovery pass relies on: PHP's `explode`,
    case-insensitive `stristr`, and `urldecode` (with `urlencode` as its
    inverse). Strings are PHP byte strings, modelled as `seq<char>` whose
    characters are below 256 where that matters. */
module Text {
  import opened Wrappers

  /** ASCII lower-casing of one character, as PHP 8 case folding does. */
  function LowerChar(c: char): char {
    if 'A' <= c <= 'Z' then (c as int + 32) as char else c
  }

  function Lower(s: string): (r: string)
    ensures |r| == |s|
    ensures forall i :: 0 <= i < |s| ==> r[i] == LowerChar(s[i])
  {
    if s == [] then [] else [LowerChar(s[0])] + Lower(s[1..])
  }

  lemma {:induction false} LowerAppend(a: string, b: string)
    ensures Lower(a + b) == Lower(a) + Lower(b)
  {
    assert |Lower(a + b)| == |Lower(a) + Lower(b)|;
    forall i | 0 <= i < |a + b| ensures Lower(a + b)[i] == (Lower(a) + Lower(b))[i] {
    }
  }

  /** `d` occurs in `s` starting at position `j`. */
  predicate OccursAt(s: string, d: string, j: int) {
    0 <= j && j + |d| <= |s| && s[j..j + |d|] == d
  }

  /** The first position at or after `from` where `d` occurs in `s`. */
  function FindFrom(s: string, d: string, from: nat): Option<nat>
    requires d != []
    decreases |s| - from
  {
    if from + |d| > |s| then None
    else if s[from..from + |d|] == d then Some(from)
    else FindFrom(s, d, from + 1)
  }

  /** `FindFrom` finds the first occurrence at or after `from`, and finds
      nothing exactly when there is none. */
  lemma {:induction false} FindFromFirst(s: string, d: string, from: nat)
    requires d != []
    ensures var r := FindFrom(s, d, from);
      && (r.Some? ==> from <= r.value && OccursAt(s, d, r.value))
      && (r.Some? ==> forall j :: from <= j < r.value ==> !OccursAt(s, d, j))
      && (r.None? ==> forall j :: from <= j ==> !OccursAt(s, d, j))
    decreases |s| - from
  {
    if from + |d| <= |s| && s[from..from + |d|] != d {
      FindFromFirst(s, d, from + 1);
    }
  }

  predicate Contains(s: string, d: string)
    requires d != []
  {
    FindFrom(s, d, 0).Some?
  }

  lemma ContainsAt(s: string, d: string, i: nat)
    requires d != [] && i + |d| <= |s| && s[i..i + |d|] == d
    ensures Contains(s, d)
  {
    FindFromFirst(s, d, 0);
    assert OccursAt(s, d, i);
  }

  /** `stristr($haystack, $needle)` is truthy: the needle occurs, ignoring
      ASCII case. (For needles other than "0" the returned tail is truthy
      exactly when a match exists.) */
  predicate ContainsCI(haystack: string, needle: string)
    requires needle != []
  {
    Contains(Lower(haystack), Lower(needle))
  }

  predicate NoUpperCase(s: string) {
    forall i :: 0 <= i < |s| ==> !('A' <= s[i] <= 'Z')
  }

  lemma LowerNoUpperCase(s: string)
    requires NoUpperCase(s)
    ensures Lower(s) == s
  {
  }

  /** `stristr` for a needle with no upper-case letter: only the haystack
      needs folding. */
  predicate ContainsFolded(haystack: string, needle: string)
    requires needle != []
  {
    Contains(Lower(haystack), needle)
  }

  lemma ContainsFoldedIsCI(haystack: string, needle: string)
    requires needle != [] && NoUpperCase(needle)
    ensures ContainsFolded(haystack, needle) <==> ContainsCI(haystack, needle)
  {
    LowerNoUpperCase(needle);
  }

  /** Some non-empty needle of the list occurs in the haystack folded to
      lower case; the needles are tried in order. */
  predicate ContainsAnyFolded(haystack: string, needles: seq<string>) {
    needles != []
    && ((needles[0] != [] && ContainsFolded(haystack, needles[0])) || ContainsAnyFolded(haystack, needles[1..]))
  }

  lemma {:induction false} ContainsAnyFoldedIff(haystack: string, needles: seq<string>)
    ensures ContainsAnyFolded(haystack, needles)
        <==> exists i :: 0 <= i < |needles| && needles[i] != [] && ContainsFolded(haystack, needles[i])
  {
    if needles != [] {
      ContainsAnyFoldedIff(haystack, needles[1..]);
      if exists i :: 0 <= i < |needles| && needles[i] != [] && ContainsFolded(haystack, needles[i]) {
        var i :| 0 <= i < |needles| && needles[i] != [] && ContainsFolded(haystack, needles[i]);
        if i > 0 {
          assert needles[1..][i - 1] == needles[i];
        }
      }
      if ContainsAnyFolded(haystack, needles[1..]) {
        var i :| 0 <= i < |needles| - 1 && needles[1..][i] != [] && ContainsFolded(haystack, needles[1..][i]);
        assert needles[i + 1] == needles[1..][i];
      }
    }
  }

  /** A needle found in any mix of upper and lower case is found by `ContainsCI`. */
  lemma {:induction false} ContainsCIAnyCase(a: string, m: string, b: string, needle: string)
    requires needle != [] && Lower(m) == Lower(needle)
    ensures ContainsCI(a + m + b, needle)
  {
    LowerAppend(a + m, b);
    LowerAppend(a, m);
    var h := Lower(a) + Lower(m) + Lower(b);
    assert h[|a|..|a| + |needle|] == Lower(needle);
    ContainsAt(h, Lower(needle), |a|);
  }

  /** Text spelled in any mix of cases is found once folded. */
  lemma {:induction false} ContainsFoldedAnyCase(a: string, m: string, b: string, needle: string)
    requires needle != [] && Lower(m) == needle
    ensures ContainsFolded(a + m + b, needle)
  {
    LowerAppend(a + m, b);
    LowerAppend(a, m);
    var h := Lower(a) + needle + Lower(b);
    assert Lower(a + m + b) == h;
    assert h[|a|..|a| + |needle|] == needle;
    ContainsAt(h, needle, |a|);
  }

  /** PHP `explode($d, $s)` for a non-empty delimiter. */
  function Explode(s: string, d: string): (r: seq<string>)
    requires d != []
    ensures |r| >= 1
    decreases |s|
  {
    match FindFrom(s, d, 0)
    case None => [s]
    case Some(i) =>
      FindFromFirst(s, d, 0);
      [s[..i]] + Explode(s[i + |d|..], d)
  }

  /** PHP `implode($d, $pieces)`. */
  function Join(pieces: seq<string>, d: string): string
    requires |pieces| >= 1
  {
    if |pieces| == 1 then pieces[0] else pieces[0] + d + Join(pieces[1..], d)
  }

  lemma JoinCons(first: string, rest: seq<string>, d: string)
    requires |rest| >= 1
    ensures Join([first] + rest, d) == first + d + Join(rest, d)
  {
    assert ([first] + rest)[1..] == rest;
  }

  lemma SplitAround(s: string, d: string, i: nat)
    requires OccursAt(s, d, i)
    ensures s == s[..i] + d + s[i + |d|..]
  {
    assert s == s[..i] + s[i..i + |d|] + s[i + |d|..];
  }

  /** `implode` puts back together what `explode` took apart. */
  lemma {:induction false} JoinExplode(s: string, d: string)
    requires d != []
    ensures Join(Explode(s, d), d) == s
    decreases |s|
  {
    FindFromFirst(s, d, 0);
    var found := FindFrom(s, d, 0);
    if found.Some? {
      var i := found.value;
      var rest := s[i + |d|..];
      JoinExplode(rest, d);
      assert Explode(s, d) == [s[..i]] + Explode(rest, d);
      JoinCons(s[..i], Explode(rest, d), d);
      SplitAround(s, d, i);
    } else {
      assert Explode(s, d) == [s];
    }
  }

  /** `explode` splits exactly when the delimiter occurs. */
  lemma ExplodeSplitsIffContains(s: string, d: string)
    requires d != []
    ensures |Explode(s, d)| == 1 <==> !Contains(s, d)
  {
    FindFromFirst(s, d, 0);
    match FindFrom(s, d, 0)
    case None =>
    case Some(i) =>
      assert |Explode(s, d)| == 1 + |Explode(s[i + |d|..], d)|;
  }

  /** The text before the first occurrence of `d` holds no `d`. */
  lemma BeforeFirstFree(s: string, d: string, i: nat)
    requires d != [] && FindFrom(s, d, 0) == Some(i)
    ensures i <= |s| && !Contains(s[..i], d)
  {
    FindFromFirst(s, d, 0);
    var p := s[..i];
    FindFromFirst(p, d, 0);
    forall j | 0 <= j ensures !OccursAt(p, d, j) {
      if j + |d| <= |p| {
        assert s[j..j + |d|] == p[j..j + |d|];
        assert !OccursAt(s, d, j);
      }
    }
  }

  /** No piece `explode` returns contains the delimiter. */
  lemma {:induction false} ExplodePiecesFree(s: string, d: string, k: nat)
    requires d != [] && k < |Explode(s, d)|
    ensures !Contains(Explode(s, d)[k], d)
    decreases |s|
  {
    FindFromFirst(s, d, 0);
    match FindFrom(s, d, 0)
    case None =>
    case Some(i) =>
      if k == 0 {
        BeforeFirstFree(s, d, i);
      } else {
        ExplodePiecesFree(s[i + |d|..], d, k - 1);
      }
  }

  /** `explode` of a string that contains no delimiter is that string alone. */
  lemma ExplodeFree(s: string, d: string)
    requires d != [] && !Contains(s, d)
    ensures Explode(s, d) == [s]
  {
  }

  predicate IsHex(c: char) {
    '0' <= c <= '9' || 'a' <= c <= 'f' || 'A' <= c <= 'F'
  }

  function HexValue(c: char): (v: nat)
    requires IsHex(c)
    ensures v < 16
  {
    if '0' <= c <= '9' then c as int - '0' as int
    else if 'a' <= c <= 'f' then c as int - 'a' as int + 10
    else c as int - 'A' as int + 10
  }

  /** Upper-case hex digit, as `urlencode` writes them. */
  function HexDigit(v: nat): (c: char)
    requires v < 16
    ensures IsHex(c) && HexValue(c) == v
  {
    if v < 10 then ('0' as int + v) as char else ('A' as int + v - 10) as char
  }

  /** PHP `urldecode`: `+` becomes a space, `%` followed by two hex digits
      becomes that byte, anything else (a stray `%` included) is copied. */
  function UrlDecode(s: string): (r: string)
    ensures |r| <= |s|
  {
    if s == [] then []
    else if s[0] == '+' then [' '] + UrlDecode(s[1..])
    else if s[0] == '%' && |s| >= 3 && IsHex(s[1]) && IsHex(s[2]) then
      [(HexValue(s[1]) * 16 + HexValue(s[2])) as char] + UrlDecode(s[3..])
    else [s[0]] + UrlDecode(s[1..])
  }

  predicate IsUnreserved(c: char) {
    'a' <= c <= 'z' || 'A' <= c <= 'Z' || '0' <= c <= '9' || c == '-' || c == '_' || c == '.'
  }

  predicate IsByteString(s: string) {
    forall i :: 0 <= i < |s| ==> s[i] as int < 256
  }

  /** PHP `urlencode` of one byte. */
  function EncodeByte(c: char): string
    requires c as int < 256
  {
    if IsUnreserved(c) then [c]
    else if c == ' ' then "+"
    else ['%', HexDigit(c as int / 16), HexDigit(c as int % 16)]
  }

  /** PHP `urlencode` of a byte string. */
  function UrlEncode(s: string): string
    requires IsByteString(s)
  {
    if s == [] then [] else EncodeByte(s[0]) + UrlEncode(s[1..])
  }

  lemma DecodeEncodedByte(c: char, rest: string)
    requires c as int < 256
    ensures UrlDecode(EncodeByte(c) + rest) == [c] + UrlDecode(rest)
  {
    var e := EncodeByte(c) + rest;
    if IsUnreserved(c) {
      assert e[1..] == rest;
    } else if c == ' ' {
      assert e[1..] == rest;
    } else {
      assert e[3..] == rest;
      assert HexValue(e[1]) * 16 + HexValue(e[2]) == c as int;
    }
  }

  /** `urldecode` undoes `urlencode`. */
  lemma {:induction false} UrlDecodeEncode(s: string)
    requires IsByteString(s)
    ensures UrlDecode(UrlEncode(s)) == s
  {
    if s != [] {
      UrlDecodeEncode(s[1..]);
      DecodeEncodedByte(s[0], UrlEncode(s[1..]));
    }
  }

  predicate PlainText(s: string) {
    forall i :: 0 <= i < |s| ==> s[i] != '+' && s[i] != '%'
  }

  /** Text with no `+` and no `%` passes through `urldecode` unchanged,
      whatever follows it. */
  lemma {:induction false} UrlDecodePlainPrefix(p: string, rest: string)
    requires PlainText(p)
    ensures UrlDecode(p + rest) == p + UrlDecode(rest)
  {
    if p != [] {
      var s := p + rest;
      assert s[0] == p[0] && s[1..] == p[1..] + rest;
      UrlDecodePlainPrefix(p[1..], rest);
      assert p == [p[0]] + p[1..];
    } else {
      assert p + rest == rest;
    }
  }

  /** A `%` escape decodes to its byte, whatever follows it. */
  lemma UrlDecodeEscape(hi: char, lo: char, rest: string)
    requires IsHex(hi) && IsHex(lo)
    ensures UrlDecode(['%', hi, lo] + rest)
         == [(HexValue(hi) * 16 + HexValue(lo)) as char] + UrlDecode(rest)
  {
    assert (['%', hi, lo] + rest)[3..] == rest;
  }

  /** Text with no `+` and no `%` is left as it is by `urldecode`. */
  lemma UrlDecodePlain(s: string)
    requires PlainText(s)
    ensures UrlDecode(s) == s
  {
    UrlDecodePlainPrefix(s, []);
    assert s + [] == s;
  }
}
