/**
 * The JavaScript string operations the client relies on: `trim`, `includes`,
 * `toLowerCase` (ASCII letters only) and the `map(trim).filter(Boolean)` idiom.
 */
module Text {
  import Seqs

  /** The code points ECMAScript's `String.prototype.trim` removes: WhiteSpace and LineTerminator. */
  predicate IsSpace(c: char) {
    var n := c as int;
    n == 0x09 || n == 0x0A || n == 0x0B || n == 0x0C || n == 0x0D || n == 0x20 || n == 0xA0
    || n == 0x1680 || (0x2000 <= n <= 0x200A) || n == 0x2028 || n == 0x2029 || n == 0x202F
    || n == 0x205F || n == 0x3000 || n == 0xFEFF
  }

  /** The string is blank: `!s.trim()` holds of it. */
  predicate AllSpace(s: string) {
    forall i :: 0 <= i < |s| ==> IsSpace(s[i])
  }

  /** Neither end of the string is whitespace. */
  predicate Trimmed(s: string) {
    s == [] || (!IsSpace(s[0]) && !IsSpace(s[|s| - 1]))
  }

  /** `r` is `s` with a blank prefix and a blank suffix cut off. */
  ghost predicate IsCoreOf(r: string, s: string) {
    exists a :: IsCoreAt(r, s, a)
  }

  /** `r` starts at offset `a` of `s`, and only whitespace surrounds it. */
  ghost predicate IsCoreAt(r: string, s: string, a: int) {
    0 <= a <= |s| - |r| && s[a..a + |r|] == r && AllSpace(s[..a]) && AllSpace(s[a + |r|..])
  }

  function LeadingSpaces(s: string): (n: nat)
    ensures n <= |s|
    ensures forall i :: 0 <= i < n ==> IsSpace(s[i])
    ensures n < |s| ==> !IsSpace(s[n])
  {
    if s == [] || !IsSpace(s[0]) then 0 else 1 + LeadingSpaces(s[1..])
  }

  function TrailingSpaces(s: string): (n: nat)
    ensures n <= |s|
    ensures forall i :: |s| - n <= i < |s| ==> IsSpace(s[i])
    ensures n < |s| ==> !IsSpace(s[|s| - 1 - n])
  {
    if s == [] || !IsSpace(s[|s| - 1]) then 0 else 1 + TrailingSpaces(s[..|s| - 1])
  }

  /** `s.trim()` */
  function Trim(s: string): (r: string)
    ensures r == [] <==> AllSpace(s)
    ensures Trimmed(r)
  {
    var a := LeadingSpaces(s);
    if a == |s| then []
    else
      var b := |s| - TrailingSpaces(s);
      assert a < b;
      s[a..b]
  }

  /** What `trim` keeps: the input with a blank prefix and a blank suffix cut off. */
  lemma TrimIsCore(s: string)
    ensures IsCoreOf(Trim(s), s)
  {
    var a := LeadingSpaces(s);
    if a == |s| {
      assert IsCoreAt([], s, 0);
    } else {
      var b := |s| - TrailingSpaces(s);
      assert forall i :: 0 <= i < |s| - b ==> s[b..][i] == s[b + i];
      assert IsCoreAt(s[a..b], s, a);
    }
  }

  /** Trimming a string that is already trimmed changes nothing; in particular `trim` is idempotent. */
  lemma TrimOfTrimmed(s: string)
    requires Trimmed(s)
    ensures Trim(s) == s
  {
    if s != [] {
      assert LeadingSpaces(s) == 0;
      assert TrailingSpaces(s) == 0;
    }
  }

  /** `needle` occurs in `hay` as a contiguous block. */
  ghost predicate IsSubstring(needle: string, hay: string) {
    exists i :: OccursAt(needle, hay, i)
  }

  ghost predicate OccursAt(needle: string, hay: string, i: int) {
    0 <= i <= |hay| - |needle| && hay[i..i + |needle|] == needle
  }

  /** `hay.includes(needle)`, searched left to right. */
  function Includes(hay: string, needle: string): (b: bool)
    ensures b <==> IsSubstring(needle, hay)
    decreases |hay|
  {
    if needle <= hay then
      assert OccursAt(needle, hay, 0);
      true
    else if hay == [] then
      false
    else
      var b := Includes(hay[1..], needle);
      assert b ==> IsSubstring(needle, hay) by {
        if b {
          var i :| OccursAt(needle, hay[1..], i);
          var w := hay[i + 1..i + 1 + |needle|];
          assert forall k :: 0 <= k < |needle| ==> w[k] == needle[k];
          assert OccursAt(needle, hay, i + 1);
        }
      }
      assert IsSubstring(needle, hay) ==> b by {
        if IsSubstring(needle, hay) {
          var i :| OccursAt(needle, hay, i);
          assert i != 0;
          assert hay[1..][i - 1..i - 1 + |needle|] == hay[i..i + |needle|];
          assert OccursAt(needle, hay[1..], i - 1);
        }
      }
      b
  }

  /** `c.toLowerCase()` on the ASCII letters; every other character is left as it is. */
  function LowerChar(c: char): char {
    if 'A' <= c <= 'Z' then (c as int + 32) as char else c
  }

  /** `s.toLowerCase()`, character by character. */
  function ToLower(s: string): (r: string)
    ensures |r| == |s|
    ensures forall i :: 0 <= i < |r| ==> !('A' <= r[i] <= 'Z')
    ensures forall i :: 0 <= i < |s| && !('A' <= s[i] <= 'Z') ==> r[i] == s[i]
    ensures forall i :: 0 <= i < |s| && 'A' <= s[i] <= 'Z' ==> r[i] as int == s[i] as int + 32
  {
    seq(|s|, i requires 0 <= i < |s| => LowerChar(s[i]))
  }

  /** Every part trimmed: `parts.map((s) => s.trim())`. */
  function TrimEach(parts: seq<string>): (r: seq<string>)
    ensures |r| == |parts|
  {
    seq(|parts|, i requires 0 <= i < |parts| => Trim(parts[i]))
  }

  /** How many parts are not blank. */
  function CountNonBlank(parts: seq<string>): (n: nat)
    ensures n <= |parts|
  {
    if parts == [] then 0 else (if AllSpace(parts[0]) then 0 else 1) + CountNonBlank(parts[1..])
  }

  /**
   * `parts.map((s) => s.trim()).filter(Boolean)`: the trimmed parts, in order, without the
   * empty ones. Being a subsequence of the trimmed parts with as many (non-empty)
   * elements as there are non-blank parts determines the result.
   */
  function TrimAndDropEmpty(parts: seq<string>): (r: seq<string>)
    ensures forall k :: 0 <= k < |r| ==> r[k] != [] && Trimmed(r[k])
    ensures r == [] <==> forall j :: 0 <= j < |parts| ==> AllSpace(parts[j])
    ensures |r| == CountNonBlank(parts)
    ensures Seqs.IsSubsequence(r, TrimEach(parts))
  {
    if parts == [] then []
    else
      var rest := TrimAndDropEmpty(parts[1..]);
      assert TrimEach(parts)[1..] == TrimEach(parts[1..]);
      assert forall j :: 1 <= j < |parts| ==> parts[j] == parts[1..][j - 1];
      var t := Trim(parts[0]);
      assert CountNonBlank(parts) == (if AllSpace(parts[0]) then 0 else 1) + CountNonBlank(parts[1..]);
      if t == [] then rest
      else
        assert ([t] + rest)[1..] == rest;
        [t] + rest
  }
}
