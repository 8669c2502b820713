/** The string operations the bot relies on, with Python's meaning. */
module Text {

  /** Python's `p in s` for strings: `p` is a contiguous substring of `s`. */
  predicate Occurs(p: string, s: string)
    decreases |s|
  {
    |p| <= |s| && (s[..|p|] == p || Occurs(p, s[1..]))
  }

  /** The declarative reading of `Occurs`. */
  ghost predicate OccursAt(p: string, s: string, i: int) {
    0 <= i <= |s| - |p| && s[i..i + |p|] == p
  }

  lemma {:induction false} OccursIff(p: string, s: string)
    ensures Occurs(p, s) <==> exists i :: OccursAt(p, s, i)
    decreases |s|
  {
    if |p| <= |s| {
      if s[..|p|] == p {
        assert OccursAt(p, s, 0);
      } else {
        OccursIff(p, s[1..]);
        if Occurs(p, s[1..]) {
          var j :| OccursAt(p, s[1..], j);
          assert s[1..][j..j + |p|] == s[j + 1..j + 1 + |p|];
          assert OccursAt(p, s, j + 1);
        }
        if i :| OccursAt(p, s, i) {
          assert i != 0;
          assert s[1..][i - 1..i - 1 + |p|] == s[i..i + |p|];
          assert OccursAt(p, s[1..], i - 1);
        }
      }
    }
  }

  /** The empty pattern occurs in every string, as `'' in s` is always True. */
  lemma EmptyOccurs(s: string)
    ensures Occurs("", s)
  {
  }

  /** Python's `pattern in s` for each pattern, in order, stopping at the first hit. */
  predicate AnyOccurs(patterns: seq<string>, s: string) {
    if patterns == [] then false
    else Occurs(patterns[0], s) || AnyOccurs(patterns[1..], s)
  }

  lemma {:induction false} AnyOccursIff(patterns: seq<string>, s: string)
    ensures AnyOccurs(patterns, s) <==> exists k :: 0 <= k < |patterns| && Occurs(patterns[k], s)
  {
    if patterns != [] {
      AnyOccursIff(patterns[1..], s);
      if AnyOccurs(patterns[1..], s) {
        var k :| 0 <= k < |patterns[1..]| && Occurs(patterns[1..][k], s);
        assert Occurs(patterns[k + 1], s);
      }
      if k :| 0 <= k < |patterns| && Occurs(patterns[k], s) {
        if k > 0 {
          assert patterns[1..][k - 1] == patterns[k];
        }
      }
    }
  }

  /** ASCII lowercasing of one character; other characters are unchanged. */
  function LowerChar(c: char): char {
    if 'A' <= c <= 'Z' then (c as int - 'A' as int + 'a' as int) as char else c
  }

  /** `str.lower()` restricted to ASCII letters. */
  function Lower(s: string): string {
    seq(|s|, i requires 0 <= i < |s| => LowerChar(s[i]))
  }

  lemma LowerIdempotent(s: string)
    ensures Lower(Lower(s)) == Lower(s)
  {
  }

  /** The pieces of an f-string, concatenated in order. */
  function Concat(pieces: seq<string>): (r: string)
    ensures |r| == SumLengths(pieces)
  {
    if pieces == [] then "" else pieces[0] + Concat(pieces[1..])
  }

  function SumLengths(pieces: seq<string>): nat {
    if pieces == [] then 0 else |pieces[0]| + SumLengths(pieces[1..])
  }

  /** `sep.join(parts)`. */
  function Join(parts: seq<string>, sep: string): string {
    if parts == [] then ""
    else if |parts| == 1 then parts[0]
    else parts[0] + sep + Join(parts[1..], sep)
  }

  /** Joining a list to which one more part is appended. */
  lemma {:induction false} JoinSnoc(parts: seq<string>, p: string, sep: string)
    requires parts != []
    ensures Join(parts + [p], sep) == Join(parts, sep) + sep + p
  {
    if |parts| == 1 {
      assert (parts + [p])[1..] == [p];
    } else {
      assert (parts + [p])[1..] == parts[1..] + [p];
      JoinSnoc(parts[1..], p, sep);
    }
  }

  /** The decimal digits of a natural number, most significant first. */
  function NatToString(n: nat): string
    decreases n
  {
    if n < 10 then [DigitChar(n)] else NatToString(n / 10) + [DigitChar(n % 10)]
  }

  /** `str(n)` is a non-empty string of digits without a leading zero. */
  lemma {:induction false} NatToStringDigits(n: nat)
    ensures var r := NatToString(n);
      |r| >= 1 && (forall i :: 0 <= i < |r| ==> '0' <= r[i] <= '9') && (|r| > 1 ==> r[0] != '0')
    decreases n
  {
    if n >= 10 {
      NatToStringDigits(n / 10);
    }
  }

  function DigitChar(d: nat): char
    requires d < 10
  {
    ('0' as int + d) as char
  }

  /** `str(n)` for a Python int. */
  function IntToString(n: int): string {
    if n < 0 then "-" + NatToString(-n) else NatToString(n)
  }

  /** Reads back a string of decimal digits; the inverse of `NatToString`. */
  function ParseNat(s: string): int {
    if s == [] then 0 else ParseNat(s[..|s| - 1]) * 10 + (s[|s| - 1] as int - '0' as int)
  }

  lemma {:induction false} ParseNatToString(n: nat)
    ensures ParseNat(NatToString(n)) == n
    decreases n
  {
    if n >= 10 {
      var s := NatToString(n);
      assert s[..|s| - 1] == NatToString(n / 10);
      ParseNatToString(n / 10);
    }
  }

  /** Different numbers are rendered differently. */
  lemma NatToStringInjective(m: nat, n: nat)
    requires NatToString(m) == NatToString(n)
    ensures m == n
  {
    ParseNatToString(m);
    ParseNatToString(n);
  }

  /** `s.rjust(width, fill)`: left-pads `s` with `fill` up to `width` characters. */
  function RJust(s: string, width: int, fill: char): string {
    if width <= |s| then s else seq(width - |s|, _ => fill) + s
  }

  /** The padded string is `width` long (or `s` itself when already wider), ends
      with `s` and starts with fill characters only. */
  lemma RJustPads(s: string, width: int, fill: char)
    ensures var r := RJust(s, width, fill);
      |r| == (if width <= |s| then |s| else width) && r[|r| - |s|..] == s &&
      forall i :: 0 <= i < |r| - |s| ==> r[i] == fill
  {
  }

  /** `'%02d' % n` for a natural number. */
  function Pad2(n: nat): string {
    if n < 10 then "0" + NatToString(n) else NatToString(n)
  }
}
