/**
 * The PHP string built-ins the debug helper relies on, stated over `string`
 * (one `char` per byte of the PHP string): integer-to-string conversion,
 * `implode`, `explode` on a one-character delimiter, `str_pad` of an empty
 * string, and `str_replace` of one character by nothing.
 */
module Strings {

  predicate IsDigit(c: char) {
    '0' <= c <= '9'
  }

  function DigitChar(d: nat): (c: char)
    requires d < 10
    ensures IsDigit(c)
  {
    ('0' as int + d) as char
  }

  function DigitValue(c: char): nat {
    if IsDigit(c) then c as int - '0' as int else 0
  }

  /** PHP's decimal rendering of a non-negative integer. */
  function NatStr(n: nat): (s: string)
    ensures |s| >= 1
    ensures forall i :: 0 <= i < |s| ==> IsDigit(s[i])
    decreases n
  {
    if n < 10 then [DigitChar(n)] else NatStr(n / 10) + [DigitChar(n % 10)]
  }

  /** Reads a string of decimal digits back as a number (the partner of `NatStr`). */
  function ParseNat(s: string): nat
    decreases |s|
  {
    if s == [] then 0 else ParseNat(s[..|s| - 1]) * 10 + DigitValue(s[|s| - 1])
  }

  lemma {:induction false} ParseNatStr(n: nat)
    ensures ParseNat(NatStr(n)) == n
    decreases n
  {
    if n >= 10 {
      var s := NatStr(n);
      assert s[..|s| - 1] == NatStr(n / 10);
      ParseNatStr(n / 10);
    }
  }

  /** Different numbers never render to the same digits. */
  lemma NatStrInjective(a: nat, b: nat)
    requires NatStr(a) == NatStr(b)
    ensures a == b
  {
    ParseNatStr(a);
    ParseNatStr(b);
  }

  /** PHP's decimal rendering of any integer: a minus sign, then the digits. */
  function IntStr(i: int): (s: string)
    ensures |s| >= 1
    ensures s[0] == '-' <==> i < 0
    ensures forall k :: 0 <= k < |s| ==> s[k] == '-' || IsDigit(s[k])
  {
    if i < 0 then "-" + NatStr(-i) else NatStr(i)
  }

  /** `implode(sep, parts)`. */
  function Join(parts: seq<string>, sep: string): string
    decreases |parts|
  {
    if |parts| == 0 then ""
    else if |parts| == 1 then parts[0]
    else parts[0] + sep + Join(parts[1..], sep)
  }

  /** `explode(d, s)` for a one-character delimiter: never empty, pieces hold no `d`. */
  function Split(s: string, d: char): (r: seq<string>)
    ensures |r| >= 1
    ensures forall i :: 0 <= i < |r| ==> d !in r[i]
    decreases |s|
  {
    if s == [] then [""]
    else
      var rest := Split(s[1..], d);
      if s[0] == d then [""] + rest else [[s[0]] + rest[0]] + rest[1..]
  }

  /** There is one piece more than there are delimiters. */
  lemma {:induction false} SplitCount(s: string, d: char)
    ensures |Split(s, d)| == multiset(s)[d] + 1
    decreases |s|
  {
    if s != [] {
      assert s == [s[0]] + s[1..];
      assert multiset(s) == multiset([s[0]]) + multiset(s[1..]);
      SplitCount(s[1..], d);
    }
  }

  /** Joining the pieces with the delimiter gives the string back. */
  lemma {:induction false} JoinSplit(s: string, d: char)
    ensures Join(Split(s, d), [d]) == s
    decreases |s|
  {
    if s != [] {
      var rest := Split(s[1..], d);
      JoinSplit(s[1..], d);
      if s[0] == d {
        assert Split(s, d) == [""] + rest;
        assert ([""] + rest)[1..] == rest;
      } else if |rest| == 1 {
        assert Split(s, d) == [[s[0]] + rest[0]];
      } else {
        var r := [[s[0]] + rest[0]] + rest[1..];
        assert Split(s, d) == r;
        assert r[1..] == rest[1..];
        assert Join(rest, [d]) == rest[0] + [d] + Join(rest[1..], [d]);
      }
    }
  }

  /** Splitting a string with no delimiter in it gives that one piece. */
  lemma {:induction false} SplitNoDelimiter(s: string, d: char)
    requires d !in s
    ensures Split(s, d) == [s]
    decreases |s|
  {
    if s != [] {
      SplitNoDelimiter(s[1..], d);
      assert [s[0]] + s[1..] == s;
    }
  }

  /** A delimiter-free head splits off as the first piece. */
  lemma {:induction false} SplitAfterHead(a: string, d: char, b: string)
    requires d !in a
    ensures Split(a + [d] + b, d) == [a] + Split(b, d)
    decreases |a|
  {
    if a == [] {
      assert a + [d] + b == [d] + b;
      assert ([d] + b)[1..] == b;
    } else {
      var s := a + [d] + b;
      assert s[1..] == a[1..] + [d] + b;
      SplitAfterHead(a[1..], d, b);
      assert [a[0]] + a[1..] == a;
    }
  }

  /** Splitting the join of delimiter-free pieces gives the pieces back. */
  lemma {:induction false} SplitJoin(parts: seq<string>, d: char)
    requires |parts| >= 1
    requires forall i :: 0 <= i < |parts| ==> d !in parts[i]
    ensures Split(Join(parts, [d]), d) == parts
    decreases |parts|
  {
    if |parts| == 1 {
      SplitNoDelimiter(parts[0], d);
    } else {
      SplitJoin(parts[1..], d);
      SplitAfterHead(parts[0], d, Join(parts[1..], [d]));
      assert [parts[0]] + parts[1..] == parts;
    }
  }

  /** Prefixing the first piece prefixes the joined string. */
  lemma JoinPrefixFirst(addon: string, parts: seq<string>, sep: string)
    requires |parts| >= 1
    ensures Join([addon + parts[0]] + parts[1..], sep) == addon + Join(parts, sep)
  {
    var q := [addon + parts[0]] + parts[1..];
    assert q[1..] == parts[1..];
  }

  /** `str_pad('', width, ' ', STR_PAD_LEFT)`: `width` spaces, nothing for a width of 0 or less. */
  function PadLeft(width: int): (r: string)
    ensures |r| == if width > 0 then width else 0
    ensures forall i :: 0 <= i < |r| ==> r[i] == ' '
  {
    if width > 0 then seq(width, _ => ' ') else ""
  }

  /** The concatenation of a sequence of strings, in order. */
  function Concat(ss: seq<string>): string
    decreases |ss|
  {
    if ss == [] then "" else Concat(ss[..|ss| - 1]) + ss[|ss| - 1]
  }

  /** A concatenation is empty exactly when every piece is. */
  lemma {:induction false} ConcatEmpty(ss: seq<string>)
    ensures Concat(ss) == "" <==> forall i :: 0 <= i < |ss| ==> ss[i] == ""
    decreases |ss|
  {
    if ss != [] {
      ConcatEmpty(ss[..|ss| - 1]);
      assert forall i :: 0 <= i < |ss| - 1 ==> ss[..|ss| - 1][i] == ss[i];
    }
  }

  /** `str_replace(c, '', s)`: `s` with every `c` removed. */
  function Remove(s: string, c: char): (r: string)
    ensures c !in r
    ensures |r| <= |s|
    decreases |s|
  {
    if s == [] then "" else (if s[0] == c then "" else [s[0]]) + Remove(s[1..], c)
  }

  /** Removal leaves a string without `c` as it is. */
  lemma {:induction false} RemoveAbsent(s: string, c: char)
    requires c !in s
    ensures Remove(s, c) == s
    decreases |s|
  {
    if s != [] {
      RemoveAbsent(s[1..], c);
      assert [s[0]] + s[1..] == s;
    }
  }

  /** Removal works piece by piece. */
  lemma {:induction false} RemoveAppend(a: string, b: string, c: char)
    ensures Remove(a + b, c) == Remove(a, c) + Remove(b, c)
    decreases |a|
  {
    if a != [] {
      assert (a + b)[1..] == a[1..] + b;
      RemoveAppend(a[1..], b, c);
    } else {
      assert a + b == b;
    }
  }
}
