/**
 * The Python string operations the mapping and layout code relies on:
 * `str.split`, the last `/`-segment of a path or URI, `str(int)`,
 * `str.upper`, `str.lstrip`, `str.removeprefix` and `str.replace`.
 */
module Text {

  /** `s.split(sep)` for a one-character separator: always at least one part. */
  function Split(s: string, sep: char): (parts: seq<string>)
    ensures |parts| >= 1
    ensures forall i :: 0 <= i < |parts| ==> sep !in parts[i]
    ensures (|parts| == 1) == (sep !in s)
    ensures |parts| == 1 ==> parts[0] == s
  {
    if s == [] then [""]
    else
      var rest := Split(s[1..], sep);
      if s[0] == sep then [""] + rest
      else [[s[0]] + rest[0]] + rest[1..]
  }

  /** `sep.join(parts)`. */
  function Join(parts: seq<string>, sep: char): string
    requires |parts| >= 1
  {
    if |parts| == 1 then parts[0] else parts[0] + [sep] + Join(parts[1..], sep)
  }

  /** Splitting and joining again gives back the original string. */
  lemma {:induction false} JoinSplit(s: string, sep: char)
    ensures Join(Split(s, sep), sep) == s
  {
    if s != [] {
      var rest := Split(s[1..], sep);
      JoinSplit(s[1..], sep);
      if s[0] == sep {
        assert Split(s, sep)[1..] == rest;
      } else {
        var parts := Split(s, sep);
        if |rest| == 1 {
          assert parts == [[s[0]] + rest[0]];
        } else {
          assert parts[1..] == rest[1..];
          assert Join(rest, sep) == rest[0] + [sep] + Join(rest[1..], sep);
        }
      }
    }
  }

  /** A separator-free part followed by the separator splits off as the first part. */
  lemma {:induction false} SplitCons(a: string, sep: char, b: string)
    requires sep !in a
    ensures Split(a + [sep] + b, sep) == [a] + Split(b, sep)
  {
    var s := a + [sep] + b;
    if a == [] {
      assert s == [sep] + b;
      assert s[1..] == b;
    } else {
      assert s[0] == a[0];
      assert s[1..] == a[1..] + [sep] + b;
      SplitCons(a[1..], sep, b);
      assert [a[0]] + a[1..] == a;
    }
  }

  /** Joining separator-free parts and splitting again gives back the parts. */
  lemma {:induction false} SplitJoin(parts: seq<string>, sep: char)
    requires |parts| >= 1
    requires forall i :: 0 <= i < |parts| ==> sep !in parts[i]
    ensures Split(Join(parts, sep), sep) == parts
  {
    if |parts| > 1 {
      SplitJoin(parts[1..], sep);
      SplitCons(parts[0], sep, Join(parts[1..], sep));
      assert [parts[0]] + parts[1..] == parts;
    }
  }

  /** `s.split("/")[-1]`: the last `/`-segment. */
  function LastSegment(s: string): string
  {
    var parts := Split(s, '/');
    parts[|parts| - 1]
  }

  /**
   * The last segment of a split is a suffix of the input that holds no
   * separator, and it is preceded by a separator unless it is the whole input.
   */
  lemma {:induction false} LastPartIsSuffix(s: string, sep: char)
    ensures var parts := Split(s, sep); var last := parts[|parts| - 1];
      && |last| <= |s| && s[|s| - |last|..] == last && sep !in last
      && (|last| < |s| ==> s[|s| - |last| - 1] == sep)
  {
    if s != [] {
      var tail := s[1..];
      LastPartIsSuffix(tail, sep);
      var rest := Split(tail, sep);
      var last := rest[|rest| - 1];
      if s[0] != sep && |rest| == 1 {
        assert Split(s, sep) == [s];
      } else {
        assert Split(s, sep)[|Split(s, sep)| - 1] == last;
        assert s[|s| - |last|..] == tail[|tail| - |last|..];
        if |last| < |tail| {
          assert s[|s| - |last| - 1] == tail[|tail| - |last| - 1];
        }
      }
    }
  }

  /** The properties of `LastSegment` used by the layout and the licenses. */
  lemma LastSegmentIsSuffix(s: string)
    ensures var last := LastSegment(s);
      && |last| <= |s| && s[|s| - |last|..] == last && '/' !in last
      && (|last| < |s| ==> s[|s| - |last| - 1] == '/')
  {
    LastPartIsSuffix(s, '/');
  }

  /** The last part that names something: neither empty nor `.`; `""` when there is none. */
  function LastNamed(parts: seq<string>): (r: string)
    ensures r == "" || r in parts
    ensures r != "."
  {
    if parts == [] then ""
    else
      var last := parts[|parts| - 1];
      if last != "" && last != "." then last else LastNamed(parts[..|parts| - 1])
  }

  /**
   * `pathlib.PurePosixPath(s).name`: the final component once empty and `.`
   * components are dropped, so a trailing `/` does not make the name empty.
   */
  function PathName(s: string): (r: string)
    ensures '/' !in r && r != "."
  {
    var parts := Split(s, '/');
    var r := LastNamed(parts);
    assert r != "" ==> r in parts;
    r
  }

  /** Where the last `/`-segment is a real name, `Path.name` is that segment. */
  lemma PathNameIsLastSegment(s: string)
    requires LastSegment(s) != "" && LastSegment(s) != "."
    ensures PathName(s) == LastSegment(s)
  {
  }

  /** A trailing separator is ignored: `Path("a/b/").name == "b"`. */
  lemma {:induction false} PathNameTrailingSlash(s: string)
    ensures PathName(s + "/") == PathName(s)
  {
    SplitAppendSep(s, '/');
    var parts := Split(s, '/');
    assert Split(s + "/", '/')[..|parts|] == parts;
  }

  /** Appending the separator to a string appends one empty part to its split. */
  lemma {:induction false} SplitAppendSep(s: string, sep: char)
    ensures Split(s + [sep], sep) == Split(s, sep) + [""]
  {
    if s == [] {
      assert Split([sep], sep) == [""] + Split([], sep);
    } else {
      assert (s + [sep])[1..] == s[1..] + [sep];
      SplitAppendSep(s[1..], sep);
    }
  }

  function DigitChar(d: nat): (c: char)
    requires d < 10
    ensures '0' <= c <= '9'
  {
    ('0' as int + d) as char
  }

  predicate IsDigits(s: string)
  {
    forall i :: 0 <= i < |s| ==> '0' <= s[i] <= '9'
  }

  /** `str(n)` for a natural number: its decimal digits. */
  function NatToString(n: nat): (r: string)
    ensures |r| >= 1 && IsDigits(r)
    ensures r[0] == '0' ==> n == 0
  {
    if n < 10 then [DigitChar(n)] else NatToString(n / 10) + [DigitChar(n % 10)]
  }

  /** The number a string of decimal digits denotes. */
  function DecimalValue(s: string): nat
    requires IsDigits(s)
  {
    if s == [] then 0
    else 10 * DecimalValue(s[..|s| - 1]) + (s[|s| - 1] as int - '0' as int)
  }

  /** Reading back the decimal digits gives the number: `str` loses nothing. */
  lemma {:induction false} NatToStringRoundTrip(n: nat)
    ensures DecimalValue(NatToString(n)) == n
  {
    if n >= 10 {
      NatToStringRoundTrip(n / 10);
      var r := NatToString(n);
      assert r[..|r| - 1] == NatToString(n / 10);
    }
  }

  /** `str(i)` for an integer. */
  function IntToString(i: int): (r: string)
    ensures |r| >= 1
    ensures (r[0] == '-') == (i < 0)
  {
    if i < 0 then "-" + NatToString(-i) else NatToString(i)
  }

  function UpperChar(c: char): char
  {
    if 'a' <= c <= 'z' then (c as int - 32) as char else c
  }

  /** `s.upper()` on ASCII letters. */
  function Upper(s: string): (r: string)
    ensures |r| == |s|
    ensures forall i :: 0 <= i < |s| ==> r[i] == UpperChar(s[i])
  {
    if s == [] then [] else [UpperChar(s[0])] + Upper(s[1..])
  }

  /** `s.lstrip(chars)`: drop every leading character that is in the set. */
  function LStrip(s: string, chars: set<char>): (r: string)
    ensures |r| <= |s| && s[|s| - |r|..] == r
    ensures forall i :: 0 <= i < |s| - |r| ==> s[i] in chars
    ensures r != [] ==> r[0] !in chars
  {
    if s != [] && s[0] in chars then LStrip(s[1..], chars) else s
  }

  /** `s.removeprefix(prefix)`. */
  function RemovePrefix(s: string, prefix: string): (r: string)
    ensures prefix <= s ==> prefix + r == s
    ensures !(prefix <= s) ==> r == s
  {
    if prefix <= s then s[|prefix|..] else s
  }

  /** `pat` occurs in `s` starting at position `i`. */
  predicate OccursAt(pat: string, s: string, i: nat)
  {
    i + |pat| <= |s| && s[i..i + |pat|] == pat
  }

  /** `pat` occurs nowhere in `s`. */
  predicate NoOccurrence(pat: string, s: string)
  {
    forall i: nat | i <= |s| :: !OccursAt(pat, s, i)
  }

  /** `s.replace(pat, rep)`: every non-overlapping occurrence, left to right. */
  function ReplaceAll(s: string, pat: string, rep: string): string
    requires |pat| > 0
    decreases |s|
  {
    if |pat| <= |s| && s[..|pat|] == pat then rep + ReplaceAll(s[|pat|..], pat, rep)
    else if s == [] then []
    else [s[0]] + ReplaceAll(s[1..], pat, rep)
  }

  /** A string in which the pattern does not occur is left unchanged. */
  lemma {:induction false} ReplaceAllNoOccurrence(s: string, pat: string, rep: string)
    requires |pat| > 0 && NoOccurrence(pat, s)
    ensures ReplaceAll(s, pat, rep) == s
  {
    if s != [] {
      assert !OccursAt(pat, s, 0);
      assert NoOccurrence(pat, s[1..]) by {
        forall i: nat | i <= |s[1..]|
          ensures !OccursAt(pat, s[1..], i)
        {
          assert !OccursAt(pat, s, i + 1);
          if i + |pat| <= |s[1..]| {
            assert s[1..][i..i + |pat|] == s[i + 1..i + 1 + |pat|];
          }
        }
      }
      ReplaceAllNoOccurrence(s[1..], pat, rep);
    }
  }

  /** A leading occurrence is replaced and a pattern-free rest is kept. */
  lemma ReplaceLeading(pat: string, rep: string, tail: string)
    requires |pat| > 0 && NoOccurrence(pat, tail)
    ensures ReplaceAll(pat + tail, pat, rep) == rep + tail
  {
    var s := pat + tail;
    assert s[..|pat|] == pat && s[|pat|..] == tail;
    ReplaceAllNoOccurrence(tail, pat, rep);
  }

  /** A string without the pattern's first character holds no occurrence of it. */
  lemma NoOccurrenceWithoutFirstChar(pat: string, s: string)
    requires |pat| > 0 && pat[0] !in s
    ensures NoOccurrence(pat, s)
  {
    forall i: nat | i <= |s|
      ensures !OccursAt(pat, s, i)
    {
      if i + |pat| <= |s| {
        assert s[i..i + |pat|][0] == s[i];
      }
    }
  }

  /** Joining two pattern-free strings by a character foreign to the pattern creates no occurrence. */
  lemma NoOccurrenceJoin(pat: string, a: string, c: char, b: string)
    requires c !in pat && NoOccurrence(pat, a) && NoOccurrence(pat, b)
    ensures NoOccurrence(pat, a + [c] + b)
  {
    var s := a + [c] + b;
    forall i: nat | i <= |s|
      ensures !OccursAt(pat, s, i)
    {
      if i + |pat| <= |s| {
        var w := s[i..i + |pat|];
        if i + |pat| <= |a| {
          assert !OccursAt(pat, a, i);
          assert w == a[i..i + |pat|];
        } else if i > |a| {
          assert !OccursAt(pat, b, i - |a| - 1);
          assert w == b[i - |a| - 1..i - |a| - 1 + |pat|];
        } else {
          assert w[|a| - i] == c;
        }
      }
    }
  }
}
