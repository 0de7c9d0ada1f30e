/** The JavaScript string operations the song and chord screens use:
    `trim`, `split` on one character, `join`, ASCII `toLowerCase` and `includes`. */
module Strings {

  /** The characters `String.prototype.trim` removes: the ECMAScript
      WhiteSpace and LineTerminator code points. */
  predicate IsWhitespace(c: char) {
    c == ' ' || c == '\t' || c == '\n' || c == '\r' || c == '\U{000B}' || c == '\U{000C}'
    || c == '\U{00A0}' || c == '\U{1680}' || ('\U{2000}' <= c <= '\U{200A}')
    || c == '\U{2028}' || c == '\U{2029}' || c == '\U{202F}' || c == '\U{205F}'
    || c == '\U{3000}' || c == '\U{FEFF}'
  }

  /** Neither end of `s` is whitespace. */
  predicate IsTrimmed(s: string) {
    s == [] || (!IsWhitespace(s[0]) && !IsWhitespace(s[|s| - 1]))
  }

  function TrimStart(s: string): (r: string)
    ensures r == [] || !IsWhitespace(r[0])
    ensures |r| <= |s| && forall c :: c in r ==> c in s
    ensures r != [] ==> r[|r| - 1] == s[|s| - 1]
  {
    if s != [] && IsWhitespace(s[0]) then TrimStart(s[1..]) else s
  }

  function TrimEnd(s: string): (r: string)
    ensures r == [] || !IsWhitespace(r[|r| - 1])
    ensures |r| <= |s| && forall c :: c in r ==> c in s
    ensures r != [] ==> r[0] == s[0]
  {
    if s != [] && IsWhitespace(s[|s| - 1]) then TrimEnd(s[..|s| - 1]) else s
  }

  /** `s.trim()`: a trimmed piece of `s` with only whitespace cut off either end. */
  function Trim(s: string): (r: string)
    ensures IsTrimmed(r)
    ensures |r| <= |s| && forall c :: c in r ==> c in s
  {
    TrimEnd(TrimStart(s))
  }

  /** `TrimStart` cuts off a run of whitespace at the front and nothing else. */
  lemma {:induction false} TrimStartSlice(s: string) returns (i: nat)
    ensures i <= |s| && TrimStart(s) == s[i..]
    ensures forall k :: 0 <= k < i ==> IsWhitespace(s[k])
  {
    if s != [] && IsWhitespace(s[0]) {
      var i' := TrimStartSlice(s[1..]);
      i := i' + 1;
      assert s[1..][i'..] == s[i..];
      forall k | 0 <= k < i ensures IsWhitespace(s[k]) {
        if k > 0 {
          assert s[k] == s[1..][k - 1];
        }
      }
    } else {
      i := 0;
    }
  }

  /** `TrimEnd` cuts off a run of whitespace at the back and nothing else. */
  lemma {:induction false} TrimEndSlice(s: string) returns (j: nat)
    ensures j <= |s| && TrimEnd(s) == s[..j]
    ensures forall k :: j <= k < |s| ==> IsWhitespace(s[k])
  {
    if s != [] && IsWhitespace(s[|s| - 1]) {
      var t := s[..|s| - 1];
      j := TrimEndSlice(t);
      assert t[..j] == s[..j];
      forall k | j <= k < |s| ensures IsWhitespace(s[k]) {
        if k < |s| - 1 {
          assert s[k] == t[k];
        }
      }
    } else {
      j := |s|;
    }
  }

  /** `trim` removes exactly the leading and the trailing whitespace: the
      result is the piece of `s` between a whitespace prefix and a whitespace
      suffix, and it neither starts nor ends with whitespace. */
  lemma TrimIsSlice(s: string)
    ensures exists i, j ::
      && 0 <= i <= j <= |s| && Trim(s) == s[i..j]
      && (forall k :: 0 <= k < i ==> IsWhitespace(s[k]))
      && (forall k :: j <= k < |s| ==> IsWhitespace(s[k]))
  {
    var i := TrimStartSlice(s);
    var t := s[i..];
    var j := TrimEndSlice(t);
    assert Trim(s) == s[i..i + j];
    forall k | i + j <= k < |s| ensures IsWhitespace(s[k]) {
      assert s[k] == t[k - i];
    }
  }

  /** Trimming a string that is already trimmed changes nothing. */
  lemma TrimOfTrimmed(s: string)
    requires IsTrimmed(s)
    ensures Trim(s) == s
  {
  }

  /** A blank in front of a trimmed string is cut off again by `trim`. */
  lemma TrimLeadingBlank(s: string)
    requires IsTrimmed(s)
    ensures Trim([' '] + s) == s
  {
    assert ([' '] + s)[1..] == s;
    assert TrimStart([' '] + s) == TrimStart(s) == s;
    assert TrimEnd(s) == s;
  }

  /** `s.split(sep)` for a one-character separator: the pieces between
      separators, in order; the empty string splits into one empty piece. */
  function Split(s: string, sep: char): (r: seq<string>)
    ensures |r| >= 1
    ensures forall i :: 0 <= i < |r| ==> sep !in r[i]
  {
    if s == [] then [""]
    else
      var rest := Split(s[1..], sep);
      if s[0] == sep then [""] + rest
      else [[s[0]] + rest[0]] + rest[1..]
  }

  /** `parts.join(sep)`. */
  function Join(parts: seq<string>, sep: string): string {
    if parts == [] then ""
    else if |parts| == 1 then parts[0]
    else parts[0] + sep + Join(parts[1..], sep)
  }

  /** Joining the pieces of a split with the separator gives the text back. */
  lemma {:induction false} JoinOfSplit(s: string, sep: char)
    ensures Join(Split(s, sep), [sep]) == s
  {
    if s != [] {
      var rest := Split(s[1..], sep);
      JoinOfSplit(s[1..], sep);
      assert s == [s[0]] + s[1..];
      if s[0] == sep {
        assert ([""] + rest)[1..] == rest;
      } else if |rest| > 1 {
        var r := [[s[0]] + rest[0]] + rest[1..];
        assert r[1..] == rest[1..];
        assert Join(rest, [sep]) == rest[0] + [sep] + Join(rest[1..], [sep]);
        assert Join(r, [sep]) == ([s[0]] + rest[0]) + [sep] + Join(rest[1..], [sep]);
      }
    }
  }

  /** Splitting text without the separator gives the text back as the only piece. */
  lemma {:induction false} SplitWithoutSeparator(s: string, sep: char)
    requires sep !in s
    ensures Split(s, sep) == [s]
  {
    if s != [] {
      SplitWithoutSeparator(s[1..], sep);
      assert [s[0]] + s[1..] == s;
    }
  }

  /** A separator-free prefix followed by a separator splits off as the first piece. */
  lemma {:induction false} SplitAfterPiece(a: string, sep: char, b: string)
    requires sep !in a
    ensures Split(a + [sep] + b, sep) == [a] + Split(b, sep)
  {
    if a == [] {
      assert [sep] + b == [] + [sep] + b;
      assert ([sep] + b)[1..] == b;
    } else {
      var s := a + [sep] + b;
      assert s[1..] == a[1..] + [sep] + b;
      SplitAfterPiece(a[1..], sep, b);
      assert [a[0]] + a[1..] == a;
    }
  }

  /** Joining separator-free pieces with `sep` followed by `pad` and splitting
      at `sep` gives back the pieces, each after the first led by `pad`
      (the first one led by the prefix `p`). */
  lemma {:induction false} SplitOfJoin(p: string, parts: seq<string>, sep: char, pad: string)
    requires |parts| >= 1
    requires sep !in p && sep !in pad
    requires forall i :: 0 <= i < |parts| ==> sep !in parts[i]
    ensures |Split(p + Join(parts, [sep] + pad), sep)| == |parts|
    ensures Split(p + Join(parts, [sep] + pad), sep)[0] == p + parts[0]
    ensures forall i :: 1 <= i < |parts| ==> Split(p + Join(parts, [sep] + pad), sep)[i] == pad + parts[i]
    decreases |parts|
  {
    var d := [sep] + pad;
    if |parts| == 1 {
      assert sep !in p + parts[0];
      SplitWithoutSeparator(p + parts[0], sep);
    } else {
      var tail := Join(parts[1..], d);
      assert p + Join(parts, d) == (p + parts[0]) + [sep] + (pad + tail);
      assert sep !in p + parts[0];
      SplitAfterPiece(p + parts[0], sep, pad + tail);
      SplitOfJoin(pad, parts[1..], sep, pad);
    }
  }

  /** ASCII `toLowerCase`: `A`..`Z` become `a`..`z`. */
  function ToLower(s: string): (r: string)
    ensures |r| == |s|
    ensures forall i :: 0 <= i < |s| ==> r[i] == LowerChar(s[i])
  {
    if s == [] then [] else [LowerChar(s[0])] + ToLower(s[1..])
  }

  function LowerChar(c: char): char {
    if 'A' <= c <= 'Z' then (c as int - 'A' as int + 'a' as int) as char else c
  }

  /** `hay.includes(needle)`: `needle` occurs as a contiguous piece of `hay`. */
  predicate Includes(hay: string, needle: string) {
    (|needle| <= |hay| && hay[..|needle|] == needle)
    || (hay != [] && Includes(hay[1..], needle))
  }

  /** `needle` occurs in `hay` starting at position `k`. */
  predicate OccursAt(hay: string, needle: string, k: int) {
    0 <= k && k + |needle| <= |hay| && hay[k..k + |needle|] == needle
  }

  /** `Includes` holds exactly when the needle starts at some position of the hay. */
  lemma {:induction false} IncludesAt(hay: string, needle: string)
    ensures Includes(hay, needle) <==> exists k :: OccursAt(hay, needle, k)
  {
    if hay != [] {
      IncludesAt(hay[1..], needle);
      if |needle| <= |hay| && hay[..|needle|] == needle {
        assert OccursAt(hay, needle, 0);
      }
      if Includes(hay[1..], needle) {
        var k :| OccursAt(hay[1..], needle, k);
        assert OccursAt(hay, needle, k + 1);
      }
      if exists k :: OccursAt(hay, needle, k) {
        var k :| OccursAt(hay, needle, k);
        if k > 0 {
          assert OccursAt(hay[1..], needle, k - 1);
        } else {
          assert hay[..|needle|] == hay[k..k + |needle|];
        }
      }
    } else {
      if needle == [] {
        assert OccursAt(hay, needle, 0);
      }
      if exists k :: OccursAt(hay, needle, k) {
        var k :| OccursAt(hay, needle, k);
        assert |needle| == 0;
      }
    }
  }
}
