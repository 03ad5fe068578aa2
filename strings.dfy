/**
 * The few JavaScript string operations the components rely on, over
 * `string` (a sequence of Unicode scalar values):
 * `String.prototype.trim`, `length` (counted in UTF-16 code units),
 * and `split` on a one-character separator, with `join` as its inverse.
 */
module Strings {

  import opened Wrappers

  // ---------------------------------------------------------------------------
  // trim
  // ---------------------------------------------------------------------------

  /**
   * The code points `String.prototype.trim` strips: ECMA-262's WhiteSpace
   * (tab, vertical tab, form feed, ZWNBSP and every space separator of
   * category Zs) and LineTerminator (LF, CR, LS, PS).
   */
  predicate IsJsSpace(c: char) {
    var n := c as int;
    || n == 0x09 || n == 0x0B || n == 0x0C || n == 0xFEFF
    || n == 0x20 || n == 0xA0 || n == 0x1680 || (0x2000 <= n <= 0x200A)
    || n == 0x202F || n == 0x205F || n == 0x3000
    || n == 0x0A || n == 0x0D || n == 0x2028 || n == 0x2029
  }

  /** Every character of `s` is one that trim strips. */
  predicate AllSpace(s: string) {
    forall i :: 0 <= i < |s| ==> IsJsSpace(s[i])
  }

  /** Neither end of `s` is a character that trim strips. */
  predicate IsTrimmed(s: string) {
    s == [] || (!IsJsSpace(s[0]) && !IsJsSpace(s[|s| - 1]))
  }

  /** `s` with its leading white space removed: the longest suffix that does not start with a space. */
  function TrimStart(s: string): (r: string)
    ensures |r| <= |s| && r == s[|s| - |r|..]
    ensures AllSpace(s[..|s| - |r|])
    ensures r == [] || !IsJsSpace(r[0])
  {
    if s != [] && IsJsSpace(s[0]) then TrimStart(s[1..]) else s
  }

  /** `s` with its trailing white space removed: the longest prefix that does not end with a space. */
  function TrimEnd(s: string): (r: string)
    ensures |r| <= |s| && r == s[..|r|]
    ensures AllSpace(s[|r|..])
    ensures r == [] || !IsJsSpace(r[|r| - 1])
  {
    if s != [] && IsJsSpace(s[|s| - 1]) then TrimEnd(s[..|s| - 1]) else s
  }

  /** `String.prototype.trim`: white space stripped from both ends. */
  function Trim(s: string): (r: string)
    ensures IsTrimmed(r)
  {
    var t := TrimStart(s);
    var r := TrimEnd(t);
    assert r != [] ==> r[0] == t[0];
    r
  }

  /** Trim cuts `s` into white space, a trimmed middle, and white space, and returns the middle. */
  lemma TrimSplits(s: string)
    ensures exists i, j :: 0 <= i <= j <= |s| && Trim(s) == s[i..j] && AllSpace(s[..i]) && AllSpace(s[j..])
  {
    var t := TrimStart(s);
    var r := TrimEnd(t);
    var i := |s| - |t|;
    var j := i + |r|;
    assert t == s[i..];
    assert s[i..j] == t[..|r|] == r;
    assert s[j..] == t[|r|..];
    assert Trim(s) == s[i..j] && AllSpace(s[..i]) && AllSpace(s[j..]);
  }

  /**
   * Trim's result is determined by the decomposition: whenever `s` is white
   * space, a trimmed middle `m`, and white space, trim gives back `m`.
   */
  lemma {:induction false} TrimUnique(p: string, m: string, q: string)
    requires AllSpace(p) && AllSpace(q) && IsTrimmed(m)
    ensures Trim(p + m + q) == m
  {
    if m == [] {
      assert p + m + q == (p + q) + [];
      TrimStartSpace(p + q, []);
    } else {
      assert p + m + q == p + (m + q);
      TrimStartSpace(p, m + q);
      TrimEndUnique(m, q);
    }
  }

  /** Leading white space followed by a non-space (or nothing) is all that TrimStart drops. */
  lemma {:induction false} TrimStartSpace(p: string, rest: string)
    requires AllSpace(p) && (rest == [] || !IsJsSpace(rest[0]))
    ensures TrimStart(p + rest) == rest
  {
    if p != [] {
      assert (p + rest)[1..] == p[1..] + rest;
      TrimStartSpace(p[1..], rest);
    } else {
      assert p + rest == rest;
    }
  }

  lemma {:induction false} TrimEndUnique(m: string, q: string)
    requires AllSpace(q) && IsTrimmed(m)
    ensures TrimEnd(m + q) == m
    decreases |q|
  {
    var s := m + q;
    if q != [] {
      assert s[..|s| - 1] == m + q[..|q| - 1];
      TrimEndUnique(m, q[..|q| - 1]);
    } else {
      assert s == m;
      if m != [] {
        assert !IsJsSpace(s[|s| - 1]);
      }
    }
  }

  /** Trimming twice is trimming once. */
  lemma TrimIdempotent(s: string)
    ensures Trim(Trim(s)) == Trim(s)
  {
    TrimSplits(s);
    var m := Trim(s);
    assert m == [] + m + [];
    TrimUnique([], m, []);
  }

  // ---------------------------------------------------------------------------
  // length
  // ---------------------------------------------------------------------------

  /**
   * JavaScript's `length`: the number of UTF-16 code units, so a code point
   * outside the Basic Multilingual Plane counts twice.
   */
  function Utf16Length(s: string): (n: nat)
    ensures |s| <= n <= 2 * |s|
  {
    if s == [] then 0 else (if s[0] as int >= 0x10000 then 2 else 1) + Utf16Length(s[1..])
  }

  /** The length of a concatenation is the sum of the lengths. */
  lemma {:induction false} Utf16LengthAppend(a: string, b: string)
    ensures Utf16Length(a + b) == Utf16Length(a) + Utf16Length(b)
    decreases |a|
  {
    if a == [] {
      assert a + b == b;
    } else {
      assert (a + b)[0] == a[0] && (a + b)[1..] == a[1..] + b;
      Utf16LengthAppend(a[1..], b);
    }
  }

  /** `length` counts characters exactly when every character lies in the Basic Multilingual Plane. */
  lemma {:induction false} Utf16LengthBmp(s: string)
    ensures Utf16Length(s) == |s| <==> forall i :: 0 <= i < |s| ==> s[i] as int < 0x10000
    decreases |s|
  {
    if s != [] {
      Utf16LengthBmp(s[1..]);
      if forall i :: 0 <= i < |s| ==> s[i] as int < 0x10000 {
        assert forall i :: 0 <= i < |s[1..]| ==> s[1..][i] == s[i + 1];
      } else {
        var i :| 0 <= i < |s| && s[i] as int >= 0x10000;
        if i > 0 {
          assert s[1..][i - 1] == s[i];
        }
      }
    }
  }

  // ---------------------------------------------------------------------------
  // split and join on a one-character separator
  // ---------------------------------------------------------------------------

  /**
   * `s.split(sep)` for a one-character `sep`: the pieces of `s` between
   * occurrences of `sep`, always at least one (the empty string gives `[""]`).
   */
  function Split(s: string, sep: char): (r: seq<string>)
    ensures |r| >= 1
    ensures forall k :: 0 <= k < |r| ==> sep !in r[k]
  {
    if s == [] then [[]]
    else
      var rest := Split(s[1..], sep);
      if s[0] == sep then [[]] + rest else [[s[0]] + rest[0]] + rest[1..]
  }

  /** `pieces.join(sep)`. */
  function Join(pieces: seq<string>, sep: char): string
    requires |pieces| >= 1
  {
    if |pieces| == 1 then pieces[0] else pieces[0] + [sep] + Join(pieces[1..], sep)
  }

  /** Joining one more piece in front. */
  lemma JoinCons(head: string, rest: seq<string>, sep: char)
    requires |rest| >= 1
    ensures Join([head] + rest, sep) == head + [sep] + Join(rest, sep)
  {
    assert ([head] + rest)[1..] == rest;
  }

  /** A character occurs in neither part exactly when it does not occur in their concatenation. */
  lemma NotInAppend(a: string, b: string, c: char)
    ensures c !in a + b <==> c !in a && c !in b
  {
    if c in a {
      var k :| 0 <= k < |a| && a[k] == c;
      assert (a + b)[k] == c;
    }
    if c in b {
      var k :| 0 <= k < |b| && b[k] == c;
      assert (a + b)[|a| + k] == c;
    }
  }

  /** Join of four pieces, written out. */
  lemma JoinFour(a: string, b: string, c: string, d: string, sep: char)
    ensures Join([a, b, c, d], sep) == a + [sep] + b + [sep] + c + [sep] + d
  {
    JoinCons(c, [d], sep);
    JoinCons(b, [c, d], sep);
    JoinCons(a, [b, c, d], sep);
    assert [a, b, c, d] == [a] + [b, c, d];
  }

  /** Joining two non-empty lists is joining each and putting the separator between. */
  lemma {:induction false} JoinAppend(p: seq<string>, q: seq<string>, sep: char)
    requires |p| >= 1 && |q| >= 1
    ensures Join(p + q, sep) == Join(p, sep) + [sep] + Join(q, sep)
    decreases |p|
  {
    if |p| == 1 {
      assert p + q == [p[0]] + q;
      JoinCons(p[0], q, sep);
    } else {
      var rest := p[1..];
      assert p == [p[0]] + rest;
      assert p + q == [p[0]] + (rest + q);
      JoinCons(p[0], rest + q, sep);
      JoinAppend(rest, q, sep);
      JoinCons(p[0], rest, sep);
    }
  }

  /** Join of eight pieces, written out. */
  lemma JoinEight(a: string, b: string, c: string, d: string, e: string, f: string, g: string, h: string, sep: char)
    ensures Join([a, b, c, d, e, f, g, h], sep)
      == a + [sep] + b + [sep] + c + [sep] + d + [sep] + e + [sep] + f + [sep] + g + [sep] + h
  {
    assert [a, b, c, d, e, f, g, h] == [a, b, c, d] + [e, f, g, h];
    JoinAppend([a, b, c, d], [e, f, g, h], sep);
    JoinFour(a, b, c, d, sep);
    JoinFour(e, f, g, h, sep);
  }

  /** A string without the separator is a single piece. */
  lemma {:induction false} SplitNoSeparator(s: string, sep: char)
    requires sep !in s
    ensures Split(s, sep) == [s]
  {
    if s != [] {
      assert sep !in s[1..] by {
        forall k | 0 <= k < |s[1..]| ensures s[1..][k] != sep {
          assert s[1..][k] == s[k + 1];
        }
      }
      SplitNoSeparator(s[1..], sep);
      assert [s[0]] + s[1..] == s;
    }
  }

  /** Splitting at the first separator: a separator-free head, then the split of what follows. */
  lemma {:induction false} SplitFirst(head: string, sep: char, tail: string)
    requires sep !in head
    ensures Split(head + [sep] + tail, sep) == [head] + Split(tail, sep)
  {
    var s := head + [sep] + tail;
    if head == [] {
      assert s[1..] == tail;
    } else {
      assert s[1..] == head[1..] + [sep] + tail;
      SplitFirst(head[1..], sep, tail);
      assert [head[0]] + head[1..] == head;
    }
  }

  /** Joining the pieces gives back the string. */
  lemma {:induction false} JoinSplit(s: string, sep: char)
    ensures Join(Split(s, sep), sep) == s
  {
    if s != [] {
      JoinSplit(s[1..], sep);
      var rest := Split(s[1..], sep);
      if s[0] != sep {
        var r := Split(s, sep);
        assert r[1..] == rest[1..];
        if |rest| > 1 {
          assert rest == [rest[0]] + rest[1..];
          assert Join(rest, sep) == rest[0] + [sep] + Join(rest[1..], sep);
        }
      }
    }
  }

  /** Splitting a join of separator-free pieces gives back the pieces. */
  lemma {:induction false} SplitJoin(pieces: seq<string>, sep: char)
    requires |pieces| >= 1
    requires forall k :: 0 <= k < |pieces| ==> sep !in pieces[k]
    ensures Split(Join(pieces, sep), sep) == pieces
  {
    if |pieces| == 1 {
      SplitNoSeparator(pieces[0], sep);
    } else {
      SplitJoin(pieces[1..], sep);
      SplitFirst(pieces[0], sep, Join(pieces[1..], sep));
      assert pieces == [pieces[0]] + pieces[1..];
    }
  }

  /** There is more than one piece exactly when the separator occurs. */
  lemma {:induction false} SplitSingle(s: string, sep: char)
    ensures |Split(s, sep)| == 1 <==> sep !in s
  {
    if s != [] {
      SplitSingle(s[1..], sep);
      assert s == [s[0]] + s[1..];
      assert sep in s[1..] ==> sep in s;
      if s[0] != sep {
        assert sep in s ==> sep in s[1..] by {
          if sep in s {
            var k :| 0 <= k < |s| && s[k] == sep;
            assert s[1..][k - 1] == sep;
          }
        }
      }
    }
  }

  /** `s.split(sep)[k]`: the k-th piece, or `undefined` (None) past the end. */
  function PieceAt(s: string, sep: char, k: nat): (r: Option<string>)
    ensures r.Some? <==> k < |Split(s, sep)|
    ensures r.Some? ==> sep !in r.value
  {
    var pieces := Split(s, sep);
    if k < |pieces| then Some(pieces[k]) else None
  }

}
