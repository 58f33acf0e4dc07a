/**
 * The JavaScript string operations the application relies on: trim,
 * toLowerCase, includes, startsWith and split on a one-character separator.
 */
module Text {

  /**
   * The code points String.prototype.trim removes: the ECMAScript
   * WhiteSpace (tab, vertical tab, form feed, space, no-break space, the
   * byte order mark and the other space separators) and LineTerminator
   * (line feed, carriage return, line and paragraph separator) characters.
   */
  predicate IsSpace(c: char) {
    || c == '\t' || c == '\n' || c == '\U{000B}' || c == '\U{000C}' || c == '\r'
    || c == ' ' || c == '\U{00A0}' || c == '\U{1680}' || ('\U{2000}' <= c <= '\U{200A}')
    || c == '\U{2028}' || c == '\U{2029}' || c == '\U{202F}' || c == '\U{205F}'
    || c == '\U{3000}' || c == '\U{FEFF}'
  }

  /** Drops the leading white space: the result is a suffix of `s`. */
  function TrimStart(s: string): (r: string)
    ensures |r| <= |s| && r == s[|s| - |r|..]
    ensures forall i :: 0 <= i < |s| - |r| ==> IsSpace(s[i])
    ensures r == [] || !IsSpace(r[0])
  {
    if s != [] && IsSpace(s[0]) then TrimStart(s[1..]) else s
  }

  /** Drops the trailing white space: the result is a prefix of `s`. */
  function TrimEnd(s: string): (r: string)
    ensures |r| <= |s| && r == s[..|r|]
    ensures forall i :: |r| <= i < |s| ==> IsSpace(s[i])
    ensures r == [] || !IsSpace(r[|r| - 1])
  {
    if s != [] && IsSpace(s[|s| - 1]) then TrimEnd(s[..|s| - 1]) else s
  }

  /**
   * String.prototype.trim. The result has no white space at either end,
   * and it is empty exactly when `s` holds nothing but white space.
   */
  function Trim(s: string): (r: string)
    ensures |r| <= |s|
    ensures r == [] || (!IsSpace(r[0]) && !IsSpace(r[|r| - 1]))
    ensures r == [] <==> forall i :: 0 <= i < |s| ==> IsSpace(s[i])
  {
    var t := TrimStart(s);
    var r := TrimEnd(t);
    assert r != [] ==> r[0] == t[0];
    r
  }

  /** Trimming twice is trimming once. */
  lemma TrimIdempotent(s: string)
    ensures Trim(Trim(s)) == Trim(s)
  {
    var r := Trim(s);
    assert TrimStart(r) == r;
    assert TrimEnd(r) == r;
  }

  /** ASCII case mapping of String.prototype.toLowerCase. */
  function LowerChar(c: char): char {
    if 'A' <= c <= 'Z' then (c as int + 32) as char else c
  }

  /** String.prototype.toLowerCase, character by character. */
  function ToLower(s: string): (r: string)
    ensures |r| == |s|
    ensures forall i :: 0 <= i < |s| ==> r[i] == LowerChar(s[i])
  {
    if s == [] then [] else [LowerChar(s[0])] + ToLower(s[1..])
  }

  /** String.prototype.startsWith. */
  predicate StartsWith(s: string, prefix: string) {
    |prefix| <= |s| && s[..|prefix|] == prefix
  }

  /** String.prototype.endsWith. */
  predicate EndsWith(s: string, suffix: string) {
    |suffix| <= |s| && s[|s| - |suffix|..] == suffix
  }

  /** String.prototype.includes: `t` occurs somewhere in `s`. */
  predicate Contains(s: string, t: string)
    decreases |s|
  {
    StartsWith(s, t) || (s != [] && Contains(s[1..], t))
  }

  /** Every string includes the empty string. */
  lemma ContainsEmpty(s: string)
    ensures Contains(s, "")
  {
  }

  /** `t` occurs in `s` at index `i`. */
  predicate OccursAt(s: string, t: string, i: nat) {
    i + |t| <= |s| && s[i..i + |t|] == t
  }

  /** `Contains` holds exactly when there is an index at which `t` occurs. */
  lemma {:induction false} ContainsIffOccurs(s: string, t: string)
    ensures Contains(s, t) <==> exists i: nat :: OccursAt(s, t, i)
    decreases |s|
  {
    if StartsWith(s, t) {
      assert OccursAt(s, t, 0);
    } else if s == [] {
      assert forall i: nat :: !OccursAt(s, t, i);
    } else {
      ContainsIffOccurs(s[1..], t);
      if Contains(s[1..], t) {
        var i: nat :| OccursAt(s[1..], t, i);
        assert s[1..][i..i + |t|] == s[i + 1..i + 1 + |t|];
        assert OccursAt(s, t, i + 1);
      } else {
        forall i: nat ensures !OccursAt(s, t, i) {
          if i == 0 && |t| <= |s| {
            assert s[i..i + |t|] == s[..|t|];
          } else if 0 < i && i + |t| <= |s| {
            assert s[1..][i - 1..i - 1 + |t|] == s[i..i + |t|];
            assert !OccursAt(s[1..], t, i - 1);
          }
        }
      }
    }
  }

  /** Number of occurrences of `c` in `s`. */
  function Count(s: string, c: char): nat {
    if s == [] then 0 else (if s[0] == c then 1 else 0) + Count(s[1..], c)
  }

  /**
   * String.prototype.split with a one-character separator: the pieces
   * between separators, one more piece than there are separators, and no
   * piece contains the separator. The empty string splits into [""].
   */
  function Split(s: string, sep: char): (r: seq<string>)
    ensures |r| == Count(s, sep) + 1
    ensures forall i :: 0 <= i < |r| ==> sep !in r[i]
    decreases |s|
  {
    if s == [] then [""]
    else if s[0] == sep then [""] + Split(s[1..], sep)
    else
      var rest := Split(s[1..], sep);
      [[s[0]] + rest[0]] + rest[1..]
  }

  /** Array.prototype.join with a one-character separator. */
  function Join(pieces: seq<string>, sep: char): string
    requires pieces != []
  {
    if |pieces| == 1 then pieces[0] else pieces[0] + [sep] + Join(pieces[1..], sep)
  }

  /** Joining the pieces of a split gives back the original string. */
  lemma {:induction false} JoinSplit(s: string, sep: char)
    ensures Join(Split(s, sep), sep) == s
    decreases |s|
  {
    if s == [] {
    } else if s[0] == sep {
      JoinSplit(s[1..], sep);
      assert [sep] + s[1..] == s;
    } else {
      var rest := Split(s[1..], sep);
      JoinSplit(s[1..], sep);
      var pieces := [[s[0]] + rest[0]] + rest[1..];
      assert pieces[1..] == rest[1..];
      if |rest| == 1 {
        assert Join(pieces, sep) == [s[0]] + rest[0];
      } else {
        assert Join(rest, sep) == rest[0] + [sep] + Join(rest[1..], sep);
        assert Join(pieces, sep) == [s[0]] + rest[0] + [sep] + Join(rest[1..], sep);
      }
      assert [s[0]] + s[1..] == s;
    }
  }

  /** `pieces` are separator-free and join back into `s`: what splitting `s` must give. */
  predicate PiecesOf(pieces: seq<string>, s: string, sep: char) {
    && pieces != []
    && Join(pieces, sep) == s
    && forall i :: 0 <= i < |pieces| ==> sep !in pieces[i]
  }

  /** Split gives the pieces of `s`, and they are the only ones. */
  lemma {:induction false} SplitIsUniquePieces(pieces: seq<string>, s: string, sep: char)
    ensures PiecesOf(Split(s, sep), s, sep)
    ensures PiecesOf(pieces, s, sep) ==> pieces == Split(s, sep)
    decreases |pieces|
  {
    JoinSplit(s, sep);
    if PiecesOf(pieces, s, sep) {
      if |pieces| == 1 {
        SplitWithoutSeparator(s, sep);
      } else {
        var tail := Join(pieces[1..], sep);
        assert PiecesOf(pieces[1..], tail, sep) by {
          forall i | 0 <= i < |pieces[1..]| ensures sep !in pieces[1..][i] {
            assert pieces[1..][i] == pieces[i + 1];
          }
        }
        SplitIsUniquePieces(pieces[1..], tail, sep);
        SplitAfterPiece(pieces[0], sep, tail);
        assert pieces == [pieces[0]] + pieces[1..];
      }
    }
  }

  /** A string without the separator is a single piece. */
  lemma {:induction false} SplitWithoutSeparator(s: string, sep: char)
    requires sep !in s
    ensures Split(s, sep) == [s]
    decreases |s|
  {
    if s != [] {
      assert sep !in s[1..] by {
        forall i | 0 <= i < |s[1..]| ensures s[1..][i] != sep { assert s[1..][i] == s[i + 1]; }
      }
      SplitWithoutSeparator(s[1..], sep);
      assert [s[0]] + s[1..] == s;
    }
  }

  /**
   * The first piece of a split is the longest prefix without the
   * separator: when it is shorter than `s`, a separator follows it.
   */
  lemma {:induction false} FirstPiece(s: string, sep: char)
    ensures var first := Split(s, sep)[0];
      && StartsWith(s, first)
      && (|first| < |s| ==> s[|first|] == sep)
    decreases |s|
  {
    if s != [] && s[0] != sep {
      FirstPiece(s[1..], sep);
      var rest := Split(s[1..], sep);
      assert s[1..][..|rest[0]|] == s[1..|rest[0]| + 1];
      assert s[..|rest[0]| + 1] == [s[0]] + s[1..|rest[0]| + 1];
    }
  }

  /**
   * The last piece of a split (what Array.prototype.pop returns) is a
   * suffix of `s`; when it is shorter than `s`, a separator precedes it.
   */
  lemma {:induction false} LastPiece(s: string, sep: char)
    ensures var pieces := Split(s, sep); var last := pieces[|pieces| - 1];
      && EndsWith(s, last)
      && |last| + |pieces| - 1 <= |s|
      && (|last| < |s| ==> s[|s| - |last| - 1] == sep)
    decreases |s|
  {
    if s != [] {
      var tail := s[1..];
      var rest := Split(tail, sep);
      LastPiece(tail, sep);
      var pieces := Split(s, sep);
      if s[0] != sep && |rest| == 1 {
        JoinSplit(tail, sep);
        assert pieces == [[s[0]] + tail];
        assert [s[0]] + tail == s;
      } else {
        var last := rest[|rest| - 1];
        SplitKeepsLast(s, sep);
        assert tail[|tail| - |last|..] == s[|s| - |last|..];
        if |last| < |tail| {
          assert s[|s| - |last| - 1] == tail[|tail| - |last| - 1];
        }
      }
    }
  }

  /**
   * Unless `s` is its first piece, the pieces of `s` end as the pieces of
   * its tail do, and there is at most one more of them.
   */
  lemma SplitKeepsLast(s: string, sep: char)
    requires s != [] && (s[0] == sep || |Split(s[1..], sep)| > 1)
    ensures var pieces := Split(s, sep); var rest := Split(s[1..], sep);
      && pieces[|pieces| - 1] == rest[|rest| - 1]
      && |rest| <= |pieces| <= |rest| + 1
  {
  }

  /**
   * A string holding the separator splits into at least two pieces, and
   * the second piece sits between the first separator and the next one (or
   * the end of the string).
   */
  lemma SecondPiece(s: string, sep: char)
    requires sep in s
    ensures |Split(s, sep)| > 1
    ensures exists a, b :: SeparatedAt(s, sep, a, Split(s, sep)[1], b)
  {
    SplitAtFirst(s, sep);
    var first := Split(s, sep)[0];
    var rest := s[|first| + 1..];
    var second := Split(rest, sep)[0];
    var b := PieceThenRest(rest, sep);
    assert Split(s, sep)[1] == second;
    assert SeparatedAt(s, sep, first, second, b) by {
      assert s == first + [sep] + (second + b);
      assert first + [sep] + (second + b) == first + [sep] + second + b;
    }
  }

  /** The first piece of `s`, then what follows it: empty, or starting with the separator. */
  lemma PieceThenRest(s: string, sep: char) returns (b: string)
    ensures s == Split(s, sep)[0] + b
    ensures b == [] || b[0] == sep
  {
    var first := Split(s, sep)[0];
    FirstPiece(s, sep);
    b := s[|first|..];
    assert s[..|first|] == first;
  }

  /**
   * A string holding the separator is its first piece, the separator and
   * the rest, and its pieces are the first one followed by the rest's.
   */
  lemma SplitAtFirst(s: string, sep: char)
    requires sep in s
    ensures var first := Split(s, sep)[0];
      && |first| < |s|
      && s == first + [sep] + s[|first| + 1..]
      && Split(s, sep) == [first] + Split(s[|first| + 1..], sep)
  {
    var first := Split(s, sep)[0];
    assert sep !in first;
    FirstPiece(s, sep);
    assert |first| < |s| by {
      var j :| 0 <= j < |s| && s[j] == sep;
      assert s[..|first|] == first;
      assert forall i :: 0 <= i < |first| ==> s[i] != sep;
    }
    var rest := s[|first| + 1..];
    assert s == first + [sep] + rest by {
      assert s[..|first|] == first;
      assert s[|first|] == sep;
    }
    SplitAfterPiece(first, sep, rest);
  }

  /**
   * `s` is `a`, a separator, `piece` and `b`, where `a` holds no separator
   * and `b` is empty or starts with one: `piece` is the second piece.
   */
  predicate SeparatedAt(s: string, sep: char, a: string, piece: string, b: string) {
    sep !in a && s == a + [sep] + piece + b && (b == [] || b[0] == sep)
  }

  /** A string that lacks the first character of `t` does not include `t`. */
  lemma {:induction false} NotContainsFirstChar(s: string, t: string)
    requires t != [] && t[0] !in s
    ensures !Contains(s, t)
    decreases |s|
  {
    if s != [] {
      assert t[0] !in s[1..];
      NotContainsFirstChar(s[1..], t);
    }
  }

  /**
   * Splitting a string that starts with a separator-free piece followed by
   * the separator yields that piece, then the pieces of the rest.
   */
  lemma {:induction false} SplitAfterPiece(a: string, sep: char, b: string)
    requires sep !in a
    ensures Split(a + [sep] + b, sep) == [a] + Split(b, sep)
    decreases |a|
  {
    if a == [] {
      assert a + [sep] + b == [sep] + b;
      assert ([sep] + b)[1..] == b;
    } else {
      assert sep !in a[1..];
      SplitAfterPiece(a[1..], sep, b);
      var s := a + [sep] + b;
      assert s[0] == a[0];
      assert s[1..] == a[1..] + [sep] + b;
      assert [a[0]] + a[1..] == a;
    }
  }
}
