/**
 * The string operations the CSV loader relies on: `String.prototype.trim`
 * and `String.prototype.split` with a one-character separator, together with
 * `Array.prototype.join`, which is the inverse of the split.
 */
module Text {

  /** The characters `trim` removes: ECMAScript WhiteSpace and LineTerminator code points. */
  predicate IsJsWhitespace(c: char) {
    || c == '\t' || c == '\n' || c == '\U{000B}' || c == '\U{000C}' || c == '\r' || c == ' '
    || c == '\U{00A0}' || c == '\U{1680}' || ('\U{2000}' <= c <= '\U{200A}')
    || c == '\U{2028}' || c == '\U{2029}' || c == '\U{202F}' || c == '\U{205F}'
    || c == '\U{3000}' || c == '\U{FEFF}'
  }

  predicate AllWhitespace(s: string) {
    forall i :: 0 <= i < |s| ==> IsJsWhitespace(s[i])
  }

  /** Drops the leading whitespace: the result is a suffix of `s` that does not start with whitespace. */
  function TrimStart(s: string): (r: string)
    ensures |r| <= |s| && r == s[|s| - |r|..]
    ensures AllWhitespace(s[..|s| - |r|])
    ensures r != [] ==> !IsJsWhitespace(r[0])
  {
    if s != [] && IsJsWhitespace(s[0]) then
      var r := TrimStart(s[1..]);
      assert s[1..][..|s[1..]| - |r|] == s[1..|s| - |r|];
      r
    else s
  }

  /** Drops the trailing whitespace: the result is a prefix of `s` that does not end with whitespace. */
  function TrimEnd(s: string): (r: string)
    ensures |r| <= |s| && r == s[..|r|]
    ensures AllWhitespace(s[|r|..])
    ensures r != [] ==> !IsJsWhitespace(r[|r| - 1])
  {
    if s != [] && IsJsWhitespace(s[|s| - 1]) then
      var t := s[..|s| - 1];
      var r := TrimEnd(t);
      assert s[|r|..] == t[|r|..] + [s[|s| - 1]];
      assert forall i :: 0 <= i < |s[|r|..]| ==> IsJsWhitespace(s[|r|..][i]) by {
        forall i | 0 <= i < |s[|r|..]| ensures IsJsWhitespace(s[|r|..][i]) {
          if i < |t[|r|..]| { assert s[|r|..][i] == t[|r|..][i]; }
        }
      }
      r
    else s
  }

  /**
   * `text.trim()`: the longest infix of `s` with no whitespace at either end,
   * obtained by cutting whitespace only.
   */
  function Trim(s: string): (r: string)
    ensures exists i, j :: 0 <= i <= j <= |s| && r == s[i..j] && AllWhitespace(s[..i]) && AllWhitespace(s[j..])
    ensures r != [] ==> !IsJsWhitespace(r[0]) && !IsJsWhitespace(r[|r| - 1])
  {
    var t := TrimStart(s);
    var r := TrimEnd(t);
    TrimCuts(s, t, r);
    r
  }

  /**
   * Cutting leading whitespace from `s` to get `t`, then trailing whitespace
   * from `t` to get `r`, cuts whitespace only, at both ends of `s`.
   */
  lemma TrimCuts(s: string, t: string, r: string)
    requires |t| <= |s| && t == s[|s| - |t|..] && AllWhitespace(s[..|s| - |t|])
    requires t != [] ==> !IsJsWhitespace(t[0])
    requires |r| <= |t| && r == t[..|r|] && AllWhitespace(t[|r|..])
    requires r != [] ==> !IsJsWhitespace(r[|r| - 1])
    ensures var i, j := |s| - |t|, |s| - |t| + |r|;
      && 0 <= i <= j <= |s| && r == s[i..j] && AllWhitespace(s[..i]) && AllWhitespace(s[j..])
    ensures r != [] ==> !IsJsWhitespace(r[0]) && !IsJsWhitespace(r[|r| - 1])
  {
    var i, j := |s| - |t|, |s| - |t| + |r|;
    assert t == s[i..];
    assert r == t[..|r|];
    assert s[j..] == t[|r|..];
    if r != [] {
      assert r[0] == t[0];
    }
  }

  /** `parts.join(sep)`: the parts with one separator between neighbours. */
  function Join(parts: seq<string>, sep: char): (r: string)
  {
    if |parts| == 0 then []
    else if |parts| == 1 then parts[0]
    else parts[0] + [sep] + Join(parts[1..], sep)
  }

  /**
   * `s.split(sep)` for a one-character separator: the maximal separator-free
   * pieces between separators, at least one of them (`"".split(",")` is `[""]`).
   */
  function Split(s: string, sep: char): (r: seq<string>)
    ensures |r| >= 1
  {
    if s == [] then [[]]
    else if s[0] == sep then [[]] + Split(s[1..], sep)
    else
      var rest := Split(s[1..], sep);
      [[s[0]] + rest[0]] + rest[1..]
  }

  /** No piece of a split contains the separator. */
  lemma {:induction false} SplitSeparatorFree(s: string, sep: char)
    ensures forall i :: 0 <= i < |Split(s, sep)| ==> sep !in Split(s, sep)[i]
  {
    if s != [] {
      SplitSeparatorFree(s[1..], sep);
      var rest, r := Split(s[1..], sep), Split(s, sep);
      forall i | 0 <= i < |r| ensures sep !in r[i] {
        if s[0] == sep {
          if i > 0 { assert r[i] == rest[i - 1]; } else { assert r[0] == []; }
        } else if i == 0 {
          assert r[0] == [s[0]] + rest[0] && sep !in rest[0];
        } else {
          assert r[i] == rest[i] && sep !in rest[i];
        }
      }
    }
  }

  /** Joining undoes splitting: no character is lost or added. */
  lemma {:induction false} JoinSplit(s: string, sep: char)
    ensures Join(Split(s, sep), sep) == s
  {
    if s != [] {
      JoinSplit(s[1..], sep);
      var rest := Split(s[1..], sep);
      if s[0] != sep {
        var parts := Split(s, sep);
        assert parts[0] == [s[0]] + rest[0] && parts[1..] == rest[1..];
        if |rest| > 1 {
          assert Join(rest, sep) == rest[0] + [sep] + Join(rest[1..], sep);
        }
      }
      assert s == [s[0]] + s[1..];
    }
  }

  /**
   * The last piece of `s.split(sep)`: the tail of `s` after its last
   * separator, or all of `s` when it has none.
   */
  function LastField(s: string, sep: char): (t: string)
    ensures |t| <= |s| && t == s[|s| - |t|..]
    ensures sep !in t
    ensures |t| == |s| || s[|s| - |t| - 1] == sep
  {
    var parts := Split(s, sep);
    LastPieceIsTail(s, sep);
    parts[|parts| - 1]
  }

  /** The last piece of a split is a separator-free tail that follows a separator or starts the string. */
  lemma {:induction false} LastPieceIsTail(s: string, sep: char)
    ensures var parts := Split(s, sep); var t := parts[|parts| - 1];
      && |t| <= |s| && t == s[|s| - |t|..]
      && sep !in t
      && (|t| == |s| || s[|s| - |t| - 1] == sep)
      && (|parts| > 1 ==> |t| < |s|)
      && (|parts| == 1 ==> t == s)
  {
    if s != [] {
      LastPieceIsTail(s[1..], sep);
      var rest, parts := Split(s[1..], sep), Split(s, sep);
      var t := rest[|rest| - 1];
      assert s[1..][|s[1..]| - |t|..] == s[|s| - |t|..];
      if s[0] == sep {
        assert parts == [[]] + rest;
        assert parts[|parts| - 1] == t;
      } else if |rest| == 1 {
        assert parts == [[s[0]] + t];
        assert [s[0]] + s[1..] == s;
      } else {
        assert parts == [[s[0]] + rest[0]] + rest[1..];
        assert parts[|parts| - 1] == t;
      }
    }
  }

  /** A piece followed by a separator splits off as exactly that piece. */
  lemma {:induction false} SplitAfterPiece(p: string, rest: string, sep: char)
    requires sep !in p
    ensures Split(p + [sep] + rest, sep) == [p] + Split(rest, sep)
  {
    if p != [] {
      var s := p + [sep] + rest;
      assert s[0] == p[0] && s[1..] == p[1..] + [sep] + rest;
      SplitAfterPiece(p[1..], rest, sep);
      assert [p[0]] + p[1..] == p;
    } else {
      assert p + [sep] + rest == [sep] + rest;
    }
  }

  /** A separator-free string is a single piece. */
  lemma {:induction false} SplitPiece(p: string, sep: char)
    requires sep !in p
    ensures Split(p, sep) == [p]
  {
    if p != [] {
      SplitPiece(p[1..], sep);
      assert [p[0]] + p[1..] == p;
    }
  }

  /** Splitting undoes joining: `Split` and `Join` are inverse on separator-free pieces. */
  lemma {:induction false} SplitJoin(parts: seq<string>, sep: char)
    requires |parts| >= 1
    requires forall i :: 0 <= i < |parts| ==> sep !in parts[i]
    ensures Split(Join(parts, sep), sep) == parts
  {
    if |parts| == 1 {
      SplitPiece(parts[0], sep);
    } else {
      SplitJoin(parts[1..], sep);
      SplitAfterPiece(parts[0], Join(parts[1..], sep), sep);
      assert [parts[0]] + parts[1..] == parts;
    }
  }
}
