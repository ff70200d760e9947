/**
 * The JavaScript string operations the application relies on:
 * `trim`, `join`, `slice(0, n)`, `toUpperCase` (ASCII letters only) and
 * `split(/\s+/)`, each with the properties the callers depend on.
 */
module JsString {

  /**
   * ECMAScript WhiteSpace and LineTerminator code points: the set that both
   * the regular-expression class `\s` and `String.prototype.trim` use.
   */
  predicate IsWhiteSpace(c: char) {
    || c == '\t' || c == '\n' || c == '\U{B}' || c == '\U{C}' || c == '\r' || c == ' '
    || c == '\U{A0}' || c == '\U{1680}' || ('\U{2000}' <= c <= '\U{200A}')
    || c == '\U{2028}' || c == '\U{2029}' || c == '\U{202F}' || c == '\U{205F}'
    || c == '\U{3000}' || c == '\U{FEFF}'
  }

  predicate AllWhiteSpace(s: string) {
    forall i :: 0 <= i < |s| ==> IsWhiteSpace(s[i])
  }

  predicate NoWhiteSpace(s: string) {
    forall i :: 0 <= i < |s| ==> !IsWhiteSpace(s[i])
  }

  /** Neither end of `s` is white space. */
  predicate IsTrimmed(s: string) {
    s == "" || (!IsWhiteSpace(s[0]) && !IsWhiteSpace(s[|s| - 1]))
  }

  // ---------------------------------------------------------------- trim

  /** `s` without its leading white space: a suffix of `s`. */
  function TrimStart(s: string): (r: string)
    ensures |r| <= |s| && r == s[|s| - |r|..]
    ensures AllWhiteSpace(s[..|s| - |r|])
    ensures r == "" || !IsWhiteSpace(r[0])
  {
    if |s| > 0 && IsWhiteSpace(s[0]) then
      var r := TrimStart(s[1..]);
      assert s[..|s| - |r|] == [s[0]] + s[1..][..|s[1..]| - |r|];
      r
    else s
  }

  /** `s` without its trailing white space: a prefix of `s`. */
  function TrimEnd(s: string): (r: string)
    ensures |r| <= |s| && r == s[..|r|]
    ensures AllWhiteSpace(s[|r|..])
    ensures r == "" || !IsWhiteSpace(r[|r| - 1])
  {
    if |s| > 0 && IsWhiteSpace(s[|s| - 1]) then
      var r := TrimEnd(s[..|s| - 1]);
      assert s[|r|..] == s[..|s| - 1][|r|..] + [s[|s| - 1]];
      r
    else s
  }

  /**
   * `String.prototype.trim`: the part of `s` left once the white space at
   * both ends is removed.
   */
  function Trim(s: string): (r: string)
    ensures IsTrimmed(r)
    ensures exists i, j :: 0 <= i <= j <= |s| && r == s[i..j] && AllWhiteSpace(s[..i]) && AllWhiteSpace(s[j..])
  {
    var t := TrimStart(s);
    var r := TrimEnd(t);
    var i := |s| - |t|;
    assert r == s[i..i + |r|];
    assert s[i + |r|..] == t[|r|..];
    assert r == "" ==> AllWhiteSpace(s[..i]) && AllWhiteSpace(t);
    r
  }

  /** Trimming removes nothing exactly when neither end is white space. */
  lemma TrimUnchanged(s: string)
    ensures Trim(s) == s <==> IsTrimmed(s)
  {
    if IsTrimmed(s) && s != "" {
      assert TrimStart(s) == s;
      assert TrimEnd(s) == s;
    }
  }

  /** Trimming twice is trimming once. */
  lemma TrimIdempotent(s: string)
    ensures Trim(Trim(s)) == Trim(s)
  {
    TrimUnchanged(Trim(s));
  }

  /** Trimming leaves nothing exactly when the string is all white space. */
  lemma {:induction false} TrimEmpty(s: string)
    ensures Trim(s) == "" <==> AllWhiteSpace(s)
  {
    if AllWhiteSpace(s) {
      TrimStartAllWhiteSpace(s);
    }
    if Trim(s) == "" {
      var i, j :| 0 <= i <= j <= |s| && Trim(s) == s[i..j] && AllWhiteSpace(s[..i]) && AllWhiteSpace(s[j..]);
      forall k | 0 <= k < |s| ensures IsWhiteSpace(s[k]) {
        if k < i {
          assert s[..i][k] == s[k];
        } else {
          assert s[j..][k - j] == s[k];
        }
      }
    }
  }

  lemma {:induction false} TrimStartAllWhiteSpace(s: string)
    requires AllWhiteSpace(s)
    ensures TrimStart(s) == ""
  {
    if |s| > 0 {
      assert AllWhiteSpace(s[1..]) by {
        forall i | 0 <= i < |s| - 1 ensures IsWhiteSpace(s[1..][i]) {
          assert s[1..][i] == s[i + 1];
        }
      }
      TrimStartAllWhiteSpace(s[1..]);
    }
  }

  // ---------------------------------------------------------------- join

  /** `Array.prototype.join(sep)` over strings. */
  function Join(parts: seq<string>, sep: string): string {
    if |parts| == 0 then ""
    else if |parts| == 1 then parts[0]
    else parts[0] + sep + Join(parts[1..], sep)
  }

  /** Joining two non-empty lists of pieces one after the other puts one separator between their joins. */
  lemma {:induction false} JoinAppend(a: seq<string>, b: seq<string>, sep: string)
    requires a != [] && b != []
    ensures Join(a + b, sep) == Join(a, sep) + sep + Join(b, sep)
  {
    if |a| == 1 {
      assert (a + b)[1..] == b;
    } else {
      assert (a + b)[0] == a[0];
      assert (a + b)[1..] == a[1..] + b;
      JoinAppend(a[1..], b, sep);
    }
  }

  // ---------------------------------------------------------------- slice, case

  /** `s.slice(0, n)`. */
  function Take(s: string, n: nat): (r: string)
    ensures |r| == if |s| < n then |s| else n
    ensures r == s[..|r|]
  {
    if |s| <= n then s else s[..n]
  }

  function UpperChar(c: char): char {
    if 'a' <= c <= 'z' then (c as int - 32) as char else c
  }

  predicate HasNoLowerAscii(s: string) {
    forall i :: 0 <= i < |s| ==> !('a' <= s[i] <= 'z')
  }

  /** `s.toUpperCase()` restricted to the ASCII letters. */
  function Upper(s: string): (r: string)
    ensures |r| == |s|
    ensures forall i :: 0 <= i < |s| ==> r[i] == UpperChar(s[i])
    ensures HasNoLowerAscii(r)
  {
    if s == "" then "" else [UpperChar(s[0])] + Upper(s[1..])
  }

  // ---------------------------------------------------------------- split(/\s+/)

  /** Length of the leading run of non-white-space characters. */
  function WordLength(s: string): (n: nat)
    ensures n <= |s|
    ensures NoWhiteSpace(s[..n])
    ensures n == |s| || IsWhiteSpace(s[n])
  {
    if |s| == 0 || IsWhiteSpace(s[0]) then 0 else 1 + WordLength(s[1..])
  }

  /** Length of the leading run of white-space characters. */
  function GapLength(s: string): (n: nat)
    ensures n <= |s|
    ensures AllWhiteSpace(s[..n])
    ensures n == |s| || !IsWhiteSpace(s[n])
  {
    if |s| == 0 || !IsWhiteSpace(s[0]) then 0 else 1 + GapLength(s[1..])
  }

  /**
   * `s.split(/\s+/)`: the pieces between maximal runs of white space.
   * A leading (trailing) run gives an empty first (last) piece, and the
   * empty string splits into one empty piece.
   */
  function SplitWhiteSpace(s: string): (pieces: seq<string>)
    ensures |pieces| >= 1
    ensures forall k :: 0 <= k < |pieces| ==> NoWhiteSpace(pieces[k])
    decreases |s|
  {
    var w := WordLength(s);
    if w == |s| then [s]
    else
      var g := GapLength(s[w..]);
      [s[..w]] + SplitWhiteSpace(s[w + g..])
  }

  /** `pieces.map(p => p[0]).join("")`: an empty piece contributes nothing. */
  function FirstChars(pieces: seq<string>): string {
    if pieces == [] then ""
    else (if pieces[0] == "" then "" else [pieces[0][0]]) + FirstChars(pieces[1..])
  }

  /**
   * A character-by-character reference definition: the characters of `s`
   * that start a word, i.e. are not white space and follow white space (or
   * the start of the string when `afterGap` holds).
   */
  function WordStarts(s: string, afterGap: bool): string {
    if s == "" then ""
    else
      (if afterGap && !IsWhiteSpace(s[0]) then [s[0]] else "")
      + WordStarts(s[1..], IsWhiteSpace(s[0]))
  }

  /** The heads of the pieces of a white-space split are exactly the word starts. */
  lemma {:induction false} FirstCharsOfSplit(s: string)
    ensures FirstChars(SplitWhiteSpace(s)) == WordStarts(s, true)
    decreases |s|
  {
    var w := WordLength(s);
    if w == |s| {
      WordStartsOfWord(s, "", true);
      assert s + "" == s;
      assert FirstChars([s]) == (if s == "" then "" else [s[0]]) + FirstChars([]);
    } else {
      var g := GapLength(s[w..]);
      var rest := s[w + g..];
      assert s == s[..w] + (s[w..][..g] + rest);
      assert s[w..][g..] == rest;
      WordStartsOfWord(s[..w], s[w..][..g] + rest, true);
      WordStartsOfGap(s[w..][..g], rest, w == 0);
      FirstCharsOfSplit(rest);
      var pieces := SplitWhiteSpace(s);
      assert pieces == [s[..w]] + SplitWhiteSpace(rest);
      assert pieces[1..] == SplitWhiteSpace(rest);
    }
  }

  /** Scanning a word leaves the scanner "inside a word". */
  lemma {:induction false} WordStartsOfWord(w: string, rest: string, afterGap: bool)
    requires NoWhiteSpace(w)
    ensures WordStarts(w + rest, afterGap)
         == (if afterGap && w != "" then [w[0]] else "") + WordStarts(rest, afterGap && w == "")
    decreases |w|
  {
    if w != "" {
      assert (w + rest)[0] == w[0];
      assert (w + rest)[1..] == w[1..] + rest;
      assert NoWhiteSpace(w[1..]) by {
        forall i | 0 <= i < |w| - 1 ensures !IsWhiteSpace(w[1..][i]) {
          assert w[1..][i] == w[i + 1];
        }
      }
      WordStartsOfWord(w[1..], rest, false);
    } else {
      assert w + rest == rest;
    }
  }

  /** Scanning a non-empty gap leaves the scanner "after a gap". */
  lemma {:induction false} WordStartsOfGap(g: string, rest: string, afterGap: bool)
    requires |g| >= 1 && AllWhiteSpace(g)
    ensures WordStarts(g + rest, afterGap) == WordStarts(rest, true)
    decreases |g|
  {
    assert (g + rest)[0] == g[0];
    assert (g + rest)[1..] == g[1..] + rest;
    if |g| == 1 {
      assert g[1..] + rest == rest;
    } else {
      assert AllWhiteSpace(g[1..]) by {
        forall i | 0 <= i < |g| - 1 ensures IsWhiteSpace(g[1..][i]) {
          assert g[1..][i] == g[i + 1];
        }
      }
      WordStartsOfGap(g[1..], rest, true);
    }
  }

  /** Every word start is a non-white-space character of the string. */
  lemma {:induction false} WordStartsAreWordChars(s: string, afterGap: bool)
    ensures |WordStarts(s, afterGap)| <= |s|
    ensures NoWhiteSpace(WordStarts(s, afterGap))
    decreases |s|
  {
    if s != "" {
      WordStartsAreWordChars(s[1..], IsWhiteSpace(s[0]));
    }
  }

}
