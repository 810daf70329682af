/** The command-line grammar of the till: lower-casing, splitting a line on
    single spaces, and matching each piece against

      ^\s*(op)(digits)(code)\s*$     op ∈ {"", "+", "-", "="}
                                     digits: zero or more ASCII digits
                                     code: one or more of a..z
*/
module Grammar {
  import opened Wrappers

  // ---------------------------------------------------------------------
  // Characters
  // ---------------------------------------------------------------------

  /** The characters the regular-expression class \s matches in a Python
      str pattern (those for which str.isspace holds). */
  predicate IsWs(c: char)
  {
    var n := c as int;
    || 9 <= n <= 13 || 28 <= n <= 32 || n == 0x85 || n == 0xA0 || n == 0x1680
    || 0x2000 <= n <= 0x200A || n == 0x2028 || n == 0x2029 || n == 0x202F
    || n == 0x205F || n == 0x3000
  }

  predicate IsDigit(c: char) { '0' <= c <= '9' }

  predicate IsLower(c: char) { 'a' <= c <= 'z' }

  predicate IsOpChar(c: char) { c == '+' || c == '-' || c == '=' }

  predicate AllWs(s: string) { forall i :: 0 <= i < |s| ==> IsWs(s[i]) }

  predicate AllDigits(s: string) { forall i :: 0 <= i < |s| ==> IsDigit(s[i]) }

  predicate AllLower(s: string) { forall i :: 0 <= i < |s| ==> IsLower(s[i]) }

  function LowerChar(c: char): (l: char)
  {
    if 'A' <= c <= 'Z' then (c as int + 32) as char else c
  }

  /** Lower-cases the ASCII letters of a line: every A..Z becomes its a..z
      partner, every other character stays, and no A..Z is left. */
  function Lower(s: string): (r: string)
    ensures |r| == |s|
    ensures forall i :: 0 <= i < |s| ==> !('A' <= r[i] <= 'Z')
    ensures forall i :: 0 <= i < |s| ==> ('A' <= s[i] <= 'Z' ==> r[i] as int == s[i] as int + 32)
    ensures forall i :: 0 <= i < |s| ==> (!('A' <= s[i] <= 'Z') ==> r[i] == s[i])
  {
    seq(|s|, i requires 0 <= i < |s| => LowerChar(s[i]))
  }

  /** Lower-casing twice is lower-casing once, and a word already in lower
      case (such as a command word) is left alone. */
  lemma LowerIdempotent(s: string)
    ensures Lower(Lower(s)) == Lower(s)
    ensures AllLower(s) ==> Lower(s) == s
  {
  }

  // ---------------------------------------------------------------------
  // Splitting a line on single spaces (Python's str.split(" "))
  // ---------------------------------------------------------------------

  /** The pieces between single spaces; two spaces in a row give an empty
      piece, and the empty line gives one empty piece. */
  function Split(s: string): (parts: seq<string>)
    ensures |parts| >= 1
    ensures forall i :: 0 <= i < |parts| ==> ' ' !in parts[i]
    decreases |s|
  {
    if |s| == 0 then [""]
    else
      var rest := Split(s[1..]);
      if s[0] == ' ' then [""] + rest
      else
        var parts := [[s[0]] + rest[0]] + rest[1..];
        assert forall i :: 1 <= i < |parts| ==> parts[i] == rest[i];
        parts
  }

  /** The pieces glued back with one space between each pair. */
  function Join(parts: seq<string>): (s: string)
    requires |parts| >= 1
    decreases |parts|
  {
    if |parts| == 1 then parts[0] else parts[0] + " " + Join(parts[1..])
  }

  /** Splitting loses nothing: joining the pieces gives the line back. With
      Split's own contract (no piece holds a space) this fixes the pieces. */
  lemma {:induction false} JoinSplit(s: string)
    ensures Join(Split(s)) == s
    decreases |s|
  {
    if |s| > 0 {
      var rest := Split(s[1..]);
      JoinSplit(s[1..]);
      if s[0] == ' ' {
        assert ([""] + rest)[1..] == rest;
        assert s == [' '] + s[1..];
      } else {
        var parts := [[s[0]] + rest[0]] + rest[1..];
        assert parts[1..] == rest[1..];
        if |rest| == 1 {
          assert s == [s[0]] + s[1..];
        } else {
          assert Join(rest) == rest[0] + " " + Join(rest[1..]);
          assert s == [s[0]] + s[1..];
          assert Join(parts) == [s[0]] + rest[0] + " " + Join(rest[1..]);
        }
      }
    }
  }

  /** A word with no space splits to itself alone. */
  lemma {:induction false} SplitWord(w: string)
    requires ' ' !in w
    ensures Split(w) == [w]
    decreases |w|
  {
    if |w| > 0 {
      SplitWord(w[1..]);
      assert [w[0]] + w[1..] == w;
    }
  }

  /** A line splits to the single piece `w` exactly when it is `w`: this is
      how the whole-line commands are recognised. */
  lemma SplitIsSingle(s: string, w: string)
    requires ' ' !in w
    ensures Split(s) == [w] <==> s == w
  {
    JoinSplit(s);
    SplitWord(w);
  }

  // ---------------------------------------------------------------------
  // Stripping the surrounding whitespace of a piece
  // ---------------------------------------------------------------------

  /** Length of the longest all-whitespace prefix. */
  function LeadingWs(t: string): (n: nat)
    ensures n <= |t|
    ensures AllWs(t[..n])
    ensures n < |t| ==> !IsWs(t[n])
    decreases |t|
  {
    if |t| == 0 || !IsWs(t[0]) then 0 else 1 + LeadingWs(t[1..])
  }

  /** Length of the longest all-whitespace suffix. */
  function TrailingWs(t: string): (n: nat)
    ensures n <= |t|
    ensures AllWs(t[|t| - n..])
    ensures n < |t| ==> !IsWs(t[|t| - n - 1])
    decreases |t|
  {
    if |t| == 0 || !IsWs(t[|t| - 1]) then 0
    else
      var m := TrailingWs(t[..|t| - 1]);
      SuffixStep(t, m);
      1 + m
  }

  /** The suffix of `t` one longer than a suffix of `t` without its last
      character. */
  lemma SuffixStep(t: string, m: nat)
    requires 0 < |t| && m < |t|
    requires AllWs(t[..|t| - 1][|t| - 1 - m..]) && IsWs(t[|t| - 1])
    ensures AllWs(t[|t| - (m + 1)..])
    ensures m + 1 < |t| ==> t[|t| - (m + 1) - 1] == t[..|t| - 1][|t| - 1 - m - 1]
  {
    var init := t[..|t| - 1];
    assert t[|t| - (m + 1)..] == init[|init| - m..] + [t[|t| - 1]];
  }

  /** The piece without its leading and trailing whitespace. */
  function Strip(t: string): (r: string)
    ensures |r| <= |t|
    ensures |r| > 0 ==> !IsWs(r[0]) && !IsWs(r[|r| - 1])
    ensures AllWs(t) <==> r == ""
  {
    var s := t[LeadingWs(t)..];
    s[..|s| - TrailingWs(s)]
  }

  /** Length of the longest all-digit prefix. */
  function DigitRun(t: string): (n: nat)
    ensures n <= |t|
    ensures AllDigits(t[..n])
    ensures n < |t| ==> !IsDigit(t[n])
    decreases |t|
  {
    if |t| == 0 || !IsDigit(t[0]) then 0 else 1 + DigitRun(t[1..])
  }

  // ---------------------------------------------------------------------
  // Matching one piece
  // ---------------------------------------------------------------------

  /** The three groups of a match; `op` and `digits` are "" when absent. */
  datatype RawToken = RawToken(op: string, digits: string, code: string)

  /** The groups a successful match can produce. */
  predicate WellFormed(r: RawToken)
  {
    && (r.op == "" || (|r.op| == 1 && IsOpChar(r.op[0])))
    && AllDigits(r.digits)
    && |r.code| > 0 && AllLower(r.code)
  }

  /** The text the groups stand for. */
  function Render(r: RawToken): string
  {
    r.op + r.digits + r.code
  }

  /** Matches one piece against the grammar. The pattern cannot backtrack
      usefully: the operator, digit and letter classes are disjoint and none
      contains whitespace, so stripping the whitespace and then reading an
      optional operator, the longest digit run and the remaining letters is
      the only way to match. */
  function ParseToken(t: string): (r: Option<RawToken>)
    ensures r.Some? ==> WellFormed(r.value) && Strip(t) == Render(r.value)
  {
    MatchCore(Strip(t))
  }

  /** The match of a piece whose surrounding whitespace is already gone. */
  function MatchCore(core: string): (r: Option<RawToken>)
    ensures r.Some? ==> WellFormed(r.value) && Render(r.value) == core
  {
    var opLen := if |core| > 0 && IsOpChar(core[0]) then 1 else 0;
    var rest := core[opLen..];
    var n := DigitRun(rest);
    var code := rest[n..];
    if |code| > 0 && AllLower(code) then
      assert core == core[..opLen] + rest[..n] + code;
      Some(RawToken(core[..opLen], rest[..n], code))
    else
      None
  }

  /** Reading the groups back from the text they stand for. */
  lemma MatchRender(r: RawToken)
    requires WellFormed(r)
    ensures MatchCore(Render(r)) == Some(r)
  {
    var core := Render(r);
    var tail := r.digits + r.code;
    DigitRunOf(r.digits, r.code);
    assert tail[..|r.digits|] == r.digits;
    assert tail[|r.digits|..] == r.code;
    if r.op == "" {
      assert core == tail;
      assert !IsOpChar(core[0]) by {
        if |r.digits| > 0 {
          assert core[0] == r.digits[0];
        } else {
          assert core[0] == r.code[0];
        }
      }
    } else {
      assert core == r.op + tail;
      assert core[0] == r.op[0];
      assert core[1..] == tail;
      assert core[..1] == r.op;
    }
  }

  /** Whitespace in front of a piece that starts with a non-space is exactly
      what LeadingWs measures. */
  lemma {:induction false} LeadingWsOf(pre: string, x: string)
    requires AllWs(pre) && |x| > 0 && !IsWs(x[0])
    ensures LeadingWs(pre + x) == |pre|
    decreases |pre|
  {
    if |pre| == 0 {
      assert pre + x == x;
    } else {
      assert (pre + x)[1..] == pre[1..] + x;
      LeadingWsOf(pre[1..], x);
    }
  }

  lemma {:induction false} TrailingWsOf(x: string, post: string)
    requires AllWs(post) && |x| > 0 && !IsWs(x[|x| - 1])
    ensures TrailingWs(x + post) == |post|
    decreases |post|
  {
    if |post| == 0 {
      assert x + post == x;
    } else {
      var t := x + post;
      assert t[|t| - 1] == post[|post| - 1];
      assert t[..|t| - 1] == x + post[..|post| - 1];
      TrailingWsOf(x, post[..|post| - 1]);
    }
  }

  lemma {:induction false} DigitRunOf(d: string, x: string)
    requires AllDigits(d) && |x| > 0 && !IsDigit(x[0])
    ensures DigitRun(d + x) == |d|
    decreases |d|
  {
    if |d| == 0 {
      assert d + x == x;
    } else {
      assert (d + x)[1..] == d[1..] + x;
      DigitRunOf(d[1..], x);
    }
  }

  /** Stripping undoes any whitespace padding of a piece that starts and
      ends with a non-space. */
  lemma StripPadded(pre: string, core: string, post: string)
    requires AllWs(pre) && AllWs(post)
    requires |core| > 0 && !IsWs(core[0]) && !IsWs(core[|core| - 1])
    ensures Strip(pre + core + post) == core
  {
    LeadingWsOf(pre, core + post);
    assert (pre + core + post) == pre + (core + post);
    assert (pre + core + post)[|pre|..] == core + post;
    TrailingWsOf(core, post);
  }

  /** Every well-formed group triple, padded with any whitespace, is matched
      and gives back exactly those groups. With ParseToken's own contract
      this characterises the matched language both ways. */
  lemma ParseRender(pre: string, r: RawToken, post: string)
    requires AllWs(pre) && AllWs(post) && WellFormed(r)
    ensures ParseToken(pre + Render(r) + post) == Some(r)
  {
    var core := Render(r);
    assert core[|core| - 1] == r.code[|r.code| - 1];
    assert !IsWs(core[0]) by {
      if |r.op| > 0 {
        assert core[0] == r.op[0];
      } else if |r.digits| > 0 {
        assert core[0] == r.digits[0];
      } else {
        assert core[0] == r.code[0];
      }
    }
    StripPadded(pre, core, post);
    MatchRender(r);
  }

  /** Value of a run of ASCII digits, as Python's int() reads it. */
  function DigitsValue(d: string): (v: nat)
    requires AllDigits(d)
    decreases |d|
  {
    if |d| == 0 then 0
    else 10 * DigitsValue(d[..|d| - 1]) + (d[|d| - 1] as int - '0' as int)
  }
}
