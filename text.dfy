/**
 * The Python 2 string operations the host code relies on, over byte
 * strings as `seq<char>`: `strip`, `upper`/`lower` (ASCII letters only,
 * as for a `str` in the C locale), `find`, `split(sep)`, `split(sep, 1)`,
 * whitespace `split()`, `join`, `startswith`, `endswith`, `in`, and
 * `int()` / `str()` on decimal integers.
 */
module Text {
  import opened Wrappers

  /** The characters `str.strip()` and `str.split()` treat as whitespace. */
  predicate IsSpace(c: char)
  {
    c == ' ' || c == '\t' || c == '\n' || c == '\r' || c == '\U{0B}' || c == '\U{0C}'
  }

  predicate AllSpace(s: string)
  {
    forall i :: 0 <= i < |s| ==> IsSpace(s[i])
  }

  // ----- strip -----

  /** `s.lstrip()`: what is left after the leading whitespace. */
  function LStrip(s: string): (r: string)
    ensures |r| <= |s|
    ensures r == [] || !IsSpace(r[0])
  {
    if s != [] && IsSpace(s[0]) then LStrip(s[1..]) else s
  }

  /** What `lstrip` leaves is a suffix, and only whitespace goes. */
  lemma {:induction false} LStripSuffix(s: string)
    ensures var r := LStrip(s); r == s[|s| - |r|..] && AllSpace(s[..|s| - |r|])
  {
    if s != [] && IsSpace(s[0]) {
      LStripSuffix(s[1..]);
      var r := LStrip(s);
      assert s[1..][..|s| - 1 - |r|] == s[1..|s| - |r|];
    }
  }

  /** `s.rstrip()`: what is left before the trailing whitespace. */
  function RStrip(s: string): (r: string)
    ensures |r| <= |s|
    ensures r == [] || !IsSpace(r[|r| - 1])
  {
    if s != [] && IsSpace(s[|s| - 1]) then RStrip(s[..|s| - 1]) else s
  }

  /** What `rstrip` leaves is a prefix, and only whitespace goes. */
  lemma {:induction false} RStripPrefix(s: string)
    ensures var r := RStrip(s); r == s[..|r|] && AllSpace(s[|r|..])
  {
    if s != [] && IsSpace(s[|s| - 1]) {
      RStripPrefix(s[..|s| - 1]);
      var r := RStrip(s);
      assert s[..|s| - 1][|r|..] == s[|r|..|s| - 1];
    }
  }

  predicate Trimmed(r: string)
  {
    r == [] || (!IsSpace(r[0]) && !IsSpace(r[|r| - 1]))
  }

  /** `s.strip()`: no longer than `s`, with whitespace at neither end. */
  function Strip(s: string): (r: string)
    ensures |r| <= |s| && Trimmed(r)
  {
    var m := RStrip(s);
    var r := LStrip(m);
    RStripPrefix(s);
    LStripSuffix(m);
    assert r != [] ==> r[|r| - 1] == m[|m| - 1];
    r
  }

  /** `strip` keeps a core of `s` and removes only whitespace around it. */
  lemma StripMeaning(s: string)
    ensures var r := Strip(s); |r| <= |RStrip(s)|
    ensures var r, a := Strip(s), |RStrip(s)| - |Strip(s)|;
      a + |r| <= |s| && s[a..a + |r|] == r && AllSpace(s[..a]) && AllSpace(s[a + |r|..])
  {
    var m := RStrip(s);
    var r := LStrip(m);
    var a := |m| - |r|;
    RStripPrefix(s);
    LStripSuffix(m);
    assert s[a..a + |r|] == m[a..];
    assert s[..a] == m[..a];
  }

  /** Trailing whitespace after a core that does not end in whitespace is exactly what `rstrip` removes. */
  lemma {:induction false} RStripOf(m: string, q: string)
    requires AllSpace(q)
    requires m == [] || !IsSpace(m[|m| - 1])
    ensures RStrip(m + q) == m
    decreases |q|
  {
    if q != [] {
      var q' := q[..|q| - 1];
      assert (m + q)[..|m + q| - 1] == m + q';
      RStripOf(m, q');
    }
  }

  /** Leading whitespace before a core that does not start with whitespace is exactly what `lstrip` removes. */
  lemma {:induction false} LStripOf(p: string, r: string)
    requires AllSpace(p)
    requires r == [] || !IsSpace(r[0])
    ensures LStrip(p + r) == r
    decreases |p|
  {
    if p != [] {
      assert (p + r)[1..] == p[1..] + r;
      LStripOf(p[1..], r);
    }
  }

  /** Reference characterisation: a trimmed core padded by whitespace strips back to the core. */
  lemma StripUnique(p: string, r: string, q: string)
    requires AllSpace(p) && AllSpace(q) && Trimmed(r)
    ensures Strip(p + r + q) == r
  {
    if r == [] {
      assert p + r + q == [] + (p + q);
      RStripOf([], p + q);
    } else {
      RStripOf(p + r, q);
      LStripOf(p, r);
    }
  }

  /** Stripping twice changes nothing. */
  lemma StripIdempotent(s: string)
    ensures Strip(Strip(s)) == Strip(s)
  {
    var t := Strip(s);
    StripMeaning(s);
    assert [] + t + [] == t;
    StripUnique([], t, []);
  }

  // ----- case -----

  function UpperChar(c: char): char
  {
    if 'a' <= c <= 'z' then (c as int - 32) as char else c
  }

  function LowerChar(c: char): char
  {
    if 'A' <= c <= 'Z' then (c as int + 32) as char else c
  }

  /** `s.upper()`: lower-case ASCII letters become upper case, nothing else changes. */
  function Upper(s: string): (r: string)
    ensures |r| == |s|
    ensures forall i :: 0 <= i < |s| ==> r[i] == UpperChar(s[i])
  {
    if s == [] then [] else [UpperChar(s[0])] + Upper(s[1..])
  }

  /** `s.lower()`. */
  function Lower(s: string): (r: string)
    ensures |r| == |s|
    ensures forall i :: 0 <= i < |s| ==> r[i] == LowerChar(s[i])
  {
    if s == [] then [] else [LowerChar(s[0])] + Lower(s[1..])
  }

  predicate SameLetterIgnoringCase(c: char, d: char)
  {
    c == d || ('a' <= c <= 'z' && d as int == c as int - 32) || ('a' <= d <= 'z' && c as int == d as int - 32)
  }

  /** `a` and `b` spell the same word when ASCII case is ignored. */
  predicate EqualIgnoringCase(a: string, b: string)
  {
    |a| == |b| && forall i :: 0 <= i < |a| ==> SameLetterIgnoringCase(a[i], b[i])
  }

  /** Per character: two characters upper-case alike exactly when they are the same letter up to case. */
  lemma UpperCharEq(c: char, d: char)
    ensures UpperChar(c) == UpperChar(d) <==> SameLetterIgnoringCase(c, d)
  {
  }

  /** Comparing upper-cased strings is comparing ignoring case, in both directions. */
  lemma UpperEqIff(a: string, b: string)
    ensures Upper(a) == Upper(b) <==> EqualIgnoringCase(a, b)
  {
    if Upper(a) == Upper(b) {
      forall i | 0 <= i < |a| ensures SameLetterIgnoringCase(a[i], b[i]) {
        assert Upper(a)[i] == Upper(b)[i];
        UpperCharEq(a[i], b[i]);
      }
    }
    if EqualIgnoringCase(a, b) {
      forall i | 0 <= i < |a| ensures Upper(a)[i] == Upper(b)[i] {
        UpperCharEq(a[i], b[i]);
      }
    }
  }

  /** Upper-casing twice changes nothing. */
  lemma UpperIdempotent(s: string)
    ensures Upper(Upper(s)) == Upper(s)
  {
  }

  // ----- searching -----

  /** `s.find(c)` for a one-character needle: the first index, or `None` for -1. */
  function Find(s: string, c: char): (r: Option<nat>)
    ensures r.None? <==> c !in s
    ensures r.Some? ==> r.value < |s| && s[r.value] == c && c !in s[..r.value]
  {
    if s == [] then None
    else if s[0] == c then Some(0)
    else match Find(s[1..], c)
      case None => None
      case Some(i) => (assert s[..i + 1] == [s[0]] + s[1..][..i]; Some(i + 1))
  }

  /** `s.startswith(p)`. */
  predicate StartsWith(s: string, p: string)
  {
    |p| <= |s| && s[..|p|] == p
  }

  /** `s.endswith(p)`. */
  predicate EndsWith(s: string, p: string)
  {
    |p| <= |s| && s[|s| - |p|..] == p
  }

  /** `p in s`: `p` occurs somewhere in `s`. */
  predicate Contains(s: string, p: string)
  {
    exists i | 0 <= i <= |s| - |p| :: OccursAt(s, p, i)
  }

  predicate OccursAt(s: string, p: string, i: int)
  {
    0 <= i <= |s| - |p| && s[i..i + |p|] == p
  }

  /** A prefix is in particular a substring; the converse fails (`"fan"` is in `"heater_fan"`). */
  lemma StartsWithContains(s: string, p: string)
    requires StartsWith(s, p)
    ensures Contains(s, p)
  {
    assert OccursAt(s, p, 0);
  }

  // ----- split and join -----

  /** `sep.join(parts)`. */
  function Join(parts: seq<string>, sep: string): string
  {
    if |parts| == 0 then ""
    else if |parts| == 1 then parts[0]
    else parts[0] + sep + Join(parts[1..], sep)
  }

  /** `s.split(c)` for a one-character separator: never empty, and no piece holds `c`. */
  function SplitOn(s: string, c: char): (r: seq<string>)
    ensures |r| >= 1
    ensures forall i :: 0 <= i < |r| ==> c !in r[i]
    decreases |s|
  {
    match Find(s, c)
    case None => [s]
    case Some(i) => [s[..i]] + SplitOn(s[i + 1..], c)
  }

  /** Joining the pieces of a split with the separator gives the string back. */
  lemma {:induction false} JoinSplit(s: string, c: char)
    ensures Join(SplitOn(s, c), [c]) == s
    decreases |s|
  {
    match Find(s, c)
    case None =>
    case Some(i) =>
      var rest := SplitOn(s[i + 1..], c);
      assert SplitOn(s, c) == [s[..i]] + rest;
      assert ([s[..i]] + rest)[1..] == rest;
      JoinSplit(s[i + 1..], c);
      assert Join(SplitOn(s, c), [c]) == s[..i] + [c] + Join(rest, [c]);
      assert s == s[..i] + [c] + s[i + 1..];
  }

  /** And splitting a join of separator-free pieces gives the pieces back. */
  lemma {:induction false} SplitJoin(parts: seq<string>, c: char)
    requires |parts| >= 1
    requires forall i :: 0 <= i < |parts| ==> c !in parts[i]
    ensures SplitOn(Join(parts, [c]), c) == parts
  {
    if |parts| == 1 {
    } else {
      var s := Join(parts, [c]);
      var p := parts[0];
      var t := Join(parts[1..], [c]);
      assert s == p + [c] + t;
      assert c !in p;
      FindAfter(p, t, c);
      assert s[..|p|] == p && s[|p| + 1..] == t;
      SplitJoin(parts[1..], c);
      assert SplitOn(s, c) == [p] + parts[1..];
    }
  }

  /** The first `c` of `p + [c] + t` is the one after `p` when `p` has none. */
  lemma FindAfter(p: string, t: string, c: char)
    requires c !in p
    ensures Find(p + [c] + t, c) == Some(|p|)
  {
    var s := p + [c] + t;
    assert s[..|p|] == p;
    assert s[|p|] == c;
  }

  /** `s.split(c, 1)`: the text before the first `c` and the rest, or `[s]` without one. */
  function SplitOnce(s: string, c: char): (r: seq<string>)
    ensures |r| == 1 <==> c !in s
    ensures |r| == 1 ==> r[0] == s
    ensures |r| != 1 ==> |r| == 2 && c !in r[0] && r[0] + [c] + r[1] == s
  {
    match Find(s, c)
    case None => [s]
    case Some(i) => (assert s == s[..i] + [c] + s[i + 1..]; [s[..i], s[i + 1..]])
  }

  /** Length of the leading run of non-space characters. */
  function WordLen(s: string): (n: nat)
    ensures n <= |s|
    ensures forall i :: 0 <= i < n ==> !IsSpace(s[i])
    ensures n == |s| || IsSpace(s[n])
  {
    if s == [] || IsSpace(s[0]) then 0 else 1 + WordLen(s[1..])
  }

  /** A nonempty run of non-whitespace. */
  predicate IsWord(w: string)
  {
    w != [] && forall j :: 0 <= j < |w| ==> !IsSpace(w[j])
  }

  /** `s.split()`: the maximal runs of non-whitespace, in order. */
  function Words(s: string): (r: seq<string>)
    ensures forall i :: 0 <= i < |r| ==> IsWord(r[i])
    decreases |s|
  {
    var t := LStrip(s);
    if t == [] then []
    else
      var n := WordLen(t);
      [t[..n]] + Words(t[n..])
  }

  /** Joining words with single spaces and splitting again gives the words back. */
  lemma {:induction false} WordsJoin(ws: seq<string>)
    requires forall i :: 0 <= i < |ws| ==> IsWord(ws[i])
    ensures Words(Join(ws, " ")) == ws
  {
    if |ws| == 1 {
      WordsCons(ws[0], []);
      assert ws[0] + [] == ws[0];
    } else if |ws| > 1 {
      WordsJoin(ws[1..]);
      WordsJoinStep(ws);
    }
  }

  /** One induction step of `WordsJoin`: a word in front of the joined rest splits off first. */
  lemma WordsJoinStep(ws: seq<string>)
    requires |ws| > 1 && IsWord(ws[0])
    requires Words(Join(ws[1..], " ")) == ws[1..]
    ensures Words(Join(ws, " ")) == ws
  {
    var rest, all := Join(ws[1..], " "), Join(ws, " ");
    JoinCons(ws, " ");
    assert all == ws[0] + (" " + rest);
    WordsPrepend(ws[1..], ws[0], rest);
    assert Words(all) == [ws[0]] + ws[1..];
    assert [ws[0]] + ws[1..] == ws;
  }

  /** A join of two or more pieces starts with the first piece and the separator. */
  lemma JoinCons(ws: seq<string>, sep: string)
    requires |ws| > 1
    ensures Join(ws, sep) == ws[0] + (sep + Join(ws[1..], sep))
  {
  }

  /** A word in front of a space and a string splits off ahead of that string's words. */
  lemma WordsPrepend(ws: seq<string>, w: string, rest: string)
    requires IsWord(w)
    requires Words(rest) == ws
    ensures Words(w + (" " + rest)) == [w] + ws
  {
    WordsCons(w, " " + rest);
    WordsSpace(rest);
  }

  /** A word followed by nothing or by whitespace splits off first. */
  lemma WordsCons(w: string, rest: string)
    requires IsWord(w)
    requires rest == [] || IsSpace(rest[0])
    ensures Words(w + rest) == [w] + Words(rest)
  {
    var s := w + rest;
    assert LStrip(s) == s;
    WordLenOf(w, rest);
    assert s[..|w|] == w && s[|w|..] == rest;
  }

  /** The leading run of a word followed by nothing or by whitespace is the word. */
  lemma {:induction false} WordLenOf(w: string, rest: string)
    requires forall j :: 0 <= j < |w| ==> !IsSpace(w[j])
    requires rest == [] || IsSpace(rest[0])
    ensures WordLen(w + rest) == |w|
  {
    if w != [] {
      assert (w + rest)[1..] == w[1..] + rest;
      WordLenOf(w[1..], rest);
    }
  }

  /** A leading space does not change the split. */
  lemma WordsSpace(rest: string)
    ensures Words(" " + rest) == Words(rest)
  {
    assert LStrip(" " + rest) == LStrip(rest) by { assert (" " + rest)[1..] == rest; }
  }

  // ----- decimal integers -----

  predicate IsDigit(c: char)
  {
    '0' <= c <= '9'
  }

  function DigitValue(c: char): nat
    requires IsDigit(c)
  {
    c as int - '0' as int
  }

  function DigitsValue(s: string): nat
    requires forall i :: 0 <= i < |s| ==> IsDigit(s[i])
  {
    if s == [] then 0 else DigitsValue(s[..|s| - 1]) * 10 + DigitValue(s[|s| - 1])
  }

  predicate AllDigits(s: string)
  {
    s != [] && forall i :: 0 <= i < |s| ==> IsDigit(s[i])
  }

  /**
   * `int(s)` in Python 2 for base 10: whitespace around the literal, an
   * optional sign, then digits, with whitespace also allowed between the
   * sign and the digits (`PyOS_strtol` takes the sign and `PyOS_strtoul`
   * skips whitespace again before the digits).
   */
  function ParseInt(s: string): (r: Option<int>)
    ensures var t := Strip(s);
      r.Some? <==> AllDigits(t) || (|t| >= 1 && IsSign(t[0]) && AllDigits(LStrip(t[1..])))
    ensures var t := Strip(s); AllDigits(t) ==> r == Some(DigitsValue(t))
    ensures var t := Strip(s);
      |t| >= 1 && IsSign(t[0]) && AllDigits(LStrip(t[1..])) ==>
        var v: int := DigitsValue(LStrip(t[1..])); r == Some(if t[0] == '-' then -v else v)
  {
    var t := Strip(s);
    if AllDigits(t) then Some(DigitsValue(t))
    else if |t| >= 1 && IsSign(t[0]) && AllDigits(LStrip(t[1..])) then
      var v: int := DigitsValue(LStrip(t[1..]));
      Some(if t[0] == '-' then -v else v)
    else None
  }

  predicate IsSign(c: char)
  {
    c == '-' || c == '+'
  }

  /** Whitespace after the sign is skipped: `int("- 5")` is -5. */
  lemma SpaceAfterSign()
    ensures ParseInt("- 5") == Some(-5)
  {
    var t := "- 5";
    assert Strip(t) == t by { StripOfTrimmed(t); }
    assert t[1..] == " 5" && LStrip(" 5") == "5";
    assert AllDigits("5") && DigitsValue("5") == 5;
  }

  /** Whitespace around the literal and after the sign is skipped: `int(" +\t7 ")` is 7. */
  lemma SpaceAroundSign()
    ensures ParseInt(" +\t7 ") == Some(7)
  {
    var t := "+\t7";
    assert Strip(" +\t7 ") == t by { assert " +\t7 " == " " + t + " "; StripUnique(" ", t, " "); }
    assert t[1..] == "\t7" && LStrip("\t7") == "7";
    assert AllDigits("7") && DigitsValue("7") == 7;
  }

  /** The decimal digits of `n`, most significant first (`str(n)` for `n >= 0`). */
  function NatToString(n: nat): (s: string)
    ensures AllDigits(s)
    ensures s[0] == '0' ==> n == 0
  {
    if n < 10 then [('0' as int + n) as char]
    else NatToString(n / 10) + [('0' as int + n % 10) as char]
  }

  /** `str(n)`. */
  function IntToString(n: int): (s: string)
  {
    if n < 0 then "-" + NatToString(-n) else NatToString(n)
  }

  /** The digits of `n` read back as `n`. */
  lemma {:induction false} NatToStringValue(n: nat)
    ensures DigitsValue(NatToString(n)) == n
  {
    if n >= 10 {
      var s := NatToString(n);
      NatToStringValue(n / 10);
      assert s[..|s| - 1] == NatToString(n / 10);
    }
  }

  /** `int(str(n)) == n`. */
  lemma ParseIntToString(n: int)
    ensures ParseInt(IntToString(n)) == Some(n)
  {
    var s := IntToString(n);
    if n < 0 {
      NatToStringValue(-n);
      assert s[1..] == NatToString(-n);
      assert Strip(s) == s by { StripOfTrimmed(s); }
      assert !AllDigits(s) by { assert !IsDigit(s[0]); }
    } else {
      NatToStringValue(n);
      assert Strip(s) == s by { StripOfTrimmed(s); }
    }
  }

  /** A string with no whitespace at either end is its own `strip`. */
  lemma StripOfTrimmed(s: string)
    requires s == [] || (!IsSpace(s[0]) && !IsSpace(s[|s| - 1]))
    ensures Strip(s) == s
  {
  }
}
