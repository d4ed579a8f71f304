/**
 * The G-code front end of the host (klippy/gcode.py): the line tokenizer
 * of `process_commands`, the parameter helpers `get_str` / `get_int`, the
 * handler tables switched by `connect` / `do_shutdown`, `register_command`,
 * the acknowledgement protocol and the coordinate-mode commands.
 *
 * Command handlers other than the mode toggles are outside the model: a
 * handler call is recorded, and what it does is supplied as an `Outcome`
 * (the lines it responds, an `ack(msg)` it sends itself, or the exception
 * it raises).
 */
module GCode {
  import opened Wrappers
  import opened Text

  // ---------------------------------------------------------------------
  // The tokenizer: `args_r.split(line.upper())[1:]` with
  // `args_r = re.compile('([A-Z_]+|[A-Z*])')`
  // ---------------------------------------------------------------------

  predicate IsKeyChar(c: char)
  {
    'A' <= c <= 'Z' || c == '_'
  }

  /** A character where `args_r` can match. */
  predicate IsKeyStart(c: char)
  {
    IsKeyChar(c) || c == '*'
  }

  /** Length of the leading run of `[A-Z_]`. */
  function KeyLen(s: string): (n: nat)
    ensures n <= |s|
    ensures n == |s| || !IsKeyChar(s[n])
  {
    if s == [] || !IsKeyChar(s[0]) then 0 else 1 + KeyLen(s[1..])
  }

  /** The run is made of `[A-Z_]`. */
  lemma {:induction false} KeyLenRun(s: string)
    ensures forall i :: 0 <= i < KeyLen(s) ==> IsKeyChar(s[i])
  {
    if s != [] && IsKeyChar(s[0]) {
      KeyLenRun(s[1..]);
    }
  }

  /** Length of the leading text in which `args_r` finds no match. */
  function GapLen(s: string): (n: nat)
    ensures n <= |s|
    ensures n == |s| || IsKeyStart(s[n])
  {
    if s == [] || IsKeyStart(s[0]) then 0 else 1 + GapLen(s[1..])
  }

  /** The gap holds no match. */
  lemma {:induction false} GapLenRun(s: string)
    ensures forall i :: 0 <= i < GapLen(s) ==> !IsKeyStart(s[i])
  {
    if s != [] && !IsKeyStart(s[0]) {
      GapLenRun(s[1..]);
    }
  }

  /** Length of the match at the start of `s`: a greedy `[A-Z_]+`, otherwise the single `*`. */
  function MatchLen(s: string): (n: nat)
    requires s != [] && IsKeyStart(s[0])
    ensures 1 <= n <= |s|
  {
    if s[0] == '*' then 1 else KeyLen(s)
  }

  /** The split of text that starts at a match: each match followed by the text up to the next one. */
  function Pieces(s: string): seq<string>
    requires s == [] || IsKeyStart(s[0])
    decreases |s|
  {
    if s == [] then []
    else
      var k := MatchLen(s);
      var g := GapLen(s[k..]);
      [s[..k], s[k..k + g]] + Pieces(s[k + g..])
  }

  /**
   * `args_r.split(s)[1:]`: the text before the first match, which holds no
   * match, is dropped; the tokens alternate key and gap, and that prefix
   * followed by them is the text.
   */
  function Tokens(s: string): (ts: seq<string>)
    ensures Alternating(ts)
    ensures IsGap(s[..GapLen(s)]) && s == s[..GapLen(s)] + Concat(ts)
  {
    var n := GapLen(s);
    PiecesShape(s[n..]);
    SplitAt(s, n);
    GapIsGap(s);
    Pieces(s[n..])
  }

  /** A parameter letter run, or the `*` of a checksum. */
  predicate IsKey(k: string)
  {
    k == "*" || (k != [] && forall i :: 0 <= i < |k| ==> IsKeyChar(k[i]))
  }

  /** Text with no match in it. */
  predicate IsGap(g: string)
  {
    forall i :: 0 <= i < |g| ==> !IsKeyStart(g[i])
  }

  function Concat(ps: seq<string>): string
  {
    if ps == [] then "" else ps[0] + Concat(ps[1..])
  }

  /**
   * Key, value, key, value, ...: keys are matches, values hold no match,
   * and a letter run followed by an empty value is followed by a `*` (two
   * letter runs cannot touch).
   */
  predicate Alternating(ps: seq<string>)
    decreases |ps|
  {
    if ps == [] then true
    else
      |ps| >= 2 && IsKey(ps[0]) && IsGap(ps[1])
      && (|ps| >= 3 && ps[0] != "*" && ps[1] == [] ==> ps[2] == "*")
      && Alternating(ps[2..])
  }

  lemma ConcatPair(ps: seq<string>)
    requires |ps| >= 2
    ensures Concat(ps) == ps[0] + ps[1] + Concat(ps[2..])
  {
    assert ps[1..][1..] == ps[2..];
  }

  /** Building an alternating sequence one pair at a time. */
  lemma AlternatingCons(k: string, g: string, rest: seq<string>)
    requires IsKey(k) && IsGap(g) && Alternating(rest)
    requires rest != [] && k != "*" && g == [] ==> rest[0] == "*"
    ensures Alternating([k, g] + rest)
  {
    assert ([k, g] + rest)[2..] == rest;
  }

  /** The match at the start of a text is a key. */
  lemma MatchIsKey(s: string)
    requires s != [] && IsKeyStart(s[0])
    ensures IsKey(s[..MatchLen(s)])
  {
    var k := MatchLen(s);
    if s[0] != '*' {
      KeyLenRun(s);
      assert forall i :: 0 <= i < k ==> s[..k][i] == s[i];
    } else {
      assert s[..k] == [s[0]];
    }
  }

  /** The text up to the next match is a gap, and the next match starts right after it. */
  lemma GapIsGap(s: string)
    ensures IsGap(s[..GapLen(s)])
    ensures GapLen(s) < |s| ==> IsKeyStart(s[GapLen(s)])
  {
    var n := GapLen(s);
    GapLenRun(s);
    assert forall i :: 0 <= i < n ==> s[..n][i] == s[i];
  }

  /** A letter run with no text after it is followed by a `*` or by nothing. */
  lemma RunThenStar(s: string)
    requires s != [] && IsKeyStart(s[0]) && s[0] != '*'
    requires GapLen(s[MatchLen(s)..]) == 0 && MatchLen(s) < |s|
    ensures s[MatchLen(s)] == '*'
  {
    var k := MatchLen(s);
    assert s[k..][0] == s[k];
  }

  lemma PiecesHead(t: string)
    requires t != [] && t[0] == '*'
    ensures Pieces(t) != [] && Pieces(t)[0] == "*"
  {
    assert t[..1] == "*";
  }

  /** Every split alternates and loses nothing. */
  lemma {:induction false} PiecesShape(s: string)
    requires s == [] || IsKeyStart(s[0])
    ensures Alternating(Pieces(s)) && Concat(Pieces(s)) == s
    decreases |s|
  {
    if s != [] {
      var k := MatchLen(s);
      var t := s[k + GapLen(s[k..])..];
      RestStartsKey(s);
      PiecesShape(t);
      PiecesShapeStep(s);
    }
  }

  /** What follows the first key and its gap starts the next match. */
  lemma RestStartsKey(s: string)
    requires s != [] && IsKeyStart(s[0])
    ensures var k := MatchLen(s); var g := GapLen(s[k..]);
      var t := s[k + g..]; t == [] || IsKeyStart(t[0])
  {
    var k := MatchLen(s);
    var g := GapLen(s[k..]);
    GapIsGap(s[k..]);
    assert s[k..][g..] == s[k + g..];
  }

  /** One step of `PiecesShape`: from the shape of the rest to the shape of the whole. */
  lemma PiecesShapeStep(s: string)
    requires s != [] && IsKeyStart(s[0])
    requires var k := MatchLen(s); var t := s[k + GapLen(s[k..])..];
      (t == [] || IsKeyStart(t[0])) && Alternating(Pieces(t)) && Concat(Pieces(t)) == t
    ensures Alternating(Pieces(s)) && Concat(Pieces(s)) == s
  {
    var k := MatchLen(s);
    var t := s[k + GapLen(s[k..])..];
    PiecesStep(s);
    PiecesAlternateStep(s, Pieces(t));
    PiecesConcat(s, Pieces(t));
  }

  lemma PiecesAlternateStep(s: string, rest: seq<string>)
    requires s != [] && IsKeyStart(s[0])
    requires var k := MatchLen(s); var t := s[k + GapLen(s[k..])..];
      (t == [] || IsKeyStart(t[0])) && rest == Pieces(t) && Alternating(rest)
    ensures var k := MatchLen(s); Alternating([s[..k], s[k..k + GapLen(s[k..])]] + rest)
  {
    var k := MatchLen(s);
    var g := GapLen(s[k..]);
    var t := s[k + g..];
    GapIsGap(s[k..]);
    assert s[k..][..g] == s[k..k + g];
    MatchIsKey(s);
    if t != [] && s[0] != '*' && g == 0 {
      RunThenStar(s);
      PiecesHead(t);
    }
    AlternatingCons(s[..k], s[k..k + g], rest);
  }

  lemma PiecesConcat(s: string, rest: seq<string>)
    requires s != [] && IsKeyStart(s[0])
    requires var k := MatchLen(s); Concat(rest) == s[k + GapLen(s[k..])..]
    ensures var k := MatchLen(s); var g := GapLen(s[k..]);
      Concat([s[..k], s[k..k + g]] + rest) == s
  {
    var k := MatchLen(s);
    var g := GapLen(s[k..]);
    ConcatPair([s[..k], s[k..k + g]] + rest);
    assert ([s[..k], s[k..k + g]] + rest)[2..] == rest;
    assert s == s[..k] + s[k..k + g] + s[k + g..];
  }

  lemma {:induction false} KeyLenOf(k: string, rest: string)
    requires forall i :: 0 <= i < |k| ==> IsKeyChar(k[i])
    requires rest == [] || !IsKeyChar(rest[0])
    ensures KeyLen(k + rest) == |k|
  {
    if k != [] {
      assert (k + rest)[1..] == k[1..] + rest;
      KeyLenOf(k[1..], rest);
    }
  }

  lemma {:induction false} GapLenOf(g: string, rest: string)
    requires IsGap(g)
    requires rest == [] || IsKeyStart(rest[0])
    ensures GapLen(g + rest) == |g|
  {
    if g != [] {
      assert (g + rest)[1..] == g[1..] + rest;
      GapLenOf(g[1..], rest);
    }
  }

  /** Conversely, an alternating factorisation of a text is its split. */
  lemma {:induction false} PiecesUnique(s: string, ps: seq<string>)
    requires Alternating(ps) && Concat(ps) == s
    ensures s == [] || IsKeyStart(s[0])
    ensures Pieces(s) == ps
    decreases |ps|
  {
    if ps != [] {
      PiecesUnique(Concat(ps[2..]), ps[2..]);
      PiecesUniqueStep(ps);
    }
  }

  /** One step of `PiecesUnique`: a leading key and gap are split off again. */
  lemma PiecesUniqueStep(ps: seq<string>)
    requires ps != [] && Alternating(ps)
    requires var t := Concat(ps[2..]); (t == [] || IsKeyStart(t[0])) && Pieces(t) == ps[2..]
    ensures var s := Concat(ps); (s == [] || IsKeyStart(s[0])) && Pieces(s) == ps
  {
    var k, g, rest := ps[0], ps[1], ps[2..];
    var t := Concat(rest);
    ConcatPair(ps);
    if k != "*" && g == [] && t != [] {
      ConcatHead(rest);
    }
    PairSplit(k, g, t);
    PiecesJoin(k, g, rest);
  }

  lemma PiecesJoin(k: string, g: string, rest: seq<string>)
    requires var s := k + g + Concat(rest); s != [] && IsKeyStart(s[0])
    requires var s := k + g + Concat(rest); MatchLen(s) == |k| && GapLen(s[|k|..]) == |g|
    requires var s := k + g + Concat(rest); s[..|k|] == k && s[|k|..|k| + |g|] == g
    requires var s := k + g + Concat(rest); s[|k| + |g|..] == Concat(rest)
    requires var t := Concat(rest); (t == [] || IsKeyStart(t[0])) && Pieces(t) == rest
    ensures Pieces(k + g + Concat(rest)) == [k, g] + rest
  {
    PiecesStep(k + g + Concat(rest));
  }

  lemma PiecesStep(s: string)
    requires s != [] && IsKeyStart(s[0])
    ensures var k := MatchLen(s); var g := GapLen(s[k..]);
      Pieces(s) == [s[..k], s[k..k + g]] + Pieces(s[k + g..])
  {
  }

  lemma ConcatHead(ps: seq<string>)
    requires ps != [] && ps[0] != []
    ensures Concat(ps) != [] && Concat(ps)[0] == ps[0][0]
  {
  }

  /** A key, a gap and the text of the following pieces split back into the same key and gap. */
  lemma PairSplit(k: string, g: string, t: string)
    requires IsKey(k) && IsGap(g) && (t == [] || IsKeyStart(t[0]))
    requires k != "*" && g == [] && t != [] ==> t[0] == '*'
    ensures var s := k + g + t; s != [] && IsKeyStart(s[0])
    ensures var s := k + g + t; MatchLen(s) == |k| && GapLen(s[|k|..]) == |g|
    ensures var s := k + g + t; s[..|k|] == k && s[|k|..|k| + |g|] == g && s[|k| + |g|..] == t
  {
    var s := k + g + t;
    assert s == k + (g + t);
    assert s[0] == k[0];
    if k != "*" {
      if g != [] {
        assert (g + t)[0] == g[0];
      }
      KeyLenOf(k, g + t);
    }
    assert s[|k|..] == g + t;
    GapLenOf(g, t);
  }

  lemma SplitAt(s: string, n: nat)
    requires n <= |s|
    ensures s == s[..n] + s[n..]
  {
  }

  /** Reference characterisation: the tokens are the only alternating factorisation after a match-free prefix. */
  lemma TokensUnique(s: string, pre: string, ps: seq<string>)
    requires IsGap(pre) && Alternating(ps) && pre + Concat(ps) == s
    ensures Tokens(s) == ps
  {
    var c := Concat(ps);
    PiecesUnique(c, ps);
    GapLenOf(pre, c);
    assert s[|pre|..] == c;
  }

  lemma AlternatingEven(ps: seq<string>)
    requires Alternating(ps)
    ensures |ps| % 2 == 0
    decreases |ps|
  {
    if ps != [] {
      AlternatingEven(ps[2..]);
    }
  }

  // ---------------------------------------------------------------------
  // The parameters of a line
  // ---------------------------------------------------------------------

  /** `{ parts[i]: parts[i+1].strip() for i in range(0, len(parts), 2) }`: later keys win. */
  function ParamsOf(ps: seq<string>): map<string, string>
    decreases |ps|
  {
    if |ps| < 2 then map[] else ParamsOf(ps[..|ps| - 2])[ps[|ps| - 2] := Strip(ps[|ps| - 1])]
  }

  /** Pair `i` of `ps` has key `k`. */
  predicate KeyAt(ps: seq<string>, i: int, k: string)
  {
    0 <= i && 2 * i + 1 < |ps| && ps[2 * i] == k
  }

  /** Dropping the last pair keeps every other pair. */
  lemma KeyAtInit(ps: seq<string>, j: int, k: string)
    requires |ps| >= 2 && |ps| % 2 == 0 && 2 * j != |ps| - 2
    ensures KeyAt(ps, j, k) <==> KeyAt(ps[..|ps| - 2], j, k)
  {
  }

  /** A key of the dictionary is exactly a key of some pair. */
  lemma {:induction false} ParamsKeys(ps: seq<string>, k: string)
    requires |ps| % 2 == 0
    ensures k in ParamsOf(ps) <==> exists j :: KeyAt(ps, j, k)
    decreases |ps|
  {
    if |ps| >= 2 {
      var init := ps[..|ps| - 2];
      var last := |ps| / 2 - 1;
      ParamsKeys(init, k);
      if ps[|ps| - 2] == k {
        assert KeyAt(ps, last, k);
      } else {
        if k in ParamsOf(ps) {
          var j :| KeyAt(init, j, k);
          KeyAtInit(ps, j, k);
        }
        if exists j :: KeyAt(ps, j, k) {
          var j :| KeyAt(ps, j, k);
          KeyAtInit(ps, j, k);
        }
      }
    }
  }

  /** The value of a key is that of the last pair with that key. */
  lemma {:induction false} ParamsLast(ps: seq<string>, k: string, i: nat)
    requires |ps| % 2 == 0
    requires KeyAt(ps, i, k) && forall j :: i < j ==> !KeyAt(ps, j, k)
    ensures k in ParamsOf(ps) && ParamsOf(ps)[k] == Strip(ps[2 * i + 1])
    decreases |ps|
  {
    var init := ps[..|ps| - 2];
    if 2 * i + 2 < |ps| {
      LastPairsInit(ps, k, i);
      ParamsLast(init, k, i);
      ParamsOtherKey(ps, k);
    }
  }

  /** Pairs after `i` that do not have key `k` keep not having it once the last pair is dropped. */
  lemma LastPairsInit(ps: seq<string>, k: string, i: nat)
    requires |ps| % 2 == 0 && 2 * i + 2 < |ps|
    requires KeyAt(ps, i, k) && forall j :: i < j ==> !KeyAt(ps, j, k)
    ensures ps[|ps| - 2] != k
    ensures var init := ps[..|ps| - 2]; |init| % 2 == 0 && KeyAt(init, i, k) && forall j :: i < j ==> !KeyAt(init, j, k)
  {
    var init := ps[..|ps| - 2];
    assert !KeyAt(ps, |ps| / 2 - 1, k);
    KeyAtInit(ps, i, k);
    forall j | i < j
      ensures !KeyAt(init, j, k)
    {
      if 2 * j != |ps| - 2 {
        KeyAtInit(ps, j, k);
      }
    }
  }

  /** A key other than that of the last pair keeps the value it had before that pair. */
  lemma ParamsOtherKey(ps: seq<string>, k: string)
    requires |ps| >= 2 && ps[|ps| - 2] != k
    ensures var init := ps[..|ps| - 2]; k in ParamsOf(ps) <==> k in ParamsOf(init)
    ensures var init := ps[..|ps| - 2]; k in ParamsOf(init) ==> ParamsOf(ps)[k] == ParamsOf(init)[k]
  {
  }

  /** A parsed line: its parameters and the command it names, if any. */
  datatype Line = Line(params: map<string, string>, command: Option<string>)

  /** The text before the first `;` (the whole text when there is none). */
  function CutComment(s: string): (r: string)
    ensures ';' !in r && StartsWith(s, r)
    ensures ';' in s ==> s[|r|] == ';'
    ensures ';' !in s ==> r == s
  {
    match Find(s, ';')
    case None => s
    case Some(i) => s[..i]
  }

  /** The tokens of a line after comment removal and upper-casing. */
  function LineTokens(line: string): seq<string>
  {
    Tokens(Upper(CutComment(Strip(line))))
  }

  /** The tokens after skipping a leading line-number pair. */
  function CommandTokens(parts: seq<string>): seq<string>
  {
    if |parts| >= 1 && parts[0] == "N" then parts[if |parts| < 2 then |parts| else 2..] else parts
  }

  /** The parameters and command of a line, from its stripped text and its tokens. */
  function ParseParts(orig: string, parts: seq<string>): Line
    requires |parts| % 2 == 0
  {
    var params := ParamsOf(parts)["#original" := orig];
    var rest := CommandTokens(parts);
    if rest == [] then Line(params, None)
    else
      var cmd := rest[0] + Strip(rest[1]);
      Line(params["#command" := cmd], Some(cmd))
  }

  /**
   * One iteration of `process_commands` up to the handler lookup.
   * `#original` is the stripped line, comment included, and a command found
   * is also stored as `#command`.
   */
  function ParseLine(line: string): (p: Line)
    ensures "#original" in p.params && p.params["#original"] == Strip(line)
    ensures p.command.Some? ==> "#command" in p.params && p.params["#command"] == p.command.value
  {
    var parts := LineTokens(line);
    AlternatingEven(parts);
    ParseParts(Strip(line), parts)
  }

  /** The tokens of a line alternate. */
  lemma LineTokensShape(line: string)
    ensures Alternating(LineTokens(line)) && |LineTokens(line)| % 2 == 0
    ensures ParseLine(line) == ParseParts(Strip(line), LineTokens(line))
  {
    AlternatingEven(LineTokens(line));
  }

  /** Everything from the first `;` on is ignored: two lines that agree before it parse alike but for `#original`. */
  lemma CommentIgnored(l1: string, l2: string, k: string)
    requires CutComment(Strip(l1)) == CutComment(Strip(l2))
    requires k != "#original"
    ensures ParseLine(l1).command == ParseLine(l2).command
    ensures k in ParseLine(l1).params <==> k in ParseLine(l2).params
    ensures k in ParseLine(l1).params ==> ParseLine(l1).params[k] == ParseLine(l2).params[k]
  {
    LineTokensShape(l1);
    LineTokensShape(l2);
    assert LineTokens(l1) == LineTokens(l2);
    PartsOriginal(Strip(l1), Strip(l2), LineTokens(l1), k);
  }

  /** The stripped text only feeds `#original`. */
  lemma PartsOriginal(o1: string, o2: string, parts: seq<string>, k: string)
    requires |parts| % 2 == 0 && k != "#original"
    ensures ParseParts(o1, parts).command == ParseParts(o2, parts).command
    ensures k in ParseParts(o1, parts).params <==> k in ParseParts(o2, parts).params
    ensures k in ParseParts(o1, parts).params ==> ParseParts(o1, parts).params[k] == ParseParts(o2, parts).params[k]
  {
  }

  /** Every parameter key is `*` or a run of upper-case letters and `_`, or one of the two `#` keys. */
  lemma ParamKeys(line: string, k: string)
    requires k in ParseLine(line).params && k != "#original" && k != "#command"
    ensures IsKey(k)
  {
    var parts := LineTokens(line);
    LineTokensShape(line);
    PartsKey(Strip(line), parts, k);
    ParamsKeys(parts, k);
    var j :| KeyAt(parts, j, k);
    AlternatingKey(parts, j);
  }

  /** A parameter other than the `#` keys comes from the pairs. */
  lemma PartsKey(orig: string, parts: seq<string>, k: string)
    requires |parts| % 2 == 0 && k != "#original" && k != "#command"
    ensures k in ParseParts(orig, parts).params <==> k in ParamsOf(parts)
    ensures k in ParamsOf(parts) ==> ParseParts(orig, parts).params[k] == ParamsOf(parts)[k]
  {
    var m := ParamsOf(parts);
    var rest := CommandTokens(parts);
    if rest == [] {
      assert ParseParts(orig, parts).params == m["#original" := orig];
    } else {
      var cmd := rest[0] + Strip(rest[1]);
      assert ParseParts(orig, parts).params == m["#original" := orig]["#command" := cmd];
    }
  }

  lemma {:induction false} AlternatingKey(ps: seq<string>, j: nat)
    requires Alternating(ps) && 2 * j + 1 < |ps|
    ensures IsKey(ps[2 * j])
    decreases j
  {
    if j > 0 {
      AlternatingKey(ps[2..], j - 1);
      assert ps[2..][2 * (j - 1)] == ps[2 * j];
    }
  }

  /** A line names a command exactly when tokens remain after the line-number pair; the name is the first key and value. */
  lemma ParseCommand(line: string)
    ensures var rest := CommandTokens(LineTokens(line));
      ParseLine(line).command.Some? <==> rest != []
    ensures var rest := CommandTokens(LineTokens(line)); var p := ParseLine(line);
      p.command.Some? ==> (|rest| >= 2 && p.command.value == rest[0] + Strip(rest[1])
        && "#command" in p.params && p.params["#command"] == p.command.value)
  {
    LineTokensShape(line);
    PartsCommand(Strip(line), LineTokens(line));
  }

  lemma PartsCommand(orig: string, parts: seq<string>)
    requires |parts| % 2 == 0
    ensures var rest := CommandTokens(parts);
      ParseParts(orig, parts).command.Some? <==> rest != []
    ensures var rest := CommandTokens(parts); var p := ParseParts(orig, parts);
      p.command.Some? ==> (|rest| >= 2 && p.command.value == rest[0] + Strip(rest[1])
        && "#command" in p.params && p.params["#command"] == p.command.value)
  {
  }

  /** `G1 X10 ; move` names `G1` with `X` = `10`. */
  lemma ExampleMove()
    ensures ParseLine("G1 X10 ; move").command == Some("G1")
    ensures "X" in ParseLine("G1 X10 ; move").params && ParseLine("G1 X10 ; move").params["X"] == "10"
  {
    MoveTokens();
    LineTokensShape("G1 X10 ; move");
    MoveParts(Strip("G1 X10 ; move"));
  }

  lemma MoveTokens()
    ensures LineTokens("G1 X10 ; move") == ["G", "1 ", "X", "10 "]
  {
    StripOfTrimmed("G1 X10 ; move");
    MoveCut();
    MoveUpper();
    MoveSplit();
  }

  lemma MoveUpper()
    ensures Upper("G1 X10 ") == "G1 X10 "
  {
  }

  lemma MoveCut()
    ensures CutComment("G1 X10 ; move") == "G1 X10 "
  {
    var line := "G1 X10 ; move";
    assert line[7] == ';' && line[..7] == "G1 X10 ";
    assert forall i :: 0 <= i < 7 ==> line[i] != ';';
  }

  lemma MoveSplit()
    ensures Tokens("G1 X10 ") == ["G", "1 ", "X", "10 "]
  {
    var ps := ["G", "1 ", "X", "10 "];
    assert Alternating(ps) by {
      assert ps[2..] == ["X", "10 "] && ps[2..][2..] == [];
    }
    assert Concat(ps) == "G1 X10 " by {
      assert ps[1..] == ["1 ", "X", "10 "] && ps[1..][1..] == ["X", "10 "];
      assert ps[1..][1..][1..] == ["10 "] && ps[1..][1..][1..][1..] == [];
    }
    assert "" + "G1 X10 " == "G1 X10 ";
    TokensUnique("G1 X10 ", "", ps);
  }

  lemma MoveParts(orig: string)
    ensures ParseParts(orig, ["G", "1 ", "X", "10 "]).command == Some("G1")
    ensures "X" in ParseParts(orig, ["G", "1 ", "X", "10 "]).params
    ensures ParseParts(orig, ["G", "1 ", "X", "10 "]).params["X"] == "10"
  {
    var ps := ["G", "1 ", "X", "10 "];
    MoveParams();
    StripTrailing("1", "1 ");
    assert CommandTokens(ps) == ps;
    PartsKey(orig, ps, "X");
    PartsCommand(orig, ps);
    assert "G" + "1" == "G1";
  }

  /** Appending a pair sets its key. */
  lemma ParamsSnoc(ps: seq<string>, k: string, v: string)
    ensures ParamsOf(ps + [k, v]) == ParamsOf(ps)[k := Strip(v)]
  {
    assert (ps + [k, v])[..|ps|] == ps;
  }

  lemma MoveParams()
    ensures ParamsOf(["G", "1 ", "X", "10 "]) == map["G" := "1", "X" := "10"]
  {
    StripTrailing("1", "1 ");
    StripTrailing("10", "10 ");
    ParamsSnoc([], "G", "1 ");
    ParamsSnoc(["G", "1 "], "X", "10 ");
    assert [] + ["G", "1 "] == ["G", "1 "];
    assert ["G", "1 "] + ["X", "10 "] == ["G", "1 ", "X", "10 "];
  }

  /** A trimmed word followed by one space strips back to the word. */
  lemma StripTrailing(w: string, s: string)
    requires Trimmed(w) && s == w + " "
    ensures Strip(s) == w
  {
    StripUnique("", w, " ");
    assert "" + w + " " == w + " ";
  }

  /** Lower-case input and a leading line number: `n7 g28` names `G28`. */
  lemma ExampleLineNumber()
    ensures ParseLine("n7 g28").command == Some("G28")
    ensures "N" in ParseLine("n7 g28").params && ParseLine("n7 g28").params["N"] == "7"
  {
    NumberTokens();
    LineTokensShape("n7 g28");
    NumberParts(Strip("n7 g28"));
  }

  lemma NumberTokens()
    ensures LineTokens("n7 g28") == ["N", "7 ", "G", "28"]
  {
    StripOfTrimmed("n7 g28");
    assert CutComment("n7 g28") == "n7 g28";
    NumberUpper();
    NumberSplit();
  }

  lemma NumberUpper()
    ensures Upper("n7 g28") == "N7 G28"
  {
  }

  lemma NumberSplit()
    ensures Tokens("N7 G28") == ["N", "7 ", "G", "28"]
  {
    var ps := ["N", "7 ", "G", "28"];
    assert Alternating(ps) by {
      assert ps[2..] == ["G", "28"] && ps[2..][2..] == [];
    }
    assert Concat(ps) == "N7 G28" by {
      assert ps[1..] == ["7 ", "G", "28"] && ps[1..][1..] == ["G", "28"];
      assert ps[1..][1..][1..] == ["28"] && ps[1..][1..][1..][1..] == [];
    }
    assert "" + "N7 G28" == "N7 G28";
    TokensUnique("N7 G28", "", ps);
  }

  lemma NumberParts(orig: string)
    ensures ParseParts(orig, ["N", "7 ", "G", "28"]).command == Some("G28")
    ensures "N" in ParseParts(orig, ["N", "7 ", "G", "28"]).params
    ensures ParseParts(orig, ["N", "7 ", "G", "28"]).params["N"] == "7"
  {
    var ps := ["N", "7 ", "G", "28"];
    NumberParams();
    StripOfTrimmed("28");
    assert CommandTokens(ps) == ["G", "28"];
    PartsKey(orig, ps, "N");
    PartsCommand(orig, ps);
    assert "G" + "28" == "G28";
  }

  lemma NumberParams()
    ensures ParamsOf(["N", "7 ", "G", "28"]) == map["N" := "7", "G" := "28"]
  {
    StripTrailing("7", "7 ");
    StripOfTrimmed("28");
    ParamsSnoc([], "N", "7 ");
    ParamsSnoc(["N", "7 "], "G", "28");
    assert [] + ["N", "7 "] == ["N", "7 "];
    assert ["N", "7 "] + ["G", "28"] == ["N", "7 ", "G", "28"];
  }

  /** A comment-only line names no command. */
  lemma ExampleComment()
    ensures ParseLine("; hello").command == None
  {
    var line := "; hello";
    StripOfTrimmed(line);
    assert CutComment(line) == "" by { assert line[0] == ';'; }
    assert Upper("") == "";
    assert Tokens("") == [];
    LineTokensShape(line);
  }

  // ---------------------------------------------------------------------
  // Parameter helpers
  // ---------------------------------------------------------------------

  /**
   * `get_str(name, params, default, parser)`: a present key is parsed (a
   * failure is a G-code error), an absent one yields the default when one
   * is given and is otherwise a "missing" error.  The messages quote
   * `#original`; without it the lookup itself fails with a KeyError.
   */
  function GetStr<V>(name: string, params: map<string, string>, default: Option<V>, parser: string -> Option<V>): (r: Result<V>)
    ensures name in params ==> (r.Ok? <==> parser(params[name]).Some?)
    ensures name in params && r.Ok? ==> r.value == parser(params[name]).value
    ensures name !in params ==> (r.Ok? <==> default.Some?)
    ensures name !in params && r.Ok? ==> r.value == default.value
    ensures r.Err? && "#original" in params ==> (r.msg == "Error on '" + params["#original"] + "': "
      + (if name in params then "unable to parse " + params[name] else "missing " + name))
  {
    if name in params then
      match parser(params[name])
      case Some(v) => Ok(v)
      case None =>
        if "#original" in params then Err("Error on '" + params["#original"] + "': unable to parse " + params[name])
        else Err("KeyError: '#original'")
    else if default.Some? then Ok(default.value)
    else if "#original" in params then Err("Error on '" + params["#original"] + "': missing " + name)
    else Err("KeyError: '#original'")
  }

  /** `get_int`: `get_str` with Python's `int()`; a present parameter yields exactly the integer it spells. */
  function GetInt(name: string, params: map<string, string>, default: Option<int>): (r: Result<int>)
    ensures name in params ==> (r.Ok? <==> ParseInt(params[name]).Some?)
    ensures name in params && r.Ok? ==> ParseInt(params[name]) == Some(r.value)
    ensures name !in params ==> (r.Ok? <==> default.Some?) && (r.Ok? ==> r.value == default.value)
  {
    GetStr(name, params, default, ParseInt)
  }

  /** A parameter holding `str(n)` reads back as `n`, whatever the default. */
  lemma GetIntRoundTrip(name: string, params: map<string, string>, n: int, default: Option<int>)
    ensures GetInt(name, params[name := IntToString(n)], default) == Ok(n)
  {
    ParseIntToString(n);
  }

  // ---------------------------------------------------------------------
  // Handler registration
  // ---------------------------------------------------------------------

  /** A handler: the function it calls and whether it is wrapped to parse extended parameters. */
  datatype Handler = Handler(func: string, extended: bool)

  predicate IsUpperChar(c: char)
  {
    'A' <= c <= 'Z'
  }

  /** The wrapper is skipped only for names like `g1`: two characters or more, not upper-case, then a digit. */
  predicate Extended(cmd: string)
  {
    !(|cmd| >= 2 && !IsUpperChar(cmd[0]) && IsDigit(cmd[1]))
  }

  /** Every name starting with an upper-case letter is wrapped, `G1` included. */
  lemma UpperNamesExtended(cmd: string)
    requires |cmd| >= 1 && IsUpperChar(cmd[0])
    ensures Extended(cmd)
  {
  }

  /** The three tables `register_command` fills: ready handlers, not-ready handlers, help texts. */
  datatype Tables = Tables(ready: map<string, Handler>, base: map<string, Handler>, help: map<string, string>)

  /** `register_command(cmd, func, when_not_ready, desc)`. */
  function Register(t: Tables, cmd: string, func: string, whenNotReady: bool, desc: Option<string>): (r: Tables)
    ensures cmd in r.ready && r.ready[cmd] == Handler(func, Extended(cmd))
    ensures cmd in r.base <==> whenNotReady || cmd in t.base
    ensures whenNotReady ==> r.base[cmd] == r.ready[cmd]
    ensures !whenNotReady && cmd in t.base ==> r.base[cmd] == t.base[cmd]
    ensures cmd in r.help <==> desc.Some? || cmd in t.help
    ensures cmd in r.help ==> r.help[cmd] == if desc.Some? then desc.value else t.help[cmd]
    ensures forall c :: c != cmd ==> (c in r.ready <==> c in t.ready) && (c in r.ready ==> r.ready[c] == t.ready[c])
    ensures forall c :: c != cmd ==> (c in r.base <==> c in t.base) && (c in r.base ==> r.base[c] == t.base[c])
    ensures forall c :: c != cmd ==> (c in r.help <==> c in t.help) && (c in r.help ==> r.help[c] == t.help[c])
  {
    var h := Handler(func, Extended(cmd));
    Tables(t.ready[cmd := h], if whenNotReady then t.base[cmd := h] else t.base,
      if desc.Some? then t.help[cmd := desc.value] else t.help)
  }

  /** Every command usable before the printer is ready stays usable after. */
  predicate BaseInReady(t: Tables)
  {
    forall c :: c in t.base ==> c in t.ready
  }

  lemma RegisterKeepsBaseInReady(t: Tables, cmd: string, func: string, whenNotReady: bool, desc: Option<string>)
    requires BaseInReady(t)
    ensures BaseInReady(Register(t, cmd, func, whenNotReady, desc))
  {
  }

  /** An entry of the class's `all_handlers` list with its `_when_not_ready`, `_help` and `_aliases` attributes. */
  datatype Builtin = Builtin(name: string, whenNotReady: bool, help: Option<string>, aliases: seq<string>)

  function B(name: string): Builtin
  {
    Builtin(name, false, None, [])
  }

  const BUILTINS: seq<Builtin> := [
    Builtin("G1", false, None, ["G0"]), B("G2"), B("G3"), B("G4"), B("G10"), B("G11"), B("G20"), B("G28"), B("G29"),
    B("G90"), B("G91"), B("G92"),
    B("M0"), B("M1"), Builtin("M18", false, None, ["M84"]), B("M37"), B("M82"), B("M83"),
    B("M104"), Builtin("M105", true, None, []), B("M106"), B("M107"), B("M109"),
    Builtin("M112", true, None, []), Builtin("M114", true, None, []), Builtin("M115", true, None, []), B("M118"),
    B("M140"), B("M190"),
    B("M206"), B("M220"), B("M221"), B("M290"),
    B("M302"),
    B("M400"),
    B("M550"),
    B("M851"),
    B("M900"), B("M906"),
    Builtin("IGNORE", true, None, ["G21", "M21", "M110", "M120", "M121", "M122", "M141",
      "M291", "M292", "M752", "M753", "M754", "M755", "M756", "M997"]),
    Builtin("QUERY_ENDSTOPS", false, Some("Report on the status of each endstop"), ["M119"]),
    Builtin("PID_TUNE", false, Some("Run PID Tuning"), ["M303"]),
    Builtin("RESTART", true, Some("Reload config file and restart host software"), []),
    Builtin("FIRMWARE_RESTART", true, Some("Restart firmware, host, and reload config"), ["M999"]),
    Builtin("ECHO", true, None, []),
    Builtin("STATUS", true, Some("Report the printer status"), []),
    Builtin("HELP", true, None, [])
  ]

  /** Registering a name and then its aliases, which share its function and readiness but carry no help. */
  function RegisterAliases(t: Tables, aliases: seq<string>, func: string, whenNotReady: bool): Tables
    decreases |aliases|
  {
    if aliases == [] then t
    else RegisterAliases(Register(t, aliases[0], func, whenNotReady, None), aliases[1..], func, whenNotReady)
  }

  function RegisterBuiltin(t: Tables, b: Builtin): Tables
  {
    RegisterAliases(Register(t, b.name, "cmd_" + b.name, b.whenNotReady, b.help), b.aliases, "cmd_" + b.name, b.whenNotReady)
  }

  /**
   * The tables after the constructor's registration loop over the first
   * entries: every entry's name and every alias is a ready command, those of
   * a `_when_not_ready` entry are also usable before the printer is ready,
   * and every command usable before the printer is ready is also usable after.
   */
  function RegisterBuiltins(bs: seq<Builtin>): (r: Tables)
    ensures BaseInReady(r)
    ensures forall i | 0 <= i < |bs| :: bs[i].name in r.ready
    ensures forall i, j | 0 <= i < |bs| && 0 <= j < |bs[i].aliases| :: bs[i].aliases[j] in r.ready
    ensures forall i | 0 <= i < |bs| && bs[i].whenNotReady :: bs[i].name in r.base
    ensures forall i, j | 0 <= i < |bs| && bs[i].whenNotReady && 0 <= j < |bs[i].aliases| :: bs[i].aliases[j] in r.base
    decreases |bs|
  {
    if bs == [] then Tables(map[], map[], map[])
    else
      var b := bs[|bs| - 1];
      var t := RegisterBuiltins(bs[..|bs| - 1]);
      var func := "cmd_" + b.name;
      var t1 := Register(t, b.name, func, b.whenNotReady, b.help);
      RegisterKeepsBaseInReady(t, b.name, func, b.whenNotReady, b.help);
      RegisterAliasesKeeps(t1, b.aliases, func, b.whenNotReady);
      RegisterAliasesKeepsNames(t1, b.aliases, func, b.whenNotReady);
      assert forall i | 0 <= i < |bs| - 1 :: bs[..|bs| - 1][i] == bs[i];
      RegisterBuiltin(t, b)
  }

  /** With the constructor's list, the emergency stop `M112` and the firmware-restart alias `M999` work before the printer is ready. */
  lemma BuiltinBaseCommands(bs: seq<Builtin>)
    requires bs == BUILTINS
    ensures "M112" in RegisterBuiltins(bs).base && "M999" in RegisterBuiltins(bs).base
  {
    assert bs[23].name == "M112" && bs[23].whenNotReady;
    assert bs[43].aliases[0] == "M999" && bs[43].whenNotReady;
  }

  /**
   * Registering aliases removes no command from either table, and makes
   * every alias a ready command, and a not-ready one with `when_not_ready`.
   */
  lemma {:induction false} RegisterAliasesKeepsNames(t: Tables, aliases: seq<string>, func: string, whenNotReady: bool)
    ensures var r := RegisterAliases(t, aliases, func, whenNotReady);
      (forall c :: c in t.ready ==> c in r.ready) && (forall c :: c in t.base ==> c in r.base)
    ensures var r := RegisterAliases(t, aliases, func, whenNotReady);
      forall j | 0 <= j < |aliases| :: aliases[j] in r.ready && (whenNotReady ==> aliases[j] in r.base)
    decreases |aliases|
  {
    if aliases != [] {
      var t1 := Register(t, aliases[0], func, whenNotReady, None);
      RegisterAliasesKeepsNames(t1, aliases[1..], func, whenNotReady);
      assert forall j | 1 <= j < |aliases| :: aliases[j] == aliases[1..][j - 1];
    }
  }

  lemma {:induction false} RegisterAliasesKeeps(t: Tables, aliases: seq<string>, func: string, whenNotReady: bool)
    requires BaseInReady(t)
    ensures BaseInReady(RegisterAliases(t, aliases, func, whenNotReady))
    decreases |aliases|
  {
    if aliases != [] {
      RegisterKeepsBaseInReady(t, aliases[0], func, whenNotReady, None);
      RegisterAliasesKeeps(Register(t, aliases[0], func, whenNotReady, None), aliases[1..], func, whenNotReady);
    }
  }


  // ---------------------------------------------------------------------
  // Responses and the per-line state machine
  // ---------------------------------------------------------------------

  /** Which table `gcode_handlers` currently aliases. */
  datatype Table = BaseTable | ReadyTable

  /** What a line dispatches to: a registered handler or `cmd_default`. */
  datatype Target = Registered(handler: Handler) | Default

  datatype Call = Call(target: Target, params: map<string, string>)

  /**
   * What a handler does, as far as this module sees it: returns after
   * `respond`-ing some lines and perhaps calling `ack(msg)` itself, raises a
   * G-code `error`, or raises anything else.
   */
  datatype Outcome = Returned(replies: seq<string>, ack: Option<string>) | Raised(msg: string) | Crashed

  /** A write to the output: an acknowledgement or any other response line. */
  datatype Write = AckLine(text: string) | Reply(text: string)

  /** The part of the parser that `process_commands` changes. */
  datatype ParserState = ParserState(
    ready: bool, active: Table, needAck: bool, out: seq<Write>, txSeq: nat,
    calls: seq<Call>, shutdowns: seq<string>, exitRequested: bool)

  /** `respond(msg)`: nothing for file input. */
  function Said(st: ParserState, fileinput: bool, msg: string): ParserState
  {
    if fileinput then st else st.(out := st.out + [Reply(msg + "\n")], txSeq := st.txSeq + 1)
  }

  function SaidAll(st: ParserState, fileinput: bool, msgs: seq<string>): ParserState
    decreases |msgs|
  {
    if msgs == [] then st else Said(SaidAll(st, fileinput, msgs[..|msgs| - 1]), fileinput, msgs[|msgs| - 1])
  }

  function StripAll(ls: seq<string>): (r: seq<string>)
    ensures |r| == |ls| && forall i :: 0 <= i < |ls| ==> r[i] == Strip(ls[i])
  {
    if ls == [] then [] else [Strip(ls[0])] + StripAll(ls[1..])
  }

  /** The text `respond_info(msg)` responds: each stripped line prefixed by `// `. */
  function InfoText(msg: string): string
  {
    "// " + Join(StripAll(SplitOn(Strip(msg), '\n')), "\n// ")
  }

  /** `respond_error(msg)`: all but the last line as info, then the last line after `!! `. */
  function ErrorSaid(st: ParserState, fileinput: bool, msg: string): ParserState
  {
    var lines := SplitOn(Strip(msg), '\n');
    var st1 := if |lines| > 1 then Said(st, fileinput, InfoText(Join(lines[..|lines| - 1], "\n"))) else st;
    Said(st1, fileinput, "!! " + Strip(lines[|lines| - 1]))
  }

  /** The acknowledgement text: `ok` alone for no message or an empty one. */
  function AckText(msg: Option<string>): string
  {
    if msg.Some? && msg.value != "" then "ok " + msg.value + "\n" else "ok\n"
  }

  /** `ack(msg)`: one `ok` if one is owed and the input is not a file, and then none is owed. */
  function Acked(st: ParserState, fileinput: bool, msg: Option<string>): ParserState
  {
    if !st.needAck || fileinput then st
    else st.(out := st.out + [AckLine(AckText(msg))], txSeq := st.txSeq + 1, needAck := false)
  }

  /** `do_shutdown()`: a no-op when not ready, else back to the not-ready table (and exit for file input). */
  function ShutDown(st: ParserState, fileinput: bool): ParserState
  {
    if !st.ready then st
    else st.(ready := false, active := BaseTable, exitRequested := st.exitRequested || fileinput, txSeq := st.txSeq + 1)
  }

  function ActiveHandlers(active: Table, ready: map<string, Handler>, base: map<string, Handler>): map<string, Handler>
  {
    if active == BaseTable then base else ready
  }

  /** The handler call of a line: `gcode_handlers.get(cmd, cmd_default)`, or `cmd_default` without a command. */
  function LineCall(active: Table, line: string, ready: map<string, Handler>, base: map<string, Handler>): (c: Call)
    ensures c.params == ParseLine(line).params
    ensures c.target.Default? <==> ParseLine(line).command.None? || ParseLine(line).command.value !in ActiveHandlers(active, ready, base)
  {
    var p := ParseLine(line);
    var handlers := ActiveHandlers(active, ready, base);
    if p.command.Some? && p.command.value in handlers then Call(Registered(handlers[p.command.value]), p.params)
    else Call(Default, p.params)
  }

  /** The message of an unexpected exception in a handler. */
  function InternalError(cmd: string): string
  {
    "Internal error on command:\"" + cmd + "\""
  }

  /**
   * One line of `process_commands`.  Without a command, `cmd_default` runs
   * with `need_ack` untouched and its responses written; it raises nothing
   * there.  Otherwise `need_ack` is set, the handler runs, and a clean return
   * is acknowledged, a G-code error is reported, and any other exception
   * shuts the printer down (which switches this parser back to the
   * not-ready table) and is reported.
   */
  function RunLine(st: ParserState, line: string, ackWanted: bool, fileinput: bool,
                   ready: map<string, Handler>, base: map<string, Handler>, run: Call -> Outcome): (r: ParserState)
    ensures r.calls == st.calls + [LineCall(st.active, line, ready, base)]
  {
    var call := LineCall(st.active, line, ready, base);
    DispatchedCalls(st.(calls := st.calls + [call]), fileinput, ParseLine(line).command, ackWanted, run(call));
    Dispatched(st.(calls := st.calls + [call]), fileinput, ParseLine(line).command, ackWanted, run(call))
  }

  /** A line is its handler call, recorded, followed by what the outcome calls for. */
  lemma RunLineDispatches(st: ParserState, line: string, ackWanted: bool, fileinput: bool,
                          ready: map<string, Handler>, base: map<string, Handler>, run: Call -> Outcome)
    ensures var call := LineCall(st.active, line, ready, base);
      RunLine(st, line, ackWanted, fileinput, ready, base, run)
      == Dispatched(st.(calls := st.calls + [call]), fileinput, ParseLine(line).command, ackWanted, run(call))
  {
  }

  /** What follows the handler call of a line with command `cmd`, once the call is recorded. */
  function Dispatched(st: ParserState, fileinput: bool, cmd: Option<string>, ackWanted: bool, o: Outcome): ParserState
  {
    if cmd.None? then
      match o
      case Returned(replies, _) => SaidAll(st, fileinput, replies)
      case _ => st
    else Finished(st.(needAck := ackWanted), fileinput, cmd.value, o)
  }

  /** What follows the handler call records no further call. */
  lemma DispatchedCalls(st: ParserState, fileinput: bool, cmd: Option<string>, ackWanted: bool, o: Outcome)
    ensures Dispatched(st, fileinput, cmd, ackWanted, o).calls == st.calls
  {
    if cmd.None? {
      if o.Returned? {
        SaidAllCalls(st, fileinput, o.replies);
      }
    } else {
      FinishedCalls(st.(needAck := ackWanted), fileinput, cmd.value, o);
    }
  }

  /** What follows the handler call of command `cmd`, by outcome. */
  function Finished(st: ParserState, fileinput: bool, cmd: string, o: Outcome): ParserState
  {
    match o
    case Returned(replies, ack) => Completed(st, fileinput, replies, ack)
    case Raised(msg) => ErrorSaid(st, fileinput, msg)
    case Crashed => Crash(st, fileinput, cmd)
  }

  /** A clean return: the handler's responses, its own `ack(msg)` if any, then the default `ack()`. */
  function Completed(st: ParserState, fileinput: bool, replies: seq<string>, ack: Option<string>): ParserState
  {
    var st2 := SaidAll(st, fileinput, replies);
    var st3 := if ack.Some? then Acked(st2, fileinput, ack) else st2;
    Acked(st3, fileinput, None)
  }

  /** An unexpected exception: the printer shuts down, then the error is reported. */
  function Crash(st: ParserState, fileinput: bool, cmd: string): ParserState
  {
    var msg := InternalError(cmd);
    ErrorSaid(ShutDown(st.(shutdowns := st.shutdowns + [msg]), fileinput), fileinput, msg)
  }

  /** The lines of a batch, in order: each records exactly one handler call, after those recorded before. */
  function RunLines(st: ParserState, lines: seq<string>, ackWanted: bool, fileinput: bool,
                    ready: map<string, Handler>, base: map<string, Handler>, run: Call -> Outcome): (r: ParserState)
    ensures |r.calls| == |st.calls| + |lines| && r.calls[..|st.calls|] == st.calls
    decreases |lines|
  {
    if lines == [] then st
    else
      var mid := RunLines(st, lines[..|lines| - 1], ackWanted, fileinput, ready, base, run);
      var call := LineCall(mid.active, lines[|lines| - 1], ready, base);
      assert (mid.calls + [call])[..|st.calls|] == st.calls;
      RunLine(mid, lines[|lines| - 1], ackWanted, fileinput, ready, base, run)
  }

  /** The batch up to line `i` inclusive is the batch before it followed by line `i`. */
  lemma RunLinesStep(st: ParserState, lines: seq<string>, i: nat, ackWanted: bool, fileinput: bool,
                     ready: map<string, Handler>, base: map<string, Handler>, run: Call -> Outcome)
    requires i < |lines|
    ensures RunLines(st, lines[..i + 1], ackWanted, fileinput, ready, base, run)
         == RunLine(RunLines(st, lines[..i], ackWanted, fileinput, ready, base, run), lines[i], ackWanted, fileinput, ready, base, run)
  {
    assert lines[..i + 1][..i] == lines[..i];
  }

  /** A state one line past the batch up to line `i` is the batch up to line `i` inclusive. */
  lemma BatchStep(st: ParserState, lines: seq<string>, i: nat, ackWanted: bool, fileinput: bool,
                  ready: map<string, Handler>, base: map<string, Handler>, run: Call -> Outcome,
                  before: ParserState, after: ParserState)
    requires i < |lines|
    requires before == RunLines(st, lines[..i], ackWanted, fileinput, ready, base, run)
    requires after == RunLine(before, lines[i], ackWanted, fileinput, ready, base, run)
    ensures after == RunLines(st, lines[..i + 1], ackWanted, fileinput, ready, base, run)
  {
    RunLinesStep(st, lines, i, ackWanted, fileinput, ready, base, run);
  }

  // ----- acknowledgement count -----

  function CountAcks(ws: seq<Write>): nat
    decreases |ws|
  {
    if ws == [] then 0 else CountAcks(ws[..|ws| - 1]) + (if ws[|ws| - 1].AckLine? then 1 else 0)
  }

  lemma CountReply(ws: seq<Write>, t: string)
    ensures CountAcks(ws + [Reply(t)]) == CountAcks(ws)
  {
    assert (ws + [Reply(t)])[..|ws|] == ws;
  }

  lemma CountAckLine(ws: seq<Write>, t: string)
    ensures CountAcks(ws + [AckLine(t)]) == CountAcks(ws) + 1
  {
    assert (ws + [AckLine(t)])[..|ws|] == ws;
  }

  lemma SaidNoOk(st: ParserState, fileinput: bool, msg: string)
    ensures var st' := Said(st, fileinput, msg);
      CountAcks(st'.out) == CountAcks(st.out) && st'.needAck == st.needAck
  {
    if !fileinput {
      CountReply(st.out, msg + "\n");
    }
  }

  lemma {:induction false} SaidAllNoOk(st: ParserState, fileinput: bool, msgs: seq<string>)
    ensures var st' := SaidAll(st, fileinput, msgs);
      CountAcks(st'.out) == CountAcks(st.out) && st'.needAck == st.needAck
    decreases |msgs|
  {
    if msgs != [] {
      SaidAllNoOk(st, fileinput, msgs[..|msgs| - 1]);
      SaidNoOk(SaidAll(st, fileinput, msgs[..|msgs| - 1]), fileinput, msgs[|msgs| - 1]);
    }
  }

  lemma ErrorSaidNoOk(st: ParserState, fileinput: bool, msg: string)
    ensures CountAcks(ErrorSaid(st, fileinput, msg).out) == CountAcks(st.out)
  {
    var lines := SplitOn(Strip(msg), '\n');
    var st1 := if |lines| > 1 then Said(st, fileinput, InfoText(Join(lines[..|lines| - 1], "\n"))) else st;
    if |lines| > 1 {
      SaidNoOk(st, fileinput, InfoText(Join(lines[..|lines| - 1], "\n")));
    }
    SaidNoOk(st1, fileinput, "!! " + Strip(lines[|lines| - 1]));
  }

  lemma AckedCount(st: ParserState, fileinput: bool, msg: Option<string>)
    ensures var st' := Acked(st, fileinput, msg);
      CountAcks(st'.out) == CountAcks(st.out) + (if st.needAck && !fileinput then 1 else 0)
      && (st'.needAck <==> st.needAck && fileinput)
  {
    if st.needAck && !fileinput {
      CountAckLine(st.out, AckText(msg));
    }
  }

  /**
   * At most one `ok` per line: exactly one when the line names a command,
   * an acknowledgement was asked for, the input is not a file and the
   * handler returned; none otherwise.
   */
  lemma OneAckPerCommand(st: ParserState, line: string, ackWanted: bool, fileinput: bool,
                         ready: map<string, Handler>, base: map<string, Handler>, run: Call -> Outcome)
    ensures var st' := RunLine(st, line, ackWanted, fileinput, ready, base, run);
      var call := LineCall(st.active, line, ready, base);
      CountAcks(st'.out) == CountAcks(st.out)
        + (if ParseLine(line).command.Some? && ackWanted && !fileinput && run(call).Returned? then 1 else 0)
  {
    var p := ParseLine(line);
    var call := LineCall(st.active, line, ready, base);
    if p.command.None? {
      if run(call).Returned? {
        SaidAllNoOk(st.(calls := st.calls + [call]), fileinput, run(call).replies);
      }
    } else {
      FinishedCount(st.(needAck := ackWanted, calls := st.calls + [call]), fileinput, p.command.value, run(call));
    }
  }

  /** After a handler call, one `ok` exactly when it returned and one was owed on a non-file input. */
  lemma FinishedCount(st: ParserState, fileinput: bool, cmd: string, o: Outcome)
    ensures CountAcks(Finished(st, fileinput, cmd, o).out) == CountAcks(st.out) + (if o.Returned? && st.needAck && !fileinput then 1 else 0)
  {
    match o
    case Returned(replies, ack) =>
      var st2 := SaidAll(st, fileinput, replies);
      SaidAllNoOk(st, fileinput, replies);
      var st3 := if ack.Some? then Acked(st2, fileinput, ack) else st2;
      if ack.Some? {
        AckedCount(st2, fileinput, ack);
      }
      AckedCount(st3, fileinput, None);
    case Raised(msg) =>
      ErrorSaidNoOk(st, fileinput, msg);
    case Crashed =>
      var msg := InternalError(cmd);
      ErrorSaidNoOk(ShutDown(st.(shutdowns := st.shutdowns + [msg]), fileinput), fileinput, msg);
  }

  /** A batch writes no more acknowledgements than it has lines. */
  lemma {:induction false} BatchAcks(st: ParserState, lines: seq<string>, ackWanted: bool, fileinput: bool,
                                     ready: map<string, Handler>, base: map<string, Handler>, run: Call -> Outcome)
    ensures CountAcks(RunLines(st, lines, ackWanted, fileinput, ready, base, run).out) <= CountAcks(st.out) + |lines|
    ensures !ackWanted || fileinput ==> CountAcks(RunLines(st, lines, ackWanted, fileinput, ready, base, run).out) == CountAcks(st.out)
    decreases |lines|
  {
    if lines != [] {
      var init := lines[..|lines| - 1];
      BatchAcks(st, init, ackWanted, fileinput, ready, base, run);
      OneAckPerCommand(RunLines(st, init, ackWanted, fileinput, ready, base, run), lines[|lines| - 1],
                       ackWanted, fileinput, ready, base, run);
    }
  }

  /** A line records its handler call, after the calls before it. */

  lemma FinishedCalls(st: ParserState, fileinput: bool, cmd: string, o: Outcome)
    ensures Finished(st, fileinput, cmd, o).calls == st.calls
  {
    match o
    case Returned(replies, ack) =>
      SaidAllCalls(st, fileinput, replies);
    case Raised(msg) =>
      ErrorSaidCalls(st, fileinput, msg);
    case Crashed =>
      var msg := InternalError(cmd);
      ErrorSaidCalls(ShutDown(st.(shutdowns := st.shutdowns + [msg]), fileinput), fileinput, msg);
  }

  /** Each line records exactly one handler call. */

  lemma {:induction false} SaidAllCalls(st: ParserState, fileinput: bool, msgs: seq<string>)
    ensures SaidAll(st, fileinput, msgs).calls == st.calls
    ensures SaidAll(st, fileinput, msgs).active == st.active
    decreases |msgs|
  {
    if msgs != [] {
      SaidAllCalls(st, fileinput, msgs[..|msgs| - 1]);
    }
  }

  lemma ErrorSaidCalls(st: ParserState, fileinput: bool, msg: string)
    ensures ErrorSaid(st, fileinput, msg).calls == st.calls
  {
  }

  // ---------------------------------------------------------------------
  // The parser object
  // ---------------------------------------------------------------------

  /** The registration loop of `__init__`: every entry, then its aliases, from empty tables. */
  method RegisterAll(bs: seq<Builtin>) returns (t: Tables)
    ensures t == RegisterBuiltins(bs)
  {
    t := Tables(map[], map[], map[]);
    var i := 0;
    while i < |bs|
      invariant 0 <= i <= |bs|
      invariant t == RegisterBuiltins(bs[..i])
    {
      var b := bs[i];
      var func := "cmd_" + b.name;
      t := Register(t, b.name, func, b.whenNotReady, b.help);
      var j := 0;
      ghost var mid := t;
      while j < |b.aliases|
        invariant 0 <= j <= |b.aliases|
        invariant RegisterAliases(t, b.aliases[j..], func, b.whenNotReady) == RegisterAliases(mid, b.aliases, func, b.whenNotReady)
      {
        t := Register(t, b.aliases[j], func, b.whenNotReady, None);
        assert b.aliases[j..][1..] == b.aliases[j + 1..];
        j := j + 1;
      }
      assert bs[..i + 1][..i] == bs[..i];
      i := i + 1;
    }
    assert bs[..|bs|] == bs;
  }

  class GCodeParser {
    /** Input comes from a file (`debuginput`): responses are suppressed. */
    const isFileinput: bool
    /** The class attribute `all_handlers` with each command's aliases and help. */
    const allHandlers: seq<Builtin>
    var isPrinterReady: bool
    var readyHandlers: map<string, Handler>
    var baseHandlers: map<string, Handler>
    /** `gcode_handlers` is an alias of one of the two tables. */
    var active: Table
    var help: map<string, string>
    var needAck: bool
    var absoluteCoord: bool
    var absoluteExtrude: bool
    /** Everything written to the output, in order. */
    var out: seq<Write>
    /** The module-level `tx_sequenceno`. */
    var txSeq: nat
    /** Every handler call made, in order. */
    var calls: seq<Call>
    /** Messages passed to the printer's `invoke_shutdown`. */
    var shutdowns: seq<string>
    /** The printer's `request_exit()` was called. */
    var exitRequested: bool

    function Snapshot(): ParserState
      reads this`isPrinterReady, this`active, this`needAck, this`out, this`txSeq, this`calls, this`shutdowns, this`exitRequested
    {
      ParserState(isPrinterReady, active, needAck, out, txSeq, calls, shutdowns, exitRequested)
    }

    function RegisteredTables(): Tables
      reads this`readyHandlers, this`baseHandlers, this`help
    {
      Tables(readyHandlers, baseHandlers, help)
    }

    /** `gcode_handlers`. */
    function Handlers(): map<string, Handler>
      reads this`active, this`readyHandlers, this`baseHandlers
    {
      ActiveHandlers(active, readyHandlers, baseHandlers)
    }

    /**
     * `__init__`: the registration loop over `all_handlers` (passed in as
     * `handlers`; the printer passes `BUILTINS`) and their aliases, then
     * the initial modes.
     */
    constructor(fileinput: bool, handlers: seq<Builtin>)
      ensures isFileinput == fileinput && !isPrinterReady && active == BaseTable && !needAck
      ensures allHandlers == handlers && RegisteredTables() == RegisterBuiltins(handlers)
      ensures absoluteCoord && absoluteExtrude
      ensures out == [] && calls == [] && shutdowns == [] && !exitRequested && txSeq == 0
    {
      isFileinput := fileinput;
      allHandlers := handlers;
      isPrinterReady := false;
      var t := RegisterAll(handlers);
      readyHandlers, baseHandlers, help := t.ready, t.base, t.help;
      active := BaseTable;
      out, txSeq, calls, shutdowns, exitRequested := [], 0, [], [], false;
      needAck := false;
      absoluteCoord, absoluteExtrude := true, true;
    }

    /** `register_command`. */
    method RegisterCommand(cmd: string, func: string, whenNotReady: bool, desc: Option<string>)
      modifies this`readyHandlers, this`baseHandlers, this`help
      ensures RegisteredTables() == Register(old(RegisteredTables()), cmd, func, whenNotReady, desc)
    {
      var f := Handler(func, Extended(cmd));
      readyHandlers := readyHandlers[cmd := f];
      if whenNotReady {
        baseHandlers := baseHandlers[cmd := f];
      }
      if desc.Some? {
        help := help[cmd := desc.value];
      }
    }

    /** `connect`: from now on the ready table answers. */
    method Connect()
      modifies this`isPrinterReady, this`active, this`txSeq
      ensures isPrinterReady && active == ReadyTable && txSeq == old(txSeq) + 1
      ensures Handlers() == readyHandlers
    {
      isPrinterReady := true;
      active := ReadyTable;
      txSeq := txSeq + 1;
    }

    /** `do_shutdown`. */
    method DoShutdown()
      modifies this`isPrinterReady, this`active, this`exitRequested, this`txSeq
      ensures Snapshot() == ShutDown(old(Snapshot()), isFileinput)
      ensures old(isPrinterReady) ==> Handlers() == baseHandlers
    {
      if !isPrinterReady {
        return;
      }
      isPrinterReady := false;
      active := BaseTable;
      if isFileinput {
        exitRequested := true;
      }
      txSeq := txSeq + 1;
    }

    method Respond(msg: string)
      modifies this`out, this`txSeq
      ensures Snapshot() == Said(old(Snapshot()), isFileinput, msg)
    {
      if isFileinput {
        return;
      }
      out := out + [Reply(msg + "\n")];
      txSeq := txSeq + 1;
    }

    method RespondError(msg: string)
      modifies this`out, this`txSeq
      ensures Snapshot() == ErrorSaid(old(Snapshot()), isFileinput, msg)
    {
      var lines := SplitOn(Strip(msg), '\n');
      if |lines| > 1 {
        Respond(InfoText(Join(lines[..|lines| - 1], "\n")));
      }
      Respond("!! " + Strip(lines[|lines| - 1]));
    }

    method Ack(msg: Option<string>)
      modifies this`out, this`txSeq, this`needAck
      ensures Snapshot() == Acked(old(Snapshot()), isFileinput, msg)
    {
      if !needAck || isFileinput {
        return;
      }
      out := out + [AckLine(AckText(msg))];
      txSeq := txSeq + 1;
      needAck := false;
    }

    /** The responses a handler wrote, in order. */
    method RespondAll(msgs: seq<string>)
      modifies this`out, this`txSeq
      ensures Snapshot() == SaidAll(old(Snapshot()), isFileinput, msgs)
    {
      var i := 0;
      while i < |msgs|
        invariant 0 <= i <= |msgs|
        invariant Snapshot() == SaidAll(old(Snapshot()), isFileinput, msgs[..i])
      {
        Respond(msgs[i]);
        assert msgs[..i + 1][..i] == msgs[..i];
        i := i + 1;
      }
      assert msgs[..|msgs|] == msgs;
    }

    /** One iteration of the loop of `process_commands`. */
    method ProcessLine(line: string, ackWanted: bool, run: Call -> Outcome)
      modifies this`isPrinterReady, this`active, this`needAck, this`out, this`txSeq, this`calls, this`shutdowns, this`exitRequested
      ensures Snapshot() == RunLine(old(Snapshot()), line, ackWanted, isFileinput, readyHandlers, baseHandlers, run)
    {
      ghost var st0 := Snapshot();
      var cmd, call := LineCommand(line, active, readyHandlers, baseHandlers);
      RecordAndDispatch(cmd, call, ackWanted, run(call));
      RunLineDispatches(st0, line, ackWanted, isFileinput, readyHandlers, baseHandlers, run);
    }

    /** The command of a line and the handler call it makes. */
    static method LineCommand(line: string, active: Table, ready: map<string, Handler>, base: map<string, Handler>)
      returns (cmd: Option<string>, call: Call)
      ensures cmd == ParseLine(line).command && call == LineCall(active, line, ready, base)
    {
      cmd := ParseLine(line).command;
      call := LineCall(active, line, ready, base);
    }

    /** The handler call is recorded, then the rest of the iteration follows its outcome. */
    method RecordAndDispatch(cmd: Option<string>, call: Call, ackWanted: bool, o: Outcome)
      modifies this`isPrinterReady, this`active, this`needAck, this`out, this`txSeq, this`calls, this`shutdowns, this`exitRequested
      ensures Snapshot() == Dispatched(old(Snapshot()).(calls := old(calls) + [call]), isFileinput, cmd, ackWanted, o)
    {
      calls := calls + [call];
      Dispatch(cmd, ackWanted, o);
    }

    /** The rest of one iteration, once the handler has been called. */
    method Dispatch(cmd: Option<string>, ackWanted: bool, o: Outcome)
      modifies this`isPrinterReady, this`active, this`needAck, this`out, this`txSeq, this`shutdowns, this`exitRequested
      ensures Snapshot() == Dispatched(old(Snapshot()), isFileinput, cmd, ackWanted, o)
    {
      if cmd.None? {
        if o.Returned? {
          RespondAll(o.replies);
        }
      } else {
        needAck := ackWanted;
        Finish(cmd.value, o);
      }
    }

    method Finish(cmd: string, o: Outcome)
      modifies this`isPrinterReady, this`active, this`needAck, this`out, this`txSeq, this`shutdowns, this`exitRequested
      ensures Snapshot() == Finished(old(Snapshot()), isFileinput, cmd, o)
    {
      match o {
        case Returned(replies, ack) =>
          FinishReturned(replies, ack);
        case Raised(msg) =>
          RespondError(msg);
        case Crashed =>
          FinishCrashed(cmd);
      }
    }

    method FinishReturned(replies: seq<string>, ack: Option<string>)
      modifies this`out, this`txSeq, this`needAck
      ensures Snapshot() == Completed(old(Snapshot()), isFileinput, replies, ack)
    {
      RespondAll(replies);
      if ack.Some? {
        Ack(ack);
      }
      Ack(None);
    }

    method FinishCrashed(cmd: string)
      modifies this`isPrinterReady, this`active, this`out, this`txSeq, this`shutdowns, this`exitRequested
      ensures Snapshot() == Crash(old(Snapshot()), isFileinput, cmd)
    {
      var msg := InternalError(cmd);
      shutdowns := shutdowns + [msg];
      DoShutdown();
      RespondError(msg);
    }

    /** One more line of a batch: the state of the batch up to line `i` becomes that up to line `i` inclusive. */
    method ProcessNext(ghost st0: ParserState, commands: seq<string>, i: nat, ackWanted: bool, run: Call -> Outcome)
      requires i < |commands|
      requires Snapshot() == RunLines(st0, commands[..i], ackWanted, isFileinput, readyHandlers, baseHandlers, run)
      modifies this`isPrinterReady, this`active, this`needAck, this`out, this`txSeq, this`calls, this`shutdowns, this`exitRequested
      ensures Snapshot() == RunLines(st0, commands[..i + 1], ackWanted, isFileinput, readyHandlers, baseHandlers, run)
    {
      ghost var before := Snapshot();
      ProcessLine(commands[i], ackWanted, run);
      BatchStep(st0, commands, i, ackWanted, isFileinput, readyHandlers, baseHandlers, run, before, Snapshot());
    }

    /** `process_commands(commands, need_ack)`: the lines in order, then `need_ack` restored. */
    method ProcessCommands(commands: seq<string>, ackWanted: bool, run: Call -> Outcome)
      modifies this`isPrinterReady, this`active, this`needAck, this`out, this`txSeq, this`calls, this`shutdowns, this`exitRequested
      ensures Snapshot() == RunLines(old(Snapshot()), commands, ackWanted, isFileinput, readyHandlers, baseHandlers, run)
        .(needAck := old(needAck))
    {
      var prev := needAck;
      ghost var st0 := Snapshot();
      var i := 0;
      while i < |commands|
        invariant 0 <= i <= |commands|
        invariant Snapshot() == RunLines(st0, commands[..i], ackWanted, isFileinput, readyHandlers, baseHandlers, run)
      {
        ProcessNext(st0, commands, i, ackWanted, run);
        i := i + 1;
      }
      assert commands[..|commands|] == commands;
      needAck := prev;
    }

    /** `G90` / `G91`: absolute and relative coordinates. */
    method CmdG90()
      modifies this`absoluteCoord
      ensures absoluteCoord
    {
      absoluteCoord := true;
    }

    method CmdG91()
      modifies this`absoluteCoord
      ensures !absoluteCoord
    {
      absoluteCoord := false;
    }

    /** `M82` / `M83`: absolute and relative extrusion. */
    method CmdM82()
      modifies this`absoluteExtrude
      ensures absoluteExtrude
    {
      absoluteExtrude := true;
    }

    method CmdM83()
      modifies this`absoluteExtrude
      ensures !absoluteExtrude
    {
      absoluteExtrude := false;
    }
  }
}
