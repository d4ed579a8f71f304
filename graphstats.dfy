// The statistics extraction `parse_log` of scripts/graphstats.py: which log
// lines become records and what each record holds.
module GraphStats {
  import opened Wrappers
  import opened Text

  /**
   * One kept statistics line: the source's dictionary, its `key=value`
   * fields and the `#sampletime` it adds, kept here in two parts.  The
   * source stores the time in the same dictionary after the fields, so a
   * token `#sampletime=...` is overwritten: `fields` holds no `#sampletime`.
   */
  datatype Record = Record(fields: map<string, string>, sampletime: real)

  /** The state of the token loop: the current key prefix and the fields so far. */
  datatype Keys = Keys(prefix: string, fields: map<string, string>)

  /** The message of the unpacking `ValueError` for a token without '='. */
  const UNPACK_ERROR: string := "need more than 1 value to unpack"

  /**
   * One token of the loop over `parts[2:]`: a token ending in ':' becomes
   * the prefix ("mcu:" meaning none) and adds nothing; any other token
   * must hold a '=' and sets `prefix + name` to the text after it.
   */
  function KeyStep(k: Keys, tok: string): (r: Option<Keys>)
    ensures r.None? <==> BadToken(tok)
    ensures EndsWith(tok, ":") ==> r == Some(Keys(if tok == "mcu:" then "" else tok, k.fields))
  {
    if EndsWith(tok, ":") then Some(k.(prefix := if tok == "mcu:" then "" else tok))
    else
      var kv := SplitOnce(tok, '=');
      if |kv| == 1 then None
      else Some(k.(fields := k.fields[k.prefix + kv[0] := kv[1]]))
  }

  /**
   * The loop over a line's tokens from the third on, starting with no prefix
   * and no fields; it fails exactly when some token is bad.
   */
  function KeyFold(ts: seq<string>): (r: Option<Keys>)
    ensures r.None? <==> exists i :: 0 <= i < |ts| && BadToken(ts[i])
  {
    if ts == [] then Some(Keys("", map[]))
    else
      var init := ts[..|ts| - 1];
      assert forall i :: 0 <= i < |init| ==> init[i] == ts[i];
      match KeyFold(init)
      case None => None
      case Some(k) => KeyStep(k, ts[|ts| - 1])
  }

  /** A token fails exactly when it neither ends in ':' nor holds '='. */
  predicate BadToken(tok: string)
  {
    !EndsWith(tok, ":") && '=' !in tok
  }

  /** A field token `name=value` sets `prefix + name`, overwriting an earlier one of that name. */
  lemma FieldToken(k: Keys, name: string, value: string)
    requires '=' !in name && !EndsWith(name + "=" + value, ":")
    ensures KeyStep(k, name + "=" + value) == Some(Keys(k.prefix, k.fields[k.prefix + name := value]))
  {
    var tok := name + "=" + value;
    var kv := SplitOnce(tok, '=');
    assert tok[|name|] == '=';
    assert |kv| == 2;
    SplitAtFirst(name, value, kv[0], kv[1]);
  }

  /** Splitting at the first '=' of `name=value`, `name` holding none, gives `name` and `value`. */
  lemma SplitAtFirst(name: string, value: string, a: string, b: string)
    requires '=' !in name && '=' !in a
    requires a + ['='] + b == name + "=" + value
    ensures a == name && b == value
  {
    var s := a + ['='] + b;
    assert s[|a|] == '=';
    assert s[|name|] == '=';
    NoEqualsBefore(s, a, b);
    NoEqualsBefore(s, name, value);
    assert |a| == |name|;
    assert a == (a + ['='] + b)[..|a|];
    assert name == (name + "=" + value)[..|name|];
    assert b == (a + ['='] + b)[|a| + 1..];
    assert value == (name + "=" + value)[|name| + 1..];
  }

  /** No '=' occurs in `head + "=" + tail` before the one after `head`. */
  lemma NoEqualsBefore(s: string, head: string, tail: string)
    requires '=' !in head && s == head + "=" + tail
    ensures forall i :: 0 <= i < |head| ==> s[i] != '='
  {
    assert forall i :: 0 <= i < |head| ==> s[i] == head[i];
  }

  /** `keyparts.get('bytes_write', '0') == '0'`: the line is dropped. */
  predicate Idle(fields: map<string, string>)
  {
    "bytes_write" !in fields || fields["bytes_write"] == "0"
  }

  /** A statistics line begins with one of the two tags. */
  predicate IsStatsTag(w: string)
  {
    w == "Stats" || w == "INFO:root:Stats"
  }

  /**
   * One line of `parse_log`: `Ok(None)` when it is skipped, `Ok(Some(r))`
   * for a record, `Err` for the `ValueError` of a bad token or time.
   * `toFloat` is Python's `float()`.  A record comes only from a tagged line
   * with a non-zero `bytes_write`, timed by its second word minus the last
   * character; an untagged line is skipped.
   */
  function LineRecord(line: string, toFloat: string -> Option<real>): (res: Result<Option<Record>>)
    ensures res.Ok? && res.value.Some? ==>
      var parts := Words(line); var r := res.value.value;
      |parts| >= 3 && IsStatsTag(parts[0]) && KeyFold(parts[2..]).Some?
      && r.fields == KeyFold(parts[2..]).value.fields - {"#sampletime"}
      && !Idle(r.fields) && "#sampletime" !in r.fields
      && toFloat(parts[1][..|parts[1]| - 1]) == Some(r.sampletime)
    ensures var parts := Words(line);
      parts == [] || !IsStatsTag(parts[0]) ==> res == Ok(None)
  {
    var parts := Words(line);
    if parts == [] || !IsStatsTag(parts[0]) then Ok(None)
    else
      assert |parts| < 3 ==> parts[if |parts| < 2 then |parts| else 2..] == [];
      match KeyFold(parts[if |parts| < 2 then |parts| else 2..])
      case None => Err(UNPACK_ERROR)
      case Some(k) =>
        if Idle(k.fields) || |parts| < 2 then Ok(None)
        else
          var t := parts[1][..|parts[1]| - 1];
          match toFloat(t)
          case None => Err("could not convert string to float: " + t)
          case Some(x) => Ok(Some(Record(k.fields - {"#sampletime"}, x)))
  }

  /**
   * What a tagged line with at least two words yields: the `ValueError`
   * exactly when a token is bad or, on a non-idle line, the time does not
   * parse; nothing when idle; and otherwise its record.  Shorter lines
   * yield nothing.
   */
  lemma LineRecordOutcome(line: string, toFloat: string -> Option<real>)
    ensures var parts := Words(line);
      |parts| < 3 ==> LineRecord(line, toFloat).Ok? && LineRecord(line, toFloat).value.None?
    ensures var parts := Words(line);
      |parts| >= 2 && IsStatsTag(parts[0]) ==>
        var k := KeyFold(parts[2..]); var t := parts[1][..|parts[1]| - 1];
        (LineRecord(line, toFloat).Err? <==> k.None? || (!Idle(k.value.fields) && toFloat(t).None?))
        && (k.Some? && Idle(k.value.fields) ==> LineRecord(line, toFloat) == Ok(None))
        && (k.Some? && !Idle(k.value.fields) && toFloat(t).Some? ==>
              LineRecord(line, toFloat) == Ok(Some(Record(k.value.fields - {"#sampletime"}, toFloat(t).value))))
  {
  }

  /** Each line's own outcome, in file order. */
  function Outcomes(lines: seq<string>, toFloat: string -> Option<real>): (rs: seq<Result<Option<Record>>>)
    ensures |rs| == |lines| && forall i | 0 <= i < |lines| :: rs[i] == LineRecord(lines[i], toFloat)
  {
    seq(|lines|, i requires 0 <= i < |lines| => LineRecord(lines[i], toFloat))
  }

  /**
   * The indices of the outcomes that are records, ascending: an index is
   * listed exactly when its outcome is `Ok(Some(_))`.
   */
  function Kept(rs: seq<Result<Option<Record>>>): (p: seq<nat>)
    ensures forall j | 0 <= j < |p| :: p[j] < |rs|
    ensures forall j, j' | 0 <= j < j' < |p| :: p[j] < p[j']
    ensures forall i | 0 <= i < |rs| :: i in p <==> rs[i].Ok? && rs[i].value.Some?
  {
    if rs == [] then []
    else
      var init := rs[..|rs| - 1];
      assert forall i | 0 <= i < |init| :: init[i] == rs[i];
      var last := rs[|rs| - 1];
      Kept(init) + (if last.Ok? && last.value.Some? then [|rs| - 1] else [])
  }

  /**
   * `parse_log` over the lines of the file, in order: the first error if
   * some line fails, and otherwise the records of the lines that yield
   * one, in file order.  Every record has a non-zero `bytes_write` and no
   * `#sampletime` among its fields.
   */
  function ParseLines(lines: seq<string>, toFloat: string -> Option<real>): (r: Result<seq<Record>>)
    ensures r.Ok? ==> |r.value| <= |lines|
    ensures r.Ok? ==> forall j | 0 <= j < |r.value| :: !Idle(r.value[j].fields) && "#sampletime" !in r.value[j].fields
  {
    if lines == [] then Ok([])
    else
      Extend(ParseLines(lines[..|lines| - 1], toFloat), LineRecord(lines[|lines| - 1], toFloat))
  }

  /** The log parses exactly when every one of its lines does. */
  lemma ParseLinesOk(lines: seq<string>, toFloat: string -> Option<real>)
    ensures ParseLines(lines, toFloat).Ok? <==> forall i | 0 <= i < |lines| :: LineRecord(lines[i], toFloat).Ok?
  {
    ParseLinesCollect(lines, toFloat);
    CollectOk(Outcomes(lines, toFloat));
  }

  /** A parsed log's records are those of its kept lines, in file order. */
  lemma ParseLinesKept(lines: seq<string>, toFloat: string -> Option<real>)
    requires ParseLines(lines, toFloat).Ok?
    ensures var out := ParseLines(lines, toFloat).value; var p := Kept(Outcomes(lines, toFloat));
      |out| == |p| && forall j | 0 <= j < |p| :: LineRecord(lines[p[j]], toFloat) == Ok(Some(out[j]))
  {
    ParseLinesCollect(lines, toFloat);
    CollectKept(Outcomes(lines, toFloat));
  }

  /** The line outcomes gathered in order, stopping at the first error. */
  function Collect(rs: seq<Result<Option<Record>>>): Result<seq<Record>>
  {
    if rs == [] then Ok([]) else Extend(Collect(rs[..|rs| - 1]), rs[|rs| - 1])
  }

  /** The log's parse is the gathering of its line outcomes. */
  lemma {:induction false} ParseLinesCollect(lines: seq<string>, toFloat: string -> Option<real>)
    ensures ParseLines(lines, toFloat) == Collect(Outcomes(lines, toFloat))
  {
    if lines != [] {
      var init := lines[..|lines| - 1];
      assert Outcomes(lines, toFloat)[..|lines| - 1] == Outcomes(init, toFloat);
      ParseLinesCollect(init, toFloat);
    }
  }

  /** Gathering succeeds exactly when no outcome is an error. */
  lemma {:induction false} CollectOk(rs: seq<Result<Option<Record>>>)
    ensures Collect(rs).Ok? <==> forall i | 0 <= i < |rs| :: rs[i].Ok?
  {
    if rs != [] {
      var init := rs[..|rs| - 1];
      assert forall i | 0 <= i < |init| :: init[i] == rs[i];
      CollectOk(init);
    }
  }

  /** A successful gathering holds the records of the kept outcomes, in order. */
  lemma {:induction false} CollectKept(rs: seq<Result<Option<Record>>>)
    requires Collect(rs).Ok?
    ensures var out := Collect(rs).value; var p := Kept(rs);
      |out| == |p| && forall j | 0 <= j < |p| :: rs[p[j]] == Ok(Some(out[j]))
  {
    if rs != [] {
      var init := rs[..|rs| - 1];
      assert forall i | 0 <= i < |init| :: init[i] == rs[i];
      CollectKept(init);
    }
  }

  /** The records so far, after one more line. */
  function Extend(prev: Result<seq<Record>>, line: Result<Option<Record>>): Result<seq<Record>>
  {
    match prev
    case Err(e) => Err(e)
    case Ok(out) =>
      match line
      case Err(e) => Err(e)
      case Ok(None) => Ok(out)
      case Ok(Some(r)) => Ok(out + [r])
  }

  /** Records before a stretch stay in front of what the stretch adds. */
  lemma ExtendPrefix(before: seq<Record>, out: seq<Record>, line: Result<Option<Record>>)
    requires Extend(Ok(out), line).Ok?
    ensures Extend(Ok(before + out), line) == Ok(before + Extend(Ok(out), line).value)
  {
    if line.Ok? && line.value.Some? {
      assert before + out + [line.value.value] == before + (out + [line.value.value]);
    }
  }

  /** Records keep file order: parsing two stretches of a log and joining them is parsing the whole. */
  lemma {:induction false} ParseLinesAppend(a: seq<string>, b: seq<string>, toFloat: string -> Option<real>)
    requires ParseLines(a, toFloat).Ok? && ParseLines(b, toFloat).Ok?
    ensures ParseLines(a + b, toFloat) == Ok(ParseLines(a, toFloat).value + ParseLines(b, toFloat).value)
    decreases |b|
  {
    if b == [] {
      assert a + b == a;
      assert ParseLines(a, toFloat).value + [] == ParseLines(a, toFloat).value;
    } else {
      var init := b[..|b| - 1];
      var line := LineRecord(b[|b| - 1], toFloat);
      assert (a + b)[..|a + b| - 1] == a + init;
      assert (a + b)[|a + b| - 1] == b[|b| - 1];
      assert ParseLines(b, toFloat) == Extend(ParseLines(init, toFloat), line);
      assert ParseLines(init, toFloat).Ok?;
      ParseLinesAppend(a, init, toFloat);
      assert ParseLines(a + b, toFloat) == Extend(ParseLines(a + init, toFloat), line);
      ExtendPrefix(ParseLines(a, toFloat).value, ParseLines(init, toFloat).value, line);
    }
  }

  /** Untagged lines contribute nothing. */
  lemma {:induction false} UntaggedIgnored(lines: seq<string>, toFloat: string -> Option<real>)
    requires forall i :: 0 <= i < |lines| ==> Words(lines[i]) == [] || !IsStatsTag(Words(lines[i])[0])
    ensures ParseLines(lines, toFloat) == Ok([])
  {
    if lines != [] {
      var init := lines[..|lines| - 1];
      assert forall i :: 0 <= i < |init| ==> init[i] == lines[i];
      UntaggedIgnored(init, toFloat);
    }
  }

  /** The token loop of one line. */
  method CollectKeys(tokens: seq<string>) returns (r: Option<Keys>)
    ensures r == KeyFold(tokens)
  {
    var prefix := "";
    var keyparts: map<string, string> := map[];
    var i := 0;
    while i < |tokens|
      invariant 0 <= i <= |tokens|
      invariant KeyFold(tokens[..i]) == Some(Keys(prefix, keyparts))
    {
      var p := tokens[i];
      assert tokens[..i + 1][..i] == tokens[..i];
      if EndsWith(p, ":") {
        prefix := p;
        if prefix == "mcu:" {
          prefix := "";
        }
      } else {
        var kv := SplitOnce(p, '=');
        if |kv| == 1 {
          KeyFoldNone(tokens, i);
          return None;
        }
        keyparts := keyparts[prefix + kv[0] := kv[1]];
      }
      i := i + 1;
    }
    assert tokens[..|tokens|] == tokens;
    r := Some(Keys(prefix, keyparts));
  }

  /** Once a token fails, the whole loop fails. */
  lemma KeyFoldNone(ts: seq<string>, i: nat)
    requires i < |ts| && BadToken(ts[i])
    ensures KeyFold(ts).None?
  {
  }

  /** `parse_log(logname)`, the file given as its lines. */
  method ParseLog(lines: seq<string>, toFloat: string -> Option<real>) returns (r: Result<seq<Record>>)
    ensures r == ParseLines(lines, toFloat)
  {
    var out: seq<Record> := [];
    var i := 0;
    while i < |lines|
      invariant 0 <= i <= |lines|
      invariant ParseLines(lines[..i], toFloat) == Ok(out)
    {
      assert lines[..i + 1][..i] == lines[..i];
      var res := LineStep(lines[i], toFloat);
      match res {
        case Err(e) =>
          ErrStops(lines, i, toFloat, e);
          return Err(e);
        case Ok(None) =>
        case Ok(Some(rec)) =>
          out := out + [rec];
      }
      i := i + 1;
    }
    assert lines[..|lines|] == lines;
    r := Ok(out);
  }

  /** One pass of the loop over the file: the line skipped, its record, or the `ValueError` it raises. */
  method LineStep(line: string, toFloat: string -> Option<real>) returns (res: Result<Option<Record>>)
    ensures res == LineRecord(line, toFloat)
  {
    var parts := Words(line);
    if parts == [] || !IsStatsTag(parts[0]) {
      return Ok(None);
    }
    var k := CollectKeys(parts[if |parts| < 2 then |parts| else 2..]);
    if k.None? {
      return Err(UNPACK_ERROR);
    }
    if Idle(k.value.fields) || |parts| < 2 {
      return Ok(None);
    }
    var t := parts[1][..|parts[1]| - 1];
    var x := toFloat(t);
    if x.None? {
      return Err("could not convert string to float: " + t);
    }
    res := Ok(Some(Record(k.value.fields - {"#sampletime"}, x.value)));
  }

  /** An error on line `i` is the result of the whole log when the lines before it parsed. */
  lemma {:induction false} ErrStops(lines: seq<string>, i: nat, toFloat: string -> Option<real>, e: string)
    requires i < |lines| && ParseLines(lines[..i], toFloat).Ok? && LineRecord(lines[i], toFloat) == Err(e)
    ensures ParseLines(lines, toFloat) == Err(e)
    decreases |lines| - i
  {
    assert lines[..i + 1][..i] == lines[..i];
    assert ParseLines(lines[..i + 1], toFloat) == Err(e);
    ErrPersists(lines, i + 1, toFloat, e);
  }

  /** An error in a stretch of leading lines is the result of the whole log. */
  lemma {:induction false} ErrPersists(lines: seq<string>, j: nat, toFloat: string -> Option<real>, e: string)
    requires j <= |lines| && ParseLines(lines[..j], toFloat) == Err(e)
    ensures ParseLines(lines, toFloat) == Err(e)
    decreases |lines| - j
  {
    if j == |lines| {
      assert lines[..j] == lines;
    } else {
      assert lines[..j + 1][..j] == lines[..j];
      ErrPersists(lines, j + 1, toFloat, e);
    }
  }
}
