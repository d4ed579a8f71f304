// The printer object of klippy/klippy.py: the typed option getters of
// `ConfigWrapper`, the prefix lookups, and the shutdown / exit state of
// `Printer` together with the G-code parser it owns.
module Klippy {
  import opened Wrappers
  import opened Text
  import GCode

  // ----- messages -----

  const MESSAGE_READY: string := "Printer is ready"
  const MESSAGE_STARTUP: string :=
    "\nThe klippy host software is attempting to connect.  Please\nretry in a few moments.\nPrinter is not ready\n"
  const MESSAGE_SHUTDOWN: string :=
    "\nOnce the underlying issue is corrected, use the\n\"FIRMWARE_RESTART\" command to reset the firmware, reload the\nconfig, and restart the host software.\nPrinter is shutdown\n"

  // ----- the configuration file -----

  /**
   * A `RawConfigParser` after `read`: the section names in file order and,
   * per section, its options (names lower-cased by `optionxform`) with their
   * raw text.  The DEFAULT section is not modelled.
   */
  datatype FileConfig = FileConfig(order: seq<string>, options: map<string, map<string, string>>)

  /** The section list and the option table name the same sections, as `RawConfigParser` keeps them. */
  ghost predicate SectionsListed(fc: FileConfig)
  {
    (forall s :: s in fc.options ==> s in fc.order) && (forall s :: s in fc.order ==> s in fc.options)
  }

  /** `has_option(section, option)`: option names compare lower-cased. */
  predicate HasOption(fc: FileConfig, section: string, option: string)
  {
    section in fc.options && Lower(option) in fc.options[section]
  }

  /** The errors a getter raises, all of them `ConfigParser.Error`. */
  datatype ConfigError =
    | NoSection(section: string)
    | NoOption(option: string, section: string)
    | Unparsable(option: string, section: string)
    | BelowMinimum(option: string, section: string)
    | AboveMaximum(option: string, section: string)
    | NotAbove(option: string, section: string)
    | NotBelow(option: string, section: string)
    | NotAChoice(option: string, section: string)

  datatype Got<V> = Got(value: V) | Failed(error: ConfigError)

  /** `fileconfig.get(section, option)`: the raw text, or the parser's own error. */
  function RawGet(fc: FileConfig, section: string, option: string): (r: Got<string>)
    ensures r.Got? <==> HasOption(fc, section, option)
    ensures r.Got? ==> r.value == fc.options[section][Lower(option)]
    ensures r.Failed? ==> r.error == if section in fc.options then NoOption(option, section) else NoSection(section)
  {
    if section !in fc.options then Failed(NoSection(section))
    else if Lower(option) !in fc.options[section] then Failed(NoOption(option, section))
    else Got(fc.options[section][Lower(option)])
  }

  /** The optional bounds of a numeric getter. */
  datatype Bounds<V> = Bounds(minval: Option<V>, maxval: Option<V>, above: Option<V>, below: Option<V>)

  function NoBounds<V>(): Bounds<V>
  {
    Bounds(None, None, None, None)
  }

  /** Every bound supplied holds of `v`, `less` being the value's `<`. */
  predicate InBounds<V>(v: V, b: Bounds<V>, less: (V, V) -> bool)
  {
    (b.minval.Some? ==> !less(v, b.minval.value))
    && (b.maxval.Some? ==> !less(b.maxval.value, v))
    && (b.above.Some? ==> less(b.above.value, v))
    && (b.below.Some? ==> less(v, b.below.value))
  }

  /**
   * The four bound checks of `get_wrapper`, in source order: they pass
   * exactly when every bound holds, and then hand the value back; the
   * minimum is checked first.
   */
  function Checked<V>(section: string, option: string, v: V, b: Bounds<V>, less: (V, V) -> bool): (r: Got<V>)
    ensures r.Got? <==> InBounds(v, b, less)
    ensures r.Got? ==> r.value == v
    ensures b.minval.Some? && less(v, b.minval.value) ==> r == Failed(BelowMinimum(option, section))
  {
    if b.minval.Some? && less(v, b.minval.value) then Failed(BelowMinimum(option, section))
    else if b.maxval.Some? && less(b.maxval.value, v) then Failed(AboveMaximum(option, section))
    else if b.above.Some? && !less(b.above.value, v) then Failed(NotAbove(option, section))
    else if b.below.Some? && !less(v, b.below.value) then Failed(NotBelow(option, section))
    else Got(v)
  }

  /**
   * What `get_wrapper(parser, option, default, ...)` returns, `conv` being
   * the conversion the parser applies to the raw text (`None` for a
   * `ValueError`).  `default == None` is the `sentinel`: no default.  A
   * value comes back either as the default of an absent option, which is
   * not checked against the bounds, or as a present option's converted text
   * within every bound.
   */
  function Wrapped<V>(fc: FileConfig, section: string, option: string, default: Option<V>,
                      conv: string -> Option<V>, b: Bounds<V>, less: (V, V) -> bool): (r: Got<V>)
    ensures r.Got? <==>
      (default.Some? && !HasOption(fc, section, option))
      || (HasOption(fc, section, option) && conv(fc.options[section][Lower(option)]).Some?
          && InBounds(conv(fc.options[section][Lower(option)]).value, b, less))
    ensures r.Got? && Consulted(fc, section, option, default) ==>
      HasOption(fc, section, option) && conv(fc.options[section][Lower(option)]) == Some(r.value) && InBounds(r.value, b, less)
    ensures !Consulted(fc, section, option, default) ==> r == Got(default.value)
  {
    if default.Some? && !HasOption(fc, section, option) then Got(default.value)
    else match RawGet(fc, section, option)
      case Failed(e) => Failed(e)
      case Got(raw) =>
        match conv(raw)
        case None => Failed(Unparsable(option, section))
        case Some(v) => Checked(section, option, v, b, less)
  }

  /** `get_wrapper` records the option exactly when it does not answer with the default. */
  predicate Consulted<V>(fc: FileConfig, section: string, option: string, default: Option<V>)
  {
    default.None? || HasOption(fc, section, option)
  }

  /** A parse failure and each bound violation is an error naming the option and section. */
  lemma WrappedErrors<V>(fc: FileConfig, section: string, option: string, default: Option<V>,
                         conv: string -> Option<V>, b: Bounds<V>, less: (V, V) -> bool)
    requires Consulted(fc, section, option, default)
    ensures var r := Wrapped(fc, section, option, default, conv, b, less);
      !HasOption(fc, section, option) ==> r == Failed(if section in fc.options then NoOption(option, section) else NoSection(section))
    ensures var r := Wrapped(fc, section, option, default, conv, b, less);
      HasOption(fc, section, option) && conv(fc.options[section][Lower(option)]).None? ==> r == Failed(Unparsable(option, section))
    ensures var r := Wrapped(fc, section, option, default, conv, b, less);
      HasOption(fc, section, option) && conv(fc.options[section][Lower(option)]).Some? ==>
        r == Checked(section, option, conv(fc.options[section][Lower(option)]).value, b, less)
  {
  }

  // ----- conversions of the typed getters -----

  function AsText(raw: string): Option<string>
  {
    Some(raw)
  }

  function IntLess(a: int, b: int): bool
  {
    a < b
  }

  function RealLess(a: real, b: real): bool
  {
    a < b
  }

  function NoOrder(a: string, b: string): bool
  {
    false
  }

  function BoolNoOrder(a: bool, b: bool): bool
  {
    false
  }

  /** `RawConfigParser.getboolean`: the lower-cased text must be one of the eight boolean words. */
  function BooleanState(raw: string): (r: Option<bool>)
    ensures r == Some(true) <==> Lower(raw) in {"1", "yes", "true", "on"}
    ensures r == Some(false) <==> Lower(raw) in {"0", "no", "false", "off"}
  {
    var w := Lower(raw);
    if w == "1" || w == "yes" || w == "true" || w == "on" then Some(true)
    else if w == "0" || w == "no" || w == "false" || w == "off" then Some(false)
    else None
  }

  /** `getchoice`: the value c of the option, which must be a key of `choices`; its mapped value is returned. */
  function Choice<V>(c: Got<string>, option: string, section: string, choices: map<string, V>): (r: Got<V>)
    ensures r.Got? <==> c.Got? && c.value in choices
    ensures r.Got? ==> r.value == choices[c.value]
    ensures c.Failed? ==> r == Failed(c.error)
    ensures c.Got? && c.value !in choices ==> r == Failed(NotAChoice(option, section))
  {
    match c
    case Failed(e) => Failed(e)
    case Got(v) => if v !in choices then Failed(NotAChoice(option, section)) else Got(choices[v])
  }

  // ----- prefix lookups -----

  /** The names kept by `get_prefix_sections`: those starting with `prefix`, in file order. */
  function PrefixSections(sections: seq<string>, prefix: string): (r: seq<string>)
    ensures |r| <= |sections|
    ensures forall s :: s in r <==> s in sections && StartsWith(s, prefix)
  {
    if sections == [] then []
    else (if StartsWith(sections[0], prefix) then [sections[0]] else []) + PrefixSections(sections[1..], prefix)
  }

  /** The filter keeps the order: filtering a concatenation filters each part. */
  lemma {:induction false} PrefixSectionsAppend(a: seq<string>, b: seq<string>, prefix: string)
    ensures PrefixSections(a + b, prefix) == PrefixSections(a, prefix) + PrefixSections(b, prefix)
  {
    if a != [] {
      var head := if StartsWith(a[0], prefix) then [a[0]] else [];
      assert (a + b)[0] == a[0] && (a + b)[1..] == a[1..] + b;
      assert PrefixSections(a + b, prefix) == head + PrefixSections(a[1..] + b, prefix);
      PrefixSectionsAppend(a[1..], b, prefix);
      assert PrefixSections(a, prefix) == head + PrefixSections(a[1..], prefix);
    } else {
      assert a + b == b;
    }
  }

  /** The objects of the printer, as far as this model tells them apart. */
  datatype PrinterObject = GCodeObject | Component(kind: string)

  /** The entries of `get_objects_with_prefix`: every key that contains `prefix` anywhere. */
  function ObjectsWithPrefix(objects: map<string, PrinterObject>, prefix: string): map<string, PrinterObject>
  {
    map k | k in objects && Contains(k, prefix) :: objects[k]
  }

  /** Keys starting with the prefix are found, and so are keys holding it further in. */
  lemma ObjectsWithPrefixAnywhere(objects: map<string, PrinterObject>, prefix: string, k: string)
    requires k in objects
    ensures StartsWith(k, prefix) ==> k in ObjectsWithPrefix(objects, prefix)
    ensures k in ObjectsWithPrefix(objects, prefix) ==> ObjectsWithPrefix(objects, prefix)[k] == objects[k]
  {
    if StartsWith(k, prefix) {
      StartsWithContains(k, prefix);
    }
  }

  /** `get_objects_with_prefix("fan")` also returns a `heater_fan` object. */
  lemma HeaterFanMatchesFan(objects: map<string, PrinterObject>)
    requires "heater_fan" in objects
    ensures "heater_fan" in ObjectsWithPrefix(objects, "fan")
    ensures !StartsWith("heater_fan", "fan")
  {
    assert "heater_fan"[7..10] == "fan";
    assert OccursAt("heater_fan", "fan", 7);
    assert "heater_fan"[..3] != "fan" by {
      assert "heater_fan"[0] == 'h';
    }
  }

  // ----- shutdown -----

  /** A component told to shut down by `invoke_shutdown`. */
  datatype Notice = McuShutdown(mcu: string) | ToolheadShutdown

  /** The notices to the micro-controllers, in list order. */
  function McuNotices(mcus: seq<string>): (r: seq<Notice>)
    ensures |r| == |mcus|
    ensures forall i :: 0 <= i < |mcus| ==> r[i] == McuShutdown(mcus[i])
  {
    if mcus == [] then [] else McuNotices(mcus[..|mcus| - 1]) + [McuShutdown(mcus[|mcus| - 1])]
  }

  /** The printer fields that `invoke_shutdown` touches. */
  datatype PrinterState = PrinterState(isShutdown: bool, stateMessage: string, notices: seq<Notice>)

  /**
   * `invoke_shutdown(msg)`: nothing when already shut down; otherwise the
   * flag, the message, and the notices to every mcu and the toolhead.
   */
  function Shutdown(ps: PrinterState, msg: string, mcus: seq<string>, toolhead: bool): (r: PrinterState)
    ensures r.isShutdown
    ensures ps.isShutdown ==> r == ps
    ensures !ps.isShutdown ==> r.stateMessage == msg + MESSAGE_SHUTDOWN
    ensures !ps.isShutdown ==>
      |r.notices| == |ps.notices| + |mcus| + (if toolhead then 1 else 0)
      && r.notices[..|ps.notices|] == ps.notices
      && (forall i | 0 <= i < |mcus| :: r.notices[|ps.notices| + i] == McuShutdown(mcus[i]))
      && (toolhead ==> r.notices[|r.notices| - 1] == ToolheadShutdown)
  {
    if ps.isShutdown then ps
    else PrinterState(true, msg + MESSAGE_SHUTDOWN, ps.notices + McuNotices(mcus) + (if toolhead then [ToolheadShutdown] else []))
  }

  /** A series of `invoke_shutdown` calls. */
  function ShutdownAll(ps: PrinterState, msgs: seq<string>, mcus: seq<string>, toolhead: bool): PrinterState
    decreases |msgs|
  {
    if msgs == [] then ps else ShutdownAll(Shutdown(ps, msgs[0], mcus, toolhead), msgs[1..], mcus, toolhead)
  }

  /** Only the first shutdown of a series has any effect: its message is the one kept, and components are told once. */
  lemma {:induction false} FirstShutdownWins(ps: PrinterState, msgs: seq<string>, mcus: seq<string>, toolhead: bool)
    requires msgs != []
    ensures ShutdownAll(ps, msgs, mcus, toolhead) == Shutdown(ps, msgs[0], mcus, toolhead)
  {
    var st := Shutdown(ps, msgs[0], mcus, toolhead);
    StaysShutDown(st, msgs[1..], mcus, toolhead);
  }

  /** Once the printer is shut down, further `invoke_shutdown` calls change nothing. */
  lemma {:induction false} StaysShutDown(ps: PrinterState, msgs: seq<string>, mcus: seq<string>, toolhead: bool)
    requires ps.isShutdown
    ensures ShutdownAll(ps, msgs, mcus, toolhead) == ps
    decreases |msgs|
  {
    if msgs != [] {
      StaysShutDown(ps, msgs[1..], mcus, toolhead);
    }
  }

  /** `web_getcurrentstate`: "H" when shut down, "C" while the G-code side is not ready, else `None`. */
  function WebState(isShutdown: bool, gcodeReady: bool): (r: Option<string>)
    ensures r == Some("H") <==> isShutdown
    ensures r == Some("C") <==> !isShutdown && !gcodeReady
    ensures r == None <==> !isShutdown && gcodeReady
  {
    if isShutdown then Some("H")
    else if !gcodeReady then Some("C")
    else None
  }

  // ----- the printer -----

  /** `gcode.GCodeParser(self, input_fd)`, with the parser's built-in command table. */
  method NewGCode(fileinput: bool) returns (g: GCode.GCodeParser)
    ensures fresh(g) && !g.isPrinterReady && g.isFileinput == fileinput && g.allHandlers == GCode.BUILTINS
  {
    g := new GCode.GCodeParser(fileinput, GCode.BUILTINS);
  }

  class Printer {
    /** `self.gcode`, created with the printer's input. */
    const gcode: GCode.GCodeParser
    /** `self.objects`. */
    var objects: map<string, PrinterObject>
    /** `self.fileconfig`: `None` until the configuration is read. */
    var fileconfig: Option<FileConfig>
    /** The keys of `all_config_options`. */
    var allConfigOptions: set<(string, string)>
    var stateMessage: string
    var isShutdown: bool
    var asyncShutdownMsg: string
    var runResult: Option<string>
    /** The names of `self.mcus`. */
    var mcus: seq<string>
    /** The components told to shut down, in order. */
    var notices: seq<Notice>
    /** `reactor.end()` was called. */
    var reactorEnded: bool

    /**
     * A shut-down printer's G-code parser does not answer with the ready table.
     * `invoke_shutdown` establishes this and keeps it, but it is not an invariant of
     * the source: a shutdown while the parser is not ready yet (during `_connect`,
     * klippy.py:222-226) can be followed by `gcode.connect()`, which makes it ready.
     */
    predicate Valid()
      reads this`isShutdown, gcode`isPrinterReady
    {
      isShutdown ==> !gcode.isPrinterReady
    }

    function State(): PrinterState
      reads this`isShutdown, this`stateMessage, this`notices
    {
      PrinterState(isShutdown, stateMessage, notices)
    }

    /** `__init__`, without the reactor and its timers. */
    constructor(fileinput: bool)
      ensures Valid() && fresh(gcode)
      ensures !gcode.isPrinterReady && gcode.isFileinput == fileinput
      ensures objects == map["gcode" := GCodeObject]
      ensures fileconfig == None && allConfigOptions == {} && mcus == [] && notices == []
      ensures stateMessage == MESSAGE_STARTUP && !isShutdown && asyncShutdownMsg == "" && runResult == None && !reactorEnded
    {
      var g := NewGCode(fileinput);
      gcode := g;
      objects := map["gcode" := GCodeObject];
      fileconfig := None;
      allConfigOptions := {};
      stateMessage := MESSAGE_STARTUP;
      isShutdown := false;
      asyncShutdownMsg := "";
      runResult := None;
      mcus := [];
      notices := [];
      reactorEnded := false;
    }

    /** `add_object(name, obj)`. */
    method AddObject(name: string, obj: PrinterObject)
      modifies this`objects
      ensures objects == old(objects)[name := obj]
    {
      objects := objects[name := obj];
    }

    /** `get_object(name)`: `objects.get(name)`. */
    function GetObject(name: string): (r: Option<PrinterObject>)
      reads this`objects
      ensures r.Some? <==> name in objects
      ensures r.Some? ==> r.value == objects[name]
    {
      if name in objects then Some(objects[name]) else None
    }

    /** `get_objects_with_prefix(prefix)`: the objects whose name contains the prefix, each with its own value. */
    function GetObjectsWithPrefix(prefix: string): (r: map<string, PrinterObject>)
      reads this`objects
      ensures forall k :: k in r <==> k in objects && Contains(k, prefix)
      ensures forall k :: k in r ==> r[k] == objects[k]
    {
      ObjectsWithPrefix(objects, prefix)
    }

    /**
     * The part of `_load_config` that reads the file and fetches the mcu
     * list: the file's content and the mcu names are given.
     */
    method ReadConfig(fc: FileConfig, mcuNames: seq<string>)
      modifies this`fileconfig, this`mcus
      ensures fileconfig == Some(fc) && mcus == mcuNames
    {
      fileconfig := Some(fc);
      mcus := mcuNames;
    }

    /** `invoke_shutdown(msg)`: idempotent; the first call also shuts the G-code parser down. */
    method InvokeShutdown(msg: string)
      modifies this`isShutdown, this`stateMessage, this`notices
      modifies gcode`isPrinterReady, gcode`active, gcode`exitRequested, gcode`txSeq
      ensures isShutdown && WebState(isShutdown, gcode.isPrinterReady) == Some("H")
      ensures !old(isShutdown) ==> Valid()
      ensures old(Valid()) ==> Valid()
      ensures State() == Shutdown(old(State()), msg, mcus, "toolhead" in objects)
      ensures gcode.Snapshot() == if old(isShutdown) then old(gcode.Snapshot()) else GCode.ShutDown(old(gcode.Snapshot()), gcode.isFileinput)
    {
      if isShutdown {
        return;
      }
      isShutdown := true;
      stateMessage := msg + MESSAGE_SHUTDOWN;
      NotifyMcus();
      gcode.DoShutdown();
      if "toolhead" in objects {
        notices := notices + [ToolheadShutdown];
      }
    }

    /** The `m.do_shutdown()` loop over `self.mcus`. */
    method NotifyMcus()
      modifies this`notices
      ensures notices == old(notices) + McuNotices(mcus)
    {
      var i := 0;
      while i < |mcus|
        invariant 0 <= i <= |mcus|
        invariant notices == old(notices) + McuNotices(mcus[..i])
      {
        notices := notices + [McuShutdown(mcus[i])];
        assert mcus[..i + 1][..i] == mcus[..i];
        i := i + 1;
      }
      assert mcus[..|mcus|] == mcus;
    }

    /** `request_exit(result)`: the result is recorded and the reactor stops. */
    method RequestExit(result: string)
      modifies this`runResult, this`reactorEnded
      ensures runResult == Some(result) && reactorEnded
    {
      runResult := Some(result);
      reactorEnded := true;
    }

    /** `invoke_async_shutdown(msg)`: the message is kept for the main loop, which exits with "shutdown". */
    method InvokeAsyncShutdown(msg: string)
      modifies this`asyncShutdownMsg, this`runResult, this`reactorEnded
      ensures asyncShutdownMsg == msg && runResult == Some("shutdown") && reactorEnded
    {
      asyncShutdownMsg := msg;
      RequestExit("shutdown");
    }

    /** `web_getcurrentstate()`: "H" when shut down, "C" while the G-code side is not ready, else nothing. */
    function CurrentState(): (r: Option<string>)
      reads this`isShutdown, gcode`isPrinterReady
      ensures r == Some("H") <==> isShutdown
      ensures r == Some("C") <==> !isShutdown && !gcode.isPrinterReady
      ensures r.None? <==> !isShutdown && gcode.isPrinterReady
    {
      WebState(isShutdown, gcode.isPrinterReady)
    }
  }

  // ----- option getters -----

  /** `ConfigWrapper(printer, section)`. */
  class ConfigWrapper {
    const printer: Printer
    const section: string

    constructor(printer: Printer, section: string)
      ensures this.printer == printer && this.section == section
    {
      this.printer := printer;
      this.section := section;
    }

    /** `get_wrapper`: `conv` and `less` stand for the parser's conversion and the value's `<`. */
    method GetWrapper<V>(option: string, default: Option<V>, conv: string -> Option<V>, b: Bounds<V>, less: (V, V) -> bool)
      returns (r: Got<V>)
      requires printer.fileconfig.Some?
      modifies printer`allConfigOptions
      ensures r == Wrapped(printer.fileconfig.value, section, option, default, conv, b, less)
      ensures printer.allConfigOptions ==
        if Consulted(printer.fileconfig.value, section, option, default)
        then old(printer.allConfigOptions) + {(Lower(section), Lower(option))}
        else old(printer.allConfigOptions)
    {
      var fc := printer.fileconfig.value;
      if default.Some? && !HasOption(fc, section, option) {
        return Got(default.value);
      }
      printer.allConfigOptions := printer.allConfigOptions + {(Lower(section), Lower(option))};
      var raw := RawGet(fc, section, option);
      if raw.Failed? {
        return Failed(raw.error);
      }
      var v := conv(raw.value);
      if v.None? {
        return Failed(Unparsable(option, section));
      }
      r := Checked(section, option, v.value, b, less);
    }

    /** `get(option, default)`. */
    method Get(option: string, default: Option<string>) returns (r: Got<string>)
      requires printer.fileconfig.Some?
      modifies printer`allConfigOptions
      ensures r == Wrapped(printer.fileconfig.value, section, option, default, AsText, NoBounds(), NoOrder)
      ensures printer.allConfigOptions ==
        if Consulted(printer.fileconfig.value, section, option, default)
        then old(printer.allConfigOptions) + {(Lower(section), Lower(option))}
        else old(printer.allConfigOptions)
    {
      r := GetWrapper(option, default, AsText, NoBounds(), NoOrder);
    }

    /** `getint(option, default, minval, maxval)`: a present value lies within the bounds given. */
    method GetInt(option: string, default: Option<int>, minval: Option<int>, maxval: Option<int>) returns (r: Got<int>)
      requires printer.fileconfig.Some?
      modifies printer`allConfigOptions
      ensures r == Wrapped(printer.fileconfig.value, section, option, default, ParseInt, Bounds(minval, maxval, None, None), IntLess)
      ensures r.Got? && Consulted(printer.fileconfig.value, section, option, default) ==>
        (minval.Some? ==> minval.value <= r.value) && (maxval.Some? ==> r.value <= maxval.value)
      ensures printer.allConfigOptions ==
        if Consulted(printer.fileconfig.value, section, option, default)
        then old(printer.allConfigOptions) + {(Lower(section), Lower(option))}
        else old(printer.allConfigOptions)
    {
      r := GetWrapper(option, default, ParseInt, Bounds(minval, maxval, None, None), IntLess);
    }

    /** `getfloat(...)`: `conv` stands for `float()`; a present value lies within every bound given. */
    method GetFloat(option: string, default: Option<real>, conv: string -> Option<real>, b: Bounds<real>) returns (r: Got<real>)
      requires printer.fileconfig.Some?
      modifies printer`allConfigOptions
      ensures r == Wrapped(printer.fileconfig.value, section, option, default, conv, b, RealLess)
      ensures r.Got? && Consulted(printer.fileconfig.value, section, option, default) ==>
        (b.minval.Some? ==> b.minval.value <= r.value) && (b.maxval.Some? ==> r.value <= b.maxval.value)
        && (b.above.Some? ==> b.above.value < r.value) && (b.below.Some? ==> r.value < b.below.value)
      ensures printer.allConfigOptions ==
        if Consulted(printer.fileconfig.value, section, option, default)
        then old(printer.allConfigOptions) + {(Lower(section), Lower(option))}
        else old(printer.allConfigOptions)
    {
      r := GetWrapper(option, default, conv, b, RealLess);
    }

    /** `getboolean(option, default)`. */
    method GetBoolean(option: string, default: Option<bool>) returns (r: Got<bool>)
      requires printer.fileconfig.Some?
      modifies printer`allConfigOptions
      ensures r == Wrapped(printer.fileconfig.value, section, option, default, BooleanState, NoBounds(), BoolNoOrder)
      ensures printer.allConfigOptions ==
        if Consulted(printer.fileconfig.value, section, option, default)
        then old(printer.allConfigOptions) + {(Lower(section), Lower(option))}
        else old(printer.allConfigOptions)
    {
      r := GetWrapper(option, default, BooleanState, NoBounds(), BoolNoOrder);
    }

    /** `getchoice(option, choices, default)`: the text, default included, must be a key of `choices`. */
    method GetChoice<V>(option: string, choices: map<string, V>, default: Option<string>) returns (r: Got<V>)
      requires printer.fileconfig.Some?
      modifies printer`allConfigOptions
      ensures r == Choice(Wrapped(printer.fileconfig.value, section, option, default, AsText, NoBounds(), NoOrder), option, section, choices)
      ensures printer.allConfigOptions ==
        if Consulted(printer.fileconfig.value, section, option, default)
        then old(printer.allConfigOptions) + {(Lower(section), Lower(option))}
        else old(printer.allConfigOptions)
    {
      var c := Get(option, default);
      if c.Failed? {
        return Failed(c.error);
      }
      if c.value !in choices {
        return Failed(NotAChoice(option, section));
      }
      r := Got(choices[c.value]);
    }

    /** `getsection(section)`. */
    method GetSection(name: string) returns (w: ConfigWrapper)
      ensures fresh(w) && w.printer == printer && w.section == name
    {
      w := new ConfigWrapper(printer, name);
    }

    /**
     * `has_section(section)`.  With the file's sections listed, a section
     * exists exactly when `get_prefix_sections` of its own name finds it.
     */
    function HasSection(name: string): (r: bool)
      requires printer.fileconfig.Some?
      reads printer`fileconfig
      ensures r <==> name in printer.fileconfig.value.options
      ensures SectionsListed(printer.fileconfig.value) ==> (r <==> name in GetPrefixSections(name))
    {
      name in printer.fileconfig.value.options
    }

    /**
     * `get_prefix_sections(prefix)`, each wrapper given by its section name:
     * the sections starting with the prefix, in file order, each one a
     * section of the file when the sections are listed.
     */
    function GetPrefixSections(prefix: string): (r: seq<string>)
      requires printer.fileconfig.Some?
      reads printer`fileconfig
      ensures |r| <= |printer.fileconfig.value.order|
      ensures forall s :: s in r <==> s in printer.fileconfig.value.order && StartsWith(s, prefix)
      ensures SectionsListed(printer.fileconfig.value) ==> forall s :: s in r ==> s in printer.fileconfig.value.options
    {
      PrefixSections(printer.fileconfig.value.order, prefix)
    }
  }
}
