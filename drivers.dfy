// The stepper-driver factory `get_driver` of klippy/drivers/__init__.py.
module Drivers {
  import opened Wrappers
  import opened Text
  import Klippy

  /** The two driver classes the factory can build. */
  datatype DriverClass = DriverBase | TMC2130

  /** What `get_driver` builds, and from which config section; or the `KeyError` of an unknown type. */
  datatype Selection = Selected(cls: DriverClass, section: string) | UnknownType(key: string)

  /** The `mapping` table, keyed by upper-case type names. */
  const MAPPING: map<string, DriverClass> :=
    map["DEFAULT" := DriverBase, "A4988" := DriverBase, "DRV8825" := DriverBase, "TMC2100" := DriverBase, "TMC2130" := TMC2130]

  /** A stepper naming a driver reads the driver's own section "driver <name>". */
  function DriverSection(section: string, name: Option<string>): (r: string)
    ensures name.Some? ==> r == "driver " + name.value
    ensures name.None? ==> r == section
  {
    if name.Some? then "driver " + name.value else section
  }

  /** `config.get('type', 'default')` in that section. */
  function DriverType(fc: Klippy.FileConfig, section: string): string
  {
    var got := Klippy.Wrapped(fc, section, "type", Some("default"), Klippy.AsText, Klippy.NoBounds(), Klippy.NoOrder);
    if got.Got? then got.value else "default"
  }

  /** The type is the option's text when present and "default" otherwise; the getter never fails here. */
  lemma DriverTypeValue(fc: Klippy.FileConfig, section: string)
    ensures Klippy.Wrapped(fc, section, "type", Some("default"), Klippy.AsText, Klippy.NoBounds(), Klippy.NoOrder).Got?
    ensures DriverType(fc, section) ==
      if Klippy.HasOption(fc, section, "type") then fc.options[section][Lower("type")] else "default"
  {
  }

  /** `mapping[type.upper()]`: the plain names give `DriverBase`, "TMC2130" gives `TMC2130`, anything else nothing. */
  function Lookup(t: string): (r: Option<DriverClass>)
    ensures r == Some(DriverBase) <==> Upper(t) in PLAIN
    ensures r == Some(TMC2130) <==> Upper(t) == "TMC2130"
    ensures r.None? <==> !(Upper(t) in PLAIN || Upper(t) == "TMC2130")
  {
    var key := Upper(t);
    MappingClasses(key);
    if key in MAPPING then Some(MAPPING[key]) else None
  }

  /**
   * `get_driver(printer, config, name)`: the class it instantiates and the
   * section it passes on, which is always the driver section; an unknown
   * type is the `KeyError` on the upper-cased type.
   */
  function GetDriver(fc: Klippy.FileConfig, section: string, name: Option<string>): (r: Selection)
    ensures r.Selected? ==> r.section == DriverSection(section, name)
    ensures r.Selected? <==> Lookup(DriverType(fc, DriverSection(section, name))).Some?
    ensures r.Selected? ==> Some(r.cls) == Lookup(DriverType(fc, DriverSection(section, name)))
    ensures r.UnknownType? ==> r.key == Upper(DriverType(fc, DriverSection(section, name)))
  {
    var s := DriverSection(section, name);
    var t := DriverType(fc, s);
    match Lookup(t)
    case Some(cls) => Selected(cls, s)
    case None => UnknownType(Upper(t))
  }

  /** The type names of the plain step/dir drivers. */
  const PLAIN: set<string> := {"DEFAULT", "A4988", "DRV8825", "TMC2100"}

  /** The four plain drivers select `DriverBase`, "TMC2130" selects `TMC2130`, and any other key is missing. */
  lemma MappingClasses(key: string)
    ensures key in MAPPING && MAPPING[key] == DriverBase <==> key in PLAIN
    ensures key in MAPPING && MAPPING[key] == TMC2130 <==> key == "TMC2130"
    ensures key in MAPPING <==> key in PLAIN || key == "TMC2130"
  {
  }

  /** So `get_driver` builds `DriverBase`, `TMC2130`, or raises `KeyError`, by the upper-cased type. */
  lemma GetDriverClasses(fc: Klippy.FileConfig, section: string, name: Option<string>)
    ensures var key := Upper(DriverType(fc, DriverSection(section, name)));
      (GetDriver(fc, section, name) == Selected(DriverBase, DriverSection(section, name))) <==> key in PLAIN
    ensures var key := Upper(DriverType(fc, DriverSection(section, name)));
      (GetDriver(fc, section, name) == Selected(TMC2130, DriverSection(section, name))) <==> key == "TMC2130"
    ensures var key := Upper(DriverType(fc, DriverSection(section, name)));
      GetDriver(fc, section, name) == UnknownType(key) <==> !(key in PLAIN || key == "TMC2130")
  {
    MappingClasses(Upper(DriverType(fc, DriverSection(section, name))));
  }

  /** Without a `type` option the driver is the plain `DriverBase`. */
  lemma DefaultIsDriverBase(fc: Klippy.FileConfig, section: string, name: Option<string>)
    requires !Klippy.HasOption(fc, DriverSection(section, name), "type")
    ensures GetDriver(fc, section, name) == Selected(DriverBase, DriverSection(section, name))
  {
    DriverTypeValue(fc, DriverSection(section, name));
    assert Upper("default") == "DEFAULT";
  }

  /** Matching ignores case: two spellings that differ only in case select the same class. */
  lemma LookupIgnoresCase(a: string, b: string)
    requires EqualIgnoringCase(a, b)
    ensures Lookup(a) == Lookup(b)
  {
    UpperEqIff(a, b);
  }
}
