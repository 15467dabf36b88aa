/** The agent's configuration: the key/value table read from
    config.properties, turned into typed settings that never change once
    the AgentProperties object exists. */
module Utils {
  import opened Wrappers
  import opened JavaStrings
  import opened JavaSets

  const FilterMethodNameProperty: string := "filter-method-names"
  const PowerMonitorPathProperty: string := "powermonitor-path"
  const SaveRuntimeDataProperty: string := "save-runtime-data"
  const OverwriteRuntimeDataProperty: string := "overwrite-runtime-data"
  const LoggerLevelProperty: string := "logger-level"

  /** The only keys the configuration reads. */
  const RecognisedKeys: set<string> := {
    FilterMethodNameProperty, PowerMonitorPathProperty, SaveRuntimeDataProperty,
    OverwriteRuntimeDataProperty, LoggerLevelProperty
  }

  /** The java.util.logging levels the configuration can select. */
  datatype Level = OFF | SEVERE | WARNING | INFO

  /** Level.getName(). */
  function LevelName(level: Level): string
  {
    match level
    case OFF => "OFF"
    case SEVERE => "SEVERE"
    case WARNING => "WARNING"
    case INFO => "INFO"
  }

  /** Why an AgentProperties cannot be built: Set.of refused a filter value
      in which the named piece occurs twice. */
  datatype LoadError = DuplicateFilterMethodName(name: string)

  /** Properties.getProperty: the raw value of `key`, None when absent. */
  function GetProperty(properties: map<string, string>, key: string): (r: Option<string>)
    ensures r.Some? <==> key in properties
    ensures r.Some? ==> r.value == properties[key]
  {
    if key in properties then Some(properties[key]) else None
  }

  /** The method-name prefixes to leave out of profiling. Absent or empty:
      no prefix. Otherwise the pieces of the value between commas, as Java's
      split gives them (untrimmed, trailing empty pieces dropped), which
      Set.of turns into a set or refuses when a piece occurs twice. */
  function LoadFilterMethodNames(properties: map<string, string>): (r: Result<set<string>, LoadError>)
    ensures GetProperty(properties, FilterMethodNameProperty) in {None, Some("")} ==> r == Success({})
    ensures FilterMethodNameProperty in properties && properties[FilterMethodNameProperty] != "" ==>
      var pieces := Split(properties[FilterMethodNameProperty], ',');
      && (r.Success? <==> Distinct(pieces))
      && (r.Success? ==> r.value == Elements(pieces) && |r.value| == |pieces|)
      && (r.Failure? ==> exists j :: FirstRepeatAt(pieces, j) && pieces[j] == r.error.name)
  {
    var filterMethods := GetProperty(properties, FilterMethodNameProperty);
    if filterMethods.None? || filterMethods.value == "" then Success({})
    else
      match SetOf(Split(filterMethods.value, ','))
      case Success(names) => Success(names)
      case Failure(duplicate) => Failure(DuplicateFilterMethodName(duplicate))
  }

  /** The power monitor's path, exactly as configured, or None when the key is absent. */
  function LoadPowerMonitorPath(properties: map<string, string>): (r: Option<string>)
    ensures r.Some? <==> PowerMonitorPathProperty in properties
    ensures r.Some? ==> r.value == properties[PowerMonitorPathProperty]
  {
    GetProperty(properties, PowerMonitorPathProperty)
  }

  /** The boolean reading of a raw value: "true" in any case, nothing else. */
  function IsTrue(raw: Option<string>): (r: bool)
    ensures r <==> raw.Some? && SpellsTrue(raw.value)
  {
    if raw.None? then false
    else
      EqualsTrueIffSpelling(raw.value);
      EqualsIgnoreCase("true", raw.value)
  }

  /** Whether runtime data is saved: the value is some casing of "true". */
  function LoadSaveRuntimeData(properties: map<string, string>): (r: bool)
    ensures r <==> SaveRuntimeDataProperty in properties && SpellsTrue(properties[SaveRuntimeDataProperty])
  {
    IsTrue(GetProperty(properties, SaveRuntimeDataProperty))
  }

  /** Whether runtime data files are overwritten: the value is some casing of "true". */
  function LoadOverwriteRuntimeData(properties: map<string, string>): (r: bool)
    ensures r <==> OverwriteRuntimeDataProperty in properties && SpellsTrue(properties[OverwriteRuntimeDataProperty])
  {
    IsTrue(GetProperty(properties, OverwriteRuntimeDataProperty))
  }

  /** The logger level: OFF, WARNING or SEVERE when the value is exactly
      that level's name, INFO for anything else and when absent. */
  function LoadLoggerLevel(properties: map<string, string>): (r: Level)
    ensures forall level :: level != INFO ==>
      (r == level <==> GetProperty(properties, LoggerLevelProperty) == Some(LevelName(level)))
  {
    var loggerLevel := GetProperty(properties, LoggerLevelProperty);
    if loggerLevel.None? then INFO
    else if loggerLevel.value == "OFF" then OFF
    else if loggerLevel.value == "WARNING" then WARNING
    else if loggerLevel.value == "SEVERE" then SEVERE
    else INFO
  }

  /** Two tables agree on `key`: both lack it or both map it to the same value. */
  predicate AgreeOn(p: map<string, string>, q: map<string, string>, key: string)
  {
    GetProperty(p, key) == GetProperty(q, key)
  }

  /** Every setting is decided by the recognised keys alone: tables that
      agree on those five keys load to the same settings. */
  lemma SettingsDependOnRecognisedKeysOnly(p: map<string, string>, q: map<string, string>)
    requires forall key :: key in RecognisedKeys ==> AgreeOn(p, q, key)
    ensures LoadFilterMethodNames(p) == LoadFilterMethodNames(q)
    ensures LoadPowerMonitorPath(p) == LoadPowerMonitorPath(q)
    ensures LoadSaveRuntimeData(p) == LoadSaveRuntimeData(q)
    ensures LoadOverwriteRuntimeData(p) == LoadOverwriteRuntimeData(q)
    ensures LoadLoggerLevel(p) == LoadLoggerLevel(q)
  {
    assert AgreeOn(p, q, FilterMethodNameProperty);
    assert AgreeOn(p, q, PowerMonitorPathProperty);
    assert AgreeOn(p, q, SaveRuntimeDataProperty);
    assert AgreeOn(p, q, OverwriteRuntimeDataProperty);
    assert AgreeOn(p, q, LoggerLevelProperty);
  }

  /** Setting a key other than the recognised five changes no setting. */
  lemma UnrecognisedKeyIgnored(properties: map<string, string>, key: string, value: string)
    requires key !in RecognisedKeys
    ensures LoadFilterMethodNames(properties[key := value]) == LoadFilterMethodNames(properties)
    ensures LoadPowerMonitorPath(properties[key := value]) == LoadPowerMonitorPath(properties)
    ensures LoadSaveRuntimeData(properties[key := value]) == LoadSaveRuntimeData(properties)
    ensures LoadOverwriteRuntimeData(properties[key := value]) == LoadOverwriteRuntimeData(properties)
    ensures LoadLoggerLevel(properties[key := value]) == LoadLoggerLevel(properties)
  {
    SettingsDependOnRecognisedKeysOnly(properties[key := value], properties);
  }

  /** Removing a key other than the recognised five changes no setting. */
  lemma UnrecognisedKeyRemovalIgnored(properties: map<string, string>, key: string)
    requires key !in RecognisedKeys
    ensures LoadFilterMethodNames(properties - {key}) == LoadFilterMethodNames(properties)
    ensures LoadPowerMonitorPath(properties - {key}) == LoadPowerMonitorPath(properties)
    ensures LoadSaveRuntimeData(properties - {key}) == LoadSaveRuntimeData(properties)
    ensures LoadOverwriteRuntimeData(properties - {key}) == LoadOverwriteRuntimeData(properties)
    ensures LoadLoggerLevel(properties - {key}) == LoadLoggerLevel(properties)
  {
    SettingsDependOnRecognisedKeysOnly(properties - {key}, properties);
  }

  /** The two runtime-data switches are independent: changing the value of
      either key leaves the other switch as it was. */
  lemma RuntimeDataSwitchesIndependent(properties: map<string, string>, value: string)
    ensures LoadSaveRuntimeData(properties[OverwriteRuntimeDataProperty := value]) == LoadSaveRuntimeData(properties)
    ensures LoadOverwriteRuntimeData(properties[SaveRuntimeDataProperty := value]) == LoadOverwriteRuntimeData(properties)
  {
    assert GetProperty(properties[OverwriteRuntimeDataProperty := value], SaveRuntimeDataProperty)
      == GetProperty(properties, SaveRuntimeDataProperty);
    assert GetProperty(properties[SaveRuntimeDataProperty := value], OverwriteRuntimeDataProperty)
      == GetProperty(properties, OverwriteRuntimeDataProperty);
  }

  /** Naming a level selects it; for INFO through the explicit "INFO" case. */
  lemma LevelNameSelectsLevel(level: Level)
    ensures LoadLoggerLevel(map[LoggerLevelProperty := LevelName(level)]) == level
  {
  }

  /** The level names are matched case-sensitively, and nothing else fails:
      any value that is not exactly OFF, WARNING or SEVERE selects INFO. */
  lemma UnknownLevelIsInfo(properties: map<string, string>)
    requires GetProperty(properties, LoggerLevelProperty) !in {Some("OFF"), Some("WARNING"), Some("SEVERE")}
    ensures LoadLoggerLevel(properties) == INFO
  {
    assert LevelName(OFF) == "OFF" && LevelName(WARNING) == "WARNING" && LevelName(SEVERE) == "SEVERE";
  }

  /** The settings of the agent. Each field is set once, by the constructor,
      from the property table alone. */
  class AgentProperties {
    const properties: map<string, string>
    const filterMethodNames: set<string>
    const powerMonitorPath: Option<string>
    const saveRuntimeData: bool
    const overwriteRuntimeData: bool
    const loggerLevel: Level

    /** Every field holds what its loader makes of `properties`. */
    ghost predicate Valid()
    {
      && LoadFilterMethodNames(properties) == Success(filterMethodNames)
      && powerMonitorPath == LoadPowerMonitorPath(properties)
      && saveRuntimeData == LoadSaveRuntimeData(properties)
      && overwriteRuntimeData == LoadOverwriteRuntimeData(properties)
      && loggerLevel == LoadLoggerLevel(properties)
    }

    /** The success path of construction: the filter value is accepted by Set.of. */
    constructor (properties: map<string, string>)
      requires LoadFilterMethodNames(properties).Success?
      ensures this.properties == properties
      ensures Valid()
    {
      this.properties := properties;
      this.filterMethodNames := LoadFilterMethodNames(properties).value;
      this.powerMonitorPath := LoadPowerMonitorPath(properties);
      this.saveRuntimeData := LoadSaveRuntimeData(properties);
      this.overwriteRuntimeData := LoadOverwriteRuntimeData(properties);
      this.loggerLevel := LoadLoggerLevel(properties);
    }

    /** Construction from a property table: fails, without producing an
        object, exactly when the filter value holds a repeated piece. */
    static method Create(properties: map<string, string>) returns (r: Result<AgentProperties, LoadError>)
      ensures r.Failure? <==> LoadFilterMethodNames(properties).Failure?
      ensures r.Failure? ==> r.error == LoadFilterMethodNames(properties).error
      ensures r.Success? ==> fresh(r.value) && r.value.Valid() && r.value.properties == properties
    {
      var names := LoadFilterMethodNames(properties);
      if names.Failure? {
        return Failure(names.error);
      }
      var agentProperties := new AgentProperties(properties);
      return Success(agentProperties);
    }

    /** Whether a method is left out of profiling: some configured prefix
        starts its name. */
    method FiltersMethod(methodName: string) returns (filtered: bool)
      ensures filtered <==> exists p :: p in filterMethodNames && StartsWith(methodName, p)
    {
      var remaining := filterMethodNames;
      while remaining != {}
        invariant remaining <= filterMethodNames
        invariant forall p :: p in filterMethodNames - remaining ==> !StartsWith(methodName, p)
        decreases remaining
      {
        var filterMethod :| filterMethod in remaining;
        if StartsWith(methodName, filterMethod) {
          return true;
        }
        remaining := remaining - {filterMethod};
      }
      return false;
    }

    function GetLoggerLevel(): (r: Level)
      requires Valid()
      ensures r == LoadLoggerLevel(properties)
    {
      loggerLevel
    }

    function GetPowerMonitorPath(): (r: Option<string>)
      requires Valid()
      ensures r == LoadPowerMonitorPath(properties)
    {
      powerMonitorPath
    }

    function SavesRuntimeData(): (r: bool)
      requires Valid()
      ensures r == LoadSaveRuntimeData(properties)
    {
      saveRuntimeData
    }

    function OverwritesRuntimeData(): (r: bool)
      requires Valid()
      ensures r == LoadOverwriteRuntimeData(properties)
    {
      overwriteRuntimeData
    }
  }

  /** Built from tables that agree on the recognised keys, two instances
      agree on every setting, and so on every getter and on FiltersMethod. */
  lemma InstancesFromAgreeingTablesAgree(a: AgentProperties, b: AgentProperties)
    requires a.Valid() && b.Valid()
    requires forall key :: key in RecognisedKeys ==> AgreeOn(a.properties, b.properties, key)
    ensures a.filterMethodNames == b.filterMethodNames
    ensures a.GetPowerMonitorPath() == b.GetPowerMonitorPath()
    ensures a.SavesRuntimeData() == b.SavesRuntimeData()
    ensures a.OverwritesRuntimeData() == b.OverwritesRuntimeData()
    ensures a.GetLoggerLevel() == b.GetLoggerLevel()
  {
    SettingsDependOnRecognisedKeysOnly(a.properties, b.properties);
  }

  /** With the filter key absent or empty, no method is filtered. */
  lemma NoFilterConfiguredFiltersNothing(a: AgentProperties, methodName: string)
    requires a.Valid()
    requires GetProperty(a.properties, FilterMethodNameProperty) in {None, Some("")}
    ensures !exists p :: p in a.filterMethodNames && StartsWith(methodName, p)
  {
  }

  /** A configured value whose split keeps an empty piece (as "a,,b" or
      ",a" do) filters every method. */
  lemma EmptyPieceFiltersEverything(a: AgentProperties, methodName: string)
    requires a.Valid()
    ensures
      && FilterMethodNameProperty in a.properties && a.properties[FilterMethodNameProperty] != ""
      && "" in Split(a.properties[FilterMethodNameProperty], ',')
      ==> exists p :: p in a.filterMethodNames && StartsWith(methodName, p)
  {
    assert StartsWith(methodName, "");
  }
}
