# JoularJX agent properties, modelled in Dafny

JoularJX is a Java agent that profiles the energy use of a running program.
Its configuration lives in one class, `AgentProperties`
(`src/main/java/org/noureddine/joularjx/utils/AgentProperties.java`). It takes the
key/value table read from `config.properties` and turns it into five typed settings:

- the method-name prefixes to leave out of profiling (`filter-method-names`);
- the path of the power-monitor program (`powermonitor-path`);
- two runtime-data switches (`save-runtime-data`, `overwrite-runtime-data`);
- the logger level (`logger-level`).

It also answers one query, `filtersMethod`: is a method name filtered out by one of the prefixes?

This project models that class. The input is the already-parsed table, a `map<string, string>`
in which a missing key means the property is absent.

- `wrappers.dfy` (`Wrappers`): `Option` for a Java reference that may be null. `Result` for an
  operation that may throw.
- `java_strings.dfy` (`JavaStrings`): the string operations the class relies on.
  - `startsWith`.
  - `equalsIgnoreCase`, with ASCII case folding.
  - `split` on a single literal character. It follows Java's rules: with no separator the
    whole string comes back, so `""` gives `[""]`. Otherwise every piece is kept except the
    trailing empty ones, so `","` gives `[]` and `"a,,b"` gives `["a", "", "b"]`.
- `java_sets.dfy` (`JavaSets`): `Set.of` over an array. It inserts the elements in order and
  throws on the first element that is already present.
- `agent_properties.dfy` (`Utils`): the property keys and one loader function per setting.
  - The class `AgentProperties` has `const` fields. They are set once, by the constructor,
    and nothing can change them afterwards.
  - The method `FiltersMethod` is the source's loop over the prefix set, with its early exit.
  - Lemmas about how the settings depend on the table.
- `agent_properties_examples.dfy` (`UtilsExamples`): concrete tables and the settings they
  load to. These cover the empty table, a typical table and the boundary values of each key.

Construction can fail. When the filter value has a repeated piece, as in `"a,a"`, `Set.of`
throws `IllegalArgumentException` out of the Java constructor. In the model,
`AgentProperties.Create` returns `Failure(DuplicateFilterMethodName(piece))` in that case.
The Dafny constructor is only the success path.

Behaviour of the code worth noting:

- Repeated filter pieces make construction fail. They are not collapsed into one.
- Trailing empty pieces of the filter value are dropped, as Java's `split` does.
- The class reads exactly the five keys declared at `AgentProperties.java:27-35`. Every other key is ignored.
- The logger level is matched case-sensitively against `OFF`, `WARNING` and `SEVERE`.
  Anything else, `INFO` included, gives INFO. No wider level vocabulary is accepted.

## Model

| member | source | states |
|---|---|---|
| JavaStrings.StartsWith | src/main/java/org/noureddine/joularjx/utils/AgentProperties.java:61 | holds exactly when the prefix is no longer than the string and equals its leading characters; the empty prefix starts every string |
| JavaStrings.EqualsIgnoreCase | src/main/java/org/noureddine/joularjx/utils/AgentProperties.java:108-114 | two strings match exactly when they have the same length and at each position hold the same character or the same ASCII letter in the other case; in particular every string matches itself |
| JavaStrings.EqualsTrueIffSpelling | src/main/java/org/noureddine/joularjx/utils/AgentProperties.java:108-114 | equal to "true" ignoring (ASCII) case holds exactly for the strings that spell t-r-u-e letter by letter, each letter in either case |
| JavaStrings.Pieces | src/main/java/org/noureddine/joularjx/utils/AgentProperties.java:101 | a string has at least one piece between separators and no piece contains the separator |
| JavaStrings.JoinPieces | src/main/java/org/noureddine/joularjx/utils/AgentProperties.java:101 | joining the pieces of a string with the separator gives the string back |
| JavaStrings.PiecesJoin | src/main/java/org/noureddine/joularjx/utils/AgentProperties.java:101 | the pieces of a join of separator-free strings are those strings (the other direction of the round trip) |
| JavaStrings.PiecesSnocSeparator | src/main/java/org/noureddine/joularjx/utils/AgentProperties.java:101 | a separator appended to a string adds exactly one empty piece at the end |
| JavaStrings.DropTrailingEmpty | src/main/java/org/noureddine/joularjx/utils/AgentProperties.java:101 | the result is a prefix of the pieces, does not end in an empty piece, and everything removed is empty |
| JavaStrings.Split | src/main/java/org/noureddine/joularjx/utils/AgentProperties.java:101 | Java's split: no separator gives the whole string; otherwise the pieces up to the last non-empty one, untrimmed; no result piece contains the separator |
| JavaStrings.SplitJoin | src/main/java/org/noureddine/joularjx/utils/AgentProperties.java:101 | splitting a join of separator-free pieces whose last piece is non-empty gives the pieces back |
| JavaStrings.SplitIgnoresTrailingSeparator | src/main/java/org/noureddine/joularjx/utils/AgentProperties.java:101 | a trailing separator does not change the split of a non-empty string |
| JavaStrings.SplitIgnoresTrailingSeparators | src/main/java/org/noureddine/joularjx/utils/AgentProperties.java:101 | any number of trailing separators does not change the split of a non-empty string |
| JavaSets.SetOf | src/main/java/org/noureddine/joularjx/utils/AgentProperties.java:101 | Set.of succeeds iff the elements are pairwise distinct, then holds exactly them with one member per element; otherwise it reports the first element that repeats an earlier one |
| Utils.GetProperty | src/main/java/org/noureddine/joularjx/utils/AgentProperties.java:105 | getProperty is present iff the key is in the table, and then is its value |
| Utils.LoadFilterMethodNames | src/main/java/org/noureddine/joularjx/utils/AgentProperties.java:96-102 | absent or empty value gives the empty set; otherwise success iff the split pieces are distinct, the set is exactly those pieces (as many as there are pieces), and a failure names the first piece that repeats an earlier one |
| Utils.LoadPowerMonitorPath | src/main/java/org/noureddine/joularjx/utils/AgentProperties.java:104-106 | present iff the key is present, and then exactly the configured value |
| Utils.IsTrue | src/main/java/org/noureddine/joularjx/utils/AgentProperties.java:108-114 | a raw value reads as true iff it is present and spells "true" in some casing; null reads as false |
| Utils.LoadSaveRuntimeData | src/main/java/org/noureddine/joularjx/utils/AgentProperties.java:108-110 | true iff save-runtime-data is present and spells "true" in some casing |
| Utils.LoadOverwriteRuntimeData | src/main/java/org/noureddine/joularjx/utils/AgentProperties.java:112-114 | true iff overwrite-runtime-data is present and spells "true" in some casing |
| Utils.LoadLoggerLevel | src/main/java/org/noureddine/joularjx/utils/AgentProperties.java:116-140 | OFF, SEVERE or WARNING iff the value is exactly that level's name; every other value, and absence, gives INFO |
| Utils.SettingsDependOnRecognisedKeysOnly | src/main/java/org/noureddine/joularjx/utils/AgentProperties.java:27-35 | tables that agree on the five recognised keys load to the same five settings |
| Utils.UnrecognisedKeyIgnored | src/main/java/org/noureddine/joularjx/utils/AgentProperties.java:27-35 | adding or changing any other key changes no setting |
| Utils.UnrecognisedKeyRemovalIgnored | src/main/java/org/noureddine/joularjx/utils/AgentProperties.java:27-35 | removing any other key changes no setting |
| Utils.RuntimeDataSwitchesIndependent | src/main/java/org/noureddine/joularjx/utils/AgentProperties.java:108-114 | changing either runtime-data key leaves the other switch unchanged |
| Utils.LevelNameSelectsLevel | src/main/java/org/noureddine/joularjx/utils/AgentProperties.java:123-137 | configuring a level's name selects that level, INFO included |
| Utils.UnknownLevelIsInfo | src/main/java/org/noureddine/joularjx/utils/AgentProperties.java:133-136 | any value other than exactly OFF, WARNING or SEVERE selects INFO; loading the level never fails |
| Utils.AgentProperties.constructor | src/main/java/org/noureddine/joularjx/utils/AgentProperties.java:50-57 | on a table whose filter value Set.of accepts, every field is what its loader makes of the table |
| Utils.AgentProperties.Create | src/main/java/org/noureddine/joularjx/utils/AgentProperties.java:50-57 | construction fails, with the loader's error, iff the filter value has a repeated piece; otherwise a fresh, valid instance over the table |
| Utils.AgentProperties.FiltersMethod | src/main/java/org/noureddine/joularjx/utils/AgentProperties.java:59-66 | true iff some configured prefix starts the method name |
| Utils.AgentProperties.GetLoggerLevel | src/main/java/org/noureddine/joularjx/utils/AgentProperties.java:68-70 | the logger level loaded from the table the instance was built from |
| Utils.AgentProperties.GetPowerMonitorPath | src/main/java/org/noureddine/joularjx/utils/AgentProperties.java:72-74 | the power-monitor path loaded from the table, absent iff the key is |
| Utils.AgentProperties.SavesRuntimeData | src/main/java/org/noureddine/joularjx/utils/AgentProperties.java:76-78 | the save-runtime-data switch loaded from the table |
| Utils.AgentProperties.OverwritesRuntimeData | src/main/java/org/noureddine/joularjx/utils/AgentProperties.java:80-82 | the overwrite-runtime-data switch loaded from the table |
| Utils.InstancesFromAgreeingTablesAgree | src/main/java/org/noureddine/joularjx/utils/AgentProperties.java:40-57 | two instances built from tables that agree on the recognised keys have the same prefixes and the same getter results |
| Utils.NoFilterConfiguredFiltersNothing | src/main/java/org/noureddine/joularjx/utils/AgentProperties.java:97-100 | with filter-method-names absent or empty, no method name is filtered |
| Utils.EmptyPieceFiltersEverything | src/main/java/org/noureddine/joularjx/utils/AgentProperties.java:59-66 | when the split keeps an empty piece, every method name is filtered |
| UtilsExamples.EmptyTableDefaults | src/main/java/org/noureddine/joularjx/utils/AgentProperties.java:96-140 | an empty table gives no prefixes, no path, both switches false and INFO |
| UtilsExamples.SplitKeepsInnerEmptyPiece | src/main/java/org/noureddine/joularjx/utils/AgentProperties.java:101 | "a,,b" splits into "a", "" and "b" |
| UtilsExamples.InnerEmptyPieceKept | src/main/java/org/noureddine/joularjx/utils/AgentProperties.java:96-102 | filter value "a,,b" gives the prefixes {"a", "", "b"} |
| UtilsExamples.SplitDoesNotTrim | src/main/java/org/noureddine/joularjx/utils/AgentProperties.java:101 | "a, b" splits into "a" and " b" |
| UtilsExamples.PiecesNotTrimmed | src/main/java/org/noureddine/joularjx/utils/AgentProperties.java:96-102 | filter value "a, b" gives the prefixes {"a", " b"} |
| UtilsExamples.SplitDropsTrailingEmptyPieces | src/main/java/org/noureddine/joularjx/utils/AgentProperties.java:101 | "a,b,," splits into "a" and "b" |
| UtilsExamples.TrailingEmptyPiecesDropped | src/main/java/org/noureddine/joularjx/utils/AgentProperties.java:96-102 | filter value "a,b,," gives the prefixes {"a", "b"} |
| UtilsExamples.OnlyCommasGiveNoPrefix | src/main/java/org/noureddine/joularjx/utils/AgentProperties.java:96-102 | filter value "," gives no prefix at all |
| UtilsExamples.SplitRepeatsPiece | src/main/java/org/noureddine/joularjx/utils/AgentProperties.java:101 | "a,a" splits into "a" twice |
| UtilsExamples.RepeatedPieceRefused | src/main/java/org/noureddine/joularjx/utils/AgentProperties.java:101 | filter value "a,a" fails construction, naming "a" |
| UtilsExamples.SplitPackagePrefixes | src/main/java/org/noureddine/joularjx/utils/AgentProperties.java:101 | "java.,sun.,jdk." splits into the three package prefixes |
| UtilsExamples.PackagePrefixesLoaded | src/main/java/org/noureddine/joularjx/utils/AgentProperties.java:96-102 | a table with that filter value gives exactly those three prefixes |
| UtilsExamples.TypicalTableFilters | src/main/java/org/noureddine/joularjx/utils/AgentProperties.java:96-102 | the typical five-key table gives the three package prefixes |
| UtilsExamples.TypicalTableSettings | src/main/java/org/noureddine/joularjx/utils/AgentProperties.java:104-140 | the typical table gives its path verbatim, save on, overwrite off ("false") and WARNING |
| UtilsExamples.UpperCaseTrueIsTrue | src/main/java/org/noureddine/joularjx/utils/AgentProperties.java:108-114 | "TRUE" and "tRuE" read as true |
| UtilsExamples.OtherWordsAreFalse | src/main/java/org/noureddine/joularjx/utils/AgentProperties.java:108-110 | "1" and "yes" read as false |
| UtilsExamples.LowerCaseLevelIsInfo | src/main/java/org/noureddine/joularjx/utils/AgentProperties.java:123-136 | "warning" in lower case selects INFO |

## Left out

- `loadProperties` (lines 84-94) is not modelled. It opens `config.properties` through the file system and parses it with `java.util.Properties.load`, a library parser that is not part of this model. Its result, the parsed table, is the input of every model function.
- `System.exit(1)` after an `IOException` while reading the file is left out. It is process termination on an I/O failure, and I/O is outside the model.
- Java strings are sequences of UTF-16 code units, while a Dafny `string` is a sequence of Unicode scalar values. The two agree on well-formed text for splitting on `,`, for `startsWith` and for the comparison with "true". A lone surrogate, which a `\uXXXX` escape in a properties file can produce, cannot be represented.
- `Utils.IsTrue`, `JavaStrings.EqualsIgnoreCase`: case folding covers the ASCII letters only. Java's `equalsIgnoreCase` also folds non-ASCII characters; none of those folds to a letter of "true".
- `java.util.logging.Level` is reduced to the four values the class can produce: OFF, SEVERE, WARNING and INFO. Nothing else about logging is modelled.
- The text of the `IllegalArgumentException` message is not modelled. Only the repeated piece it names is kept.
- The empty filter collection is `Collections.emptyList()` in the source and the empty set in the model. The only reader, `filtersMethod`, cannot tell them apart.
- The iteration order over the prefix set is not modelled. `FiltersMethod` picks any remaining prefix, and its result does not depend on that choice.
