/** Concrete property tables and the settings they load to. */
module UtilsExamples {
  import opened Wrappers
  import opened JavaStrings
  import opened JavaSets
  import opened Utils

  // Solver aid for the concrete examples below.
  lemma ElementsOfTwo(a: string, b: string)
    ensures Elements([a, b]) == {a, b}
  {
  }

  // Solver aid for the concrete examples below.
  lemma ElementsOfThree(a: string, b: string, c: string)
    ensures Elements([a, b, c]) == {a, b, c}
  {
  }

  // Solver aid for the concrete examples below.
  lemma DistinctOfThree(a: string, b: string, c: string)
    requires a != b && a != c && b != c
    ensures Distinct([a, b, c])
  {
  }

  /** An empty table gives every default. */
  lemma EmptyTableDefaults()
    ensures LoadFilterMethodNames(map[]) == Success({})
    ensures LoadPowerMonitorPath(map[]) == None
    ensures !LoadSaveRuntimeData(map[]) && !LoadOverwriteRuntimeData(map[])
    ensures LoadLoggerLevel(map[]) == INFO
  {
  }

  /** "a,,b" splits into three pieces, the inner one empty. */
  lemma SplitKeepsInnerEmptyPiece()
    ensures Split("a,,b", ',') == ["a", "", "b"]
  {
    var ps := ["a", "", "b"];
    assert Join(ps, ',') == "a,,b" by {
      assert Join(ps[2..], ',') == "b";
      assert Join(ps[1..], ',') == ",b";
    }
    SplitJoin(ps, ',');
  }

  /** "a,,b" configures the empty prefix, which starts every name. */
  lemma InnerEmptyPieceKept()
    ensures LoadFilterMethodNames(map[FilterMethodNameProperty := "a,,b"]) == Success({"a", "", "b"})
  {
    SplitKeepsInnerEmptyPiece();
    assert GetProperty(map[FilterMethodNameProperty := "a,,b"], FilterMethodNameProperty) == Some("a,,b");
    assert Distinct(["a", "", "b"]);
    ElementsOfThree("a", "", "b");
  }

  /** "a, b" splits without trimming: the second piece keeps its space. */
  lemma SplitDoesNotTrim()
    ensures Split("a, b", ',') == ["a", " b"]
  {
    var ps := ["a", " b"];
    assert Join(ps, ',') == "a, b";
    SplitJoin(ps, ',');
  }

  lemma PiecesNotTrimmed()
    ensures LoadFilterMethodNames(map[FilterMethodNameProperty := "a, b"]) == Success({"a", " b"})
  {
    SplitDoesNotTrim();
    assert GetProperty(map[FilterMethodNameProperty := "a, b"], FilterMethodNameProperty) == Some("a, b");
    assert Distinct(["a", " b"]);
    ElementsOfTwo("a", " b");
  }

  /** "a,b,," splits into two pieces: trailing empty pieces are dropped. */
  lemma SplitDropsTrailingEmptyPieces()
    ensures Split("a,b,,", ',') == ["a", "b"]
  {
    var ps := ["a", "b"];
    assert Join(ps, ',') == "a,b";
    SplitJoin(ps, ',');
    SplitIgnoresTrailingSeparators("a,b", ',', 2);
    assert "a,b" + seq(2, _ => ',') == "a,b,,";
  }

  lemma TrailingEmptyPiecesDropped()
    ensures LoadFilterMethodNames(map[FilterMethodNameProperty := "a,b,,"]) == Success({"a", "b"})
  {
    SplitDropsTrailingEmptyPieces();
    assert GetProperty(map[FilterMethodNameProperty := "a,b,,"], FilterMethodNameProperty) == Some("a,b,,");
    assert Distinct(["a", "b"]);
    ElementsOfTwo("a", "b");
  }

  /** ",": both pieces are empty and both are dropped, leaving no prefix. */
  lemma OnlyCommasGiveNoPrefix()
    ensures LoadFilterMethodNames(map[FilterMethodNameProperty := ","]) == Success({})
  {
    assert Pieces(",", ',') == ["", ""];
    assert Split(",", ',') == [];
  }

  /** "a,a" splits into the same piece twice. */
  lemma SplitRepeatsPiece()
    ensures Split("a,a", ',') == ["a", "a"]
  {
    var ps := ["a", "a"];
    assert Join(ps, ',') == "a,a";
    SplitJoin(ps, ',');
  }

  /** "a,a": Set.of refuses the repeated piece, so construction fails. */
  lemma RepeatedPieceRefused()
    ensures LoadFilterMethodNames(map[FilterMethodNameProperty := "a,a"]) == Failure(DuplicateFilterMethodName("a"))
  {
    SplitRepeatsPiece();
    assert GetProperty(map[FilterMethodNameProperty := "a,a"], FilterMethodNameProperty) == Some("a,a");
  }

  /** A typical table: three package prefixes, a monitor path, runtime data
      saved but not overwritten, and WARNING level. */
  const TypicalTable: map<string, string> := map[
    FilterMethodNameProperty := "java.,sun.,jdk.",
    PowerMonitorPathProperty := "/usr/local/bin/pmon",
    SaveRuntimeDataProperty := "true",
    OverwriteRuntimeDataProperty := "false",
    LoggerLevelProperty := "WARNING"]

  lemma SplitPackagePrefixes()
    ensures Split("java.,sun.,jdk.", ',') == ["java.", "sun.", "jdk."]
  {
    var ps := ["java.", "sun.", "jdk."];
    assert Join(ps, ',') == "java.,sun.,jdk." by {
      assert Join(ps[2..], ',') == "jdk.";
      assert Join(ps[1..], ',') == "sun.,jdk.";
    }
    SplitJoin(ps, ',');
  }

  // Solver aid for the concrete examples below.
  lemma PackagePrefixesDiffer()
    ensures "java." != "sun." && "java." != "jdk." && "sun." != "jdk."
  {
    assert "java."[0] == 'j' && "sun."[0] == 's' && "jdk."[1] == 'd' && "java."[1] == 'a';
  }

  /** Any table whose filter value is "java.,sun.,jdk." filters those three packages. */
  lemma PackagePrefixesLoaded(properties: map<string, string>)
    requires GetProperty(properties, FilterMethodNameProperty) == Some("java.,sun.,jdk.")
    ensures LoadFilterMethodNames(properties) == Success({"java.", "sun.", "jdk."})
  {
    SplitPackagePrefixes();
    PackagePrefixesDiffer();
    DistinctOfThree("java.", "sun.", "jdk.");
    ElementsOfThree("java.", "sun.", "jdk.");
  }

  lemma TypicalTableFilters()
    ensures LoadFilterMethodNames(TypicalTable) == Success({"java.", "sun.", "jdk."})
  {
    assert GetProperty(TypicalTable, FilterMethodNameProperty) == Some("java.,sun.,jdk.");
    PackagePrefixesLoaded(TypicalTable);
  }

  lemma TypicalTableSettings()
    ensures LoadPowerMonitorPath(TypicalTable) == Some("/usr/local/bin/pmon")
    ensures LoadSaveRuntimeData(TypicalTable) && !LoadOverwriteRuntimeData(TypicalTable)
    ensures LoadLoggerLevel(TypicalTable) == WARNING
  {
    assert GetProperty(TypicalTable, SaveRuntimeDataProperty) == Some("true");
    assert GetProperty(TypicalTable, OverwriteRuntimeDataProperty) == Some("false");
    assert GetProperty(TypicalTable, LoggerLevelProperty) == Some("WARNING");
    assert "false"[0] == 'f';
  }

  /** Booleans ignore case. */
  lemma UpperCaseTrueIsTrue()
    ensures LoadSaveRuntimeData(map[SaveRuntimeDataProperty := "TRUE"])
    ensures LoadOverwriteRuntimeData(map[OverwriteRuntimeDataProperty := "tRuE"])
  {
  }

  /** Only "true" reads as true: "1" and "yes" read as false. */
  lemma OtherWordsAreFalse()
    ensures !LoadSaveRuntimeData(map[SaveRuntimeDataProperty := "1"])
    ensures !LoadSaveRuntimeData(map[SaveRuntimeDataProperty := "yes"])
  {
  }

  /** Level names are case-sensitive: "warning" selects INFO. */
  lemma LowerCaseLevelIsInfo()
    ensures LoadLoggerLevel(map[LoggerLevelProperty := "warning"]) == INFO
  {
  }
}
