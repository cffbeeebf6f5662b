/** The `export` command: which data types a run covers, which service
    each type is read from, the per-type result records of the run (a
    type that fails is recorded as failed and the run goes on), and the
    totals of the closing summary. */
module Exporter {
  import opened Wrappers
  import opened Json
  import opened Tally
  import opened FileExport
  import Config

  // ------------------------------------------------------------ export plan

  /** Every data type, in the order they are exported. */
  const ALL_TYPES: seq<string> := ["events", "suppressions", "domains", "lists", "templates", "stats"]

  const UNKNOWN_TYPE := "Unknown data type: "

  /** The options of the `export` command. */
  datatype ExportFlags = ExportFlags(
    all: bool, events: bool, suppressions: bool, domains: bool, lists: bool, templates: bool, stats: bool,
    format: string, domain: Value, dateFrom: Value, dateTo: Value, output: Value)

  /** The option that selects the data type `t`. */
  predicate Selects(options: ExportFlags, t: string) {
    if t == "events" then options.events
    else if t == "suppressions" then options.suppressions
    else if t == "domains" then options.domains
    else if t == "lists" then options.lists
    else if t == "templates" then options.templates
    else if t == "stats" then options.stats
    else false
  }

  /** The types of `types` whose option is set, in the same order. */
  function Selected(options: ExportFlags, types: seq<string>): seq<string> {
    if types == [] then []
    else
      var last := types[|types| - 1];
      Selected(options, types[..|types| - 1]) + (if Selects(options, last) then [last] else [])
  }

  lemma SelectedSnoc(options: ExportFlags, types: seq<string>, k: nat)
    requires k < |types|
    ensures Selected(options, types[..k + 1]) == Selected(options, types[..k]) + Pick(Selects(options, types[k]), types[k])
  {
    assert types[..k + 1][..k] == types[..k];
  }

  /** Each data type is selected by its own option. */
  lemma SelectsOwnOption(options: ExportFlags)
    ensures Selects(options, ALL_TYPES[0]) == options.events
    ensures Selects(options, ALL_TYPES[1]) == options.suppressions
    ensures Selects(options, ALL_TYPES[2]) == options.domains
    ensures Selects(options, ALL_TYPES[3]) == options.lists
    ensures Selects(options, ALL_TYPES[4]) == options.templates
    ensures Selects(options, ALL_TYPES[5]) == options.stats
  {
  }

  /** The types a run exports: all of them with `--all` or when no type is
      selected, otherwise the selected ones. */
  function Plan(options: ExportFlags): seq<string> {
    if options.all || Selected(options, ALL_TYPES) == [] then ALL_TYPES
    else Selected(options, ALL_TYPES)
  }

  /** `[t]` when the type is selected, nothing otherwise. */
  function Pick(selected: bool, t: string): seq<string> {
    if selected then [t] else []
  }

  lemma SelectedFirstThree(options: ExportFlags)
    ensures Selected(options, ALL_TYPES[..3])
            == [] + Pick(options.events, "events") + Pick(options.suppressions, "suppressions")
               + Pick(options.domains, "domains")
  {
    assert Selected(options, ALL_TYPES[..1]) == [] + Pick(options.events, "events") by {
      assert ALL_TYPES[..0] == [];
      SelectsOwnOption(options);
      SelectedSnoc(options, ALL_TYPES, 0);
    }
    assert Selected(options, ALL_TYPES[..2])
           == [] + Pick(options.events, "events") + Pick(options.suppressions, "suppressions") by {
      SelectsOwnOption(options);
      SelectedSnoc(options, ALL_TYPES, 1);
    }
    SelectsOwnOption(options);
    SelectedSnoc(options, ALL_TYPES, 2);
  }

  /** The selected types, option by option in the order of `ALL_TYPES`. */
  lemma SelectedAllTypes(options: ExportFlags)
    ensures Selected(options, ALL_TYPES)
            == [] + Pick(options.events, "events") + Pick(options.suppressions, "suppressions")
               + Pick(options.domains, "domains") + Pick(options.lists, "lists")
               + Pick(options.templates, "templates") + Pick(options.stats, "stats")
  {
    SelectsOwnOption(options);
    SelectedFirstThree(options);
    var front := [] + Pick(options.events, "events") + Pick(options.suppressions, "suppressions")
                 + Pick(options.domains, "domains");
    SelectedSnoc(options, ALL_TYPES, 3);
    assert Selected(options, ALL_TYPES[..4]) == front + Pick(options.lists, "lists");
    SelectedSnoc(options, ALL_TYPES, 4);
    assert Selected(options, ALL_TYPES[..5]) == front + Pick(options.lists, "lists") + Pick(options.templates, "templates");
    SelectedSnoc(options, ALL_TYPES, 5);
    assert ALL_TYPES[..6] == ALL_TYPES;
  }

  /** `if (selected) exportTypes.push(t)`. */
  method AddIfSelected(exportTypes: seq<string>, selected: bool, t: string) returns (r: seq<string>)
    ensures r == exportTypes + Pick(selected, t)
  {
    r := exportTypes;
    if selected {
      r := r + [t];
    }
  }

  /** `getExportOptions(options)`: the plan above, built option by option. */
  method GetExportOptions(options: ExportFlags) returns (exportTypes: seq<string>)
    ensures exportTypes == Plan(options)
  {
    if options.all {
      return ALL_TYPES;
    }
    exportTypes := [];
    exportTypes := AddIfSelected(exportTypes, options.events, "events");
    exportTypes := AddIfSelected(exportTypes, options.suppressions, "suppressions");
    exportTypes := AddIfSelected(exportTypes, options.domains, "domains");
    exportTypes := AddIfSelected(exportTypes, options.lists, "lists");
    exportTypes := AddIfSelected(exportTypes, options.templates, "templates");
    exportTypes := AddIfSelected(exportTypes, options.stats, "stats");
    SelectedAllTypes(options);
    if |exportTypes| == 0 {
      return ALL_TYPES;
    }
  }

  lemma {:induction false} SelectedMembers(options: ExportFlags, types: seq<string>, t: string)
    ensures t in Selected(options, types) <==> t in types && Selects(options, t)
    decreases |types|
  {
    if types != [] {
      var init := types[..|types| - 1];
      SelectedMembers(options, init, t);
      assert types == init + [types[|types| - 1]];
    }
  }

  lemma {:induction false} SelectedDistinct(options: ExportFlags, types: seq<string>)
    requires Distinct(types)
    ensures Distinct(Selected(options, types))
    decreases |types|
  {
    if types != [] {
      var init := types[..|types| - 1];
      var last := types[|types| - 1];
      var front := Selected(options, init);
      SelectedDistinct(options, init);
      forall t | t in front
        ensures t != last
      {
        SelectedMembers(options, init, t);
      }
      var tail: seq<string> := if Selects(options, last) then [last] else [];
      var r := front + tail;
      forall i, j | 0 <= i < j < |r|
        ensures r[i] != r[j]
      {
        if j >= |front| {
          assert r[i] == front[i] && r[i] in front;
        }
      }
    }
  }

  /** The plan is never empty, has no repeats, holds only known types, and
      holds a type exactly when `--all` is given, when no type is selected,
      or when that type is selected. */
  lemma PlanMeaning(options: ExportFlags, t: string)
    ensures Plan(options) != [] && Distinct(Plan(options))
    ensures t in Plan(options) <==>
              t in ALL_TYPES && (options.all || Selected(options, ALL_TYPES) == [] || Selects(options, t))
  {
    SelectedMembers(options, ALL_TYPES, t);
    SelectedDistinct(options, ALL_TYPES);
  }

  /** Nothing selected and no `--all` means every type. */
  lemma NothingSelectedMeansAll(options: ExportFlags)
    requires !options.events && !options.suppressions && !options.domains
    requires !options.lists && !options.templates && !options.stats
    ensures Plan(options) == ALL_TYPES
  {
    forall t | t in ALL_TYPES
      ensures !Selects(options, t)
    {
    }
    if Selected(options, ALL_TYPES) != [] {
      SelectedMembers(options, ALL_TYPES, Selected(options, ALL_TYPES)[0]);
    }
  }

  // ---------------------------------------------------------- exportDataType

  /** What each service gives for the current configuration: its data, or
      the message of the error it throws. */
  datatype Services = Services(
    events: Result<Value, string>, suppressions: Result<Value, string>, domains: Result<Value, string>,
    lists: Result<Value, string>, templates: Result<Value, string>, stats: Result<Value, string>)

  /** The outcome of the `k`-th service, in the order of `ALL_TYPES`. */
  function ServiceAt(services: Services, k: nat): Result<Value, string>
    requires k < |ALL_TYPES|
  {
    [services.events, services.suppressions, services.domains,
     services.lists, services.templates, services.stats][k]
  }

  /** The position of `t` in `types`, when it occurs. */
  function IndexOf(types: seq<string>, t: string): (k: nat)
    requires t in types
    ensures k < |types| && types[k] == t
  {
    if types[0] == t then 0 else 1 + IndexOf(types[1..], t)
  }

  /** The data of one type, read from the service for that type; any other
      type name is an error. */
  function ExportDataType(dataType: string, services: Services): (r: Result<Value, string>)
    ensures dataType !in ALL_TYPES ==> r == Err(UNKNOWN_TYPE + dataType)
    ensures dataType in ALL_TYPES ==> r == ServiceAt(services, IndexOf(ALL_TYPES, dataType))
  {
    if dataType == "events" then services.events
    else if dataType == "suppressions" then services.suppressions
    else if dataType == "domains" then services.domains
    else if dataType == "lists" then services.lists
    else if dataType == "templates" then services.templates
    else if dataType == "stats" then services.stats
    else Err(UNKNOWN_TYPE + dataType)
  }

  /** Every type of the plan is read from its own service, never through
      the unknown-type branch. */
  lemma PlannedTypesAreKnown(options: ExportFlags, services: Services, i: nat)
    requires i < |Plan(options)|
    ensures Plan(options)[i] in ALL_TYPES
    ensures ExportDataType(Plan(options)[i], services) == ServiceAt(services, IndexOf(ALL_TYPES, Plan(options)[i]))
  {
    PlanMeaning(options, Plan(options)[i]);
  }

  // ----------------------------------------------------------- handleExport

  /** The number of records reported for the data of one type: the length
      of an array, the number of keys of any other truthy value, and zero
      for a falsy one. */
  function RecordCount(data: Value): (n: nat)
    ensures data.Arr? ==> n == |data.items|
    ensures !data.Arr? && Truthy(data) ==> n == |Keys(data)|
    ensures !Truthy(data) ==> n == 0
  {
    if data.Arr? then |data.items| else if Truthy(data) then |Keys(data)| else 0
  }

  /** The count reported in the summary agrees with the count written into
      the JSON export exactly for arrays and for truthy values with one key. */
  lemma RecordCountAgreement(data: Value)
    ensures RecordCount(data) == TotalRecords(data) <==>
              data.Arr? || (Truthy(data) && |Keys(data)| == 1)
  {
  }

  datatype Status = Success | Failure

  /** What the run records for one data type. */
  datatype ExportResult = ExportResult(
    recordCount: nat, files: seq<FilePath>, duration: string, status: Status, errors: Option<seq<string>>)

  /** The configuration after the command's options override it: a truthy
      `--domain`, `--date-from`, `--date-to` or `--output` replaces the
      configured value. */
  function Override(config: Config.Settings, options: ExportFlags): (c: Config.Settings)
    ensures c.domain == (if Truthy(options.domain) then options.domain else config.domain)
    ensures c.dateFrom == (if Truthy(options.dateFrom) then options.dateFrom else config.dateFrom)
    ensures c.dateTo == (if Truthy(options.dateTo) then options.dateTo else config.dateTo)
    ensures c.outputDir == (if Truthy(options.output) then ToString(options.output) else config.outputDir)
    ensures c.apiKey == config.apiKey && c.region == config.region && c.sendingKey == config.sendingKey
    ensures c.rateLimit == config.rateLimit && c.exportFormat == config.exportFormat && c.debug == config.debug
  {
    var c1 := if Truthy(options.domain) then config.(domain := options.domain) else config;
    var c2 := if Truthy(options.dateFrom) then c1.(dateFrom := options.dateFrom) else c1;
    var c3 := if Truthy(options.dateTo) then c2.(dateTo := options.dateTo) else c2;
    if Truthy(options.output) then c3.(outputDir := ToString(options.output)) else c3
  }

  /** The result recorded for one data type: its record count and the files
      written when its service succeeds; no records, no files, "0s" and the
      error message when it fails. */
  function ResultFor(dataType: string, outcome: Result<Value, string>, outputDir: string, format: string,
                     timestamp: string, duration: string): (r: ExportResult)
    ensures outcome.Err? <==> r.status == Failure
    ensures outcome.Err? ==> r == ExportResult(0, [], "0s", Failure, Some([outcome.error]))
    ensures outcome.Ok? ==> r.recordCount == RecordCount(outcome.value) && r.errors == None
    ensures outcome.Ok? ==> r.files == ExportPaths(outputDir, outcome.value, dataType, format, Str(timestamp),
                                                     timestamp, timestamp)
  {
    match outcome
    case Ok(data) =>
      ExportResult(RecordCount(data), ExportPaths(outputDir, data, dataType, format, Str(timestamp), timestamp, timestamp),
                   duration, Success, None)
    case Err(message) => ExportResult(0, [], "0s", Failure, Some([message]))
  }

  /** The result a run records for the planned type `t`. */
  function Recorded(t: string, settings: Config.Settings, options: ExportFlags, available: Services,
                    timestamp: string, durations: string -> string): ExportResult
  {
    ResultFor(t, ExportDataType(t, available), settings.outputDir, options.format, timestamp, durations(t))
  }

  /** The files one iteration writes: those `exportData` writes for the
      data when the service succeeded, none when it failed. */
  function FilesFor(dataType: string, outcome: Result<Value, string>, outputDir: string, format: string,
                    timestamp: string, exportedAt: string): (files: map<FilePath, Export>)
    ensures outcome.Err? ==> files == map[]
    ensures outcome.Ok? ==> forall p :: p in files <==> p in ExportPaths(outputDir, outcome.value, dataType, format,
                                                                         Str(timestamp), timestamp, timestamp)
  {
    match outcome
    case Ok(data) =>
      ExportFilesKeys(outputDir, data, dataType, format, timestamp, exportedAt);
      ExportFiles(outputDir, data, dataType, format, Str(timestamp), timestamp, exportedAt, timestamp)
    case Err(_) => map[]
  }

  /** A file is written exactly at the paths returned. */
  lemma ExportFilesKeys(outputDir: string, data: Value, dataType: string, format: string, timestamp: string,
                        exportedAt: string)
    ensures forall p :: p in ExportFiles(outputDir, data, dataType, format, Str(timestamp), timestamp, exportedAt, timestamp)
                        <==> p in ExportPaths(outputDir, data, dataType, format, Str(timestamp), timestamp, timestamp)
  {
    forall p {
      ExportFilesArePaths(outputDir, data, dataType, format, Str(timestamp), timestamp, exportedAt, timestamp, p);
    }
  }

  /** The files a run over `types` writes, type after type: a later type's
      file replaces an earlier one at the same path. */
  function RunFiles(types: seq<string>, available: Services, outputDir: string, format: string,
                    timestamp: string, exportedAt: string): map<FilePath, Export>
  {
    if types == [] then map[]
    else RunFiles(types[..|types| - 1], available, outputDir, format, timestamp, exportedAt)
         + FilesFor(types[|types| - 1], ExportDataType(types[|types| - 1], available), outputDir, format,
                    timestamp, exportedAt)
  }

  /** One more type of the plan adds its own files after the earlier ones. */
  lemma RunFilesStep(types: seq<string>, i: nat, available: Services, outputDir: string, format: string,
                     timestamp: string, exportedAt: string)
    requires i < |types|
    ensures RunFiles(types[..i + 1], available, outputDir, format, timestamp, exportedAt)
            == RunFiles(types[..i], available, outputDir, format, timestamp, exportedAt)
               + FilesFor(types[i], ExportDataType(types[i], available), outputDir, format, timestamp, exportedAt)
  {
    assert types[..i + 1][..i] == types[..i];
  }

  /** Type `t` of the run writes a file at `p`. */
  predicate WritesAt(t: string, p: FilePath, available: Services, outputDir: string, format: string,
                     timestamp: string, exportedAt: string)
  {
    p in FilesFor(t, ExportDataType(t, available), outputDir, format, timestamp, exportedAt)
  }

  /** The run writes a file exactly where one of its types writes one. */
  lemma {:induction false} RunFilesKeys(types: seq<string>, available: Services, outputDir: string, format: string,
                                        timestamp: string, exportedAt: string)
    ensures forall p :: p in RunFiles(types, available, outputDir, format, timestamp, exportedAt)
                        <==> exists i :: 0 <= i < |types| && WritesAt(types[i], p, available, outputDir, format,
                                                                      timestamp, exportedAt)
  {
    if types != [] {
      var k := |types| - 1;
      var prefix := types[..k];
      RunFilesKeys(prefix, available, outputDir, format, timestamp, exportedAt);
      var before := RunFiles(prefix, available, outputDir, format, timestamp, exportedAt);
      var last := FilesFor(types[k], ExportDataType(types[k], available), outputDir, format, timestamp, exportedAt);
      var whole := RunFiles(types, available, outputDir, format, timestamp, exportedAt);
      assert whole == before + last;
      forall p
        ensures p in whole <==> exists i :: 0 <= i < |types| && WritesAt(types[i], p, available, outputDir, format,
                                                                         timestamp, exportedAt)
      {
        if p in before {
          var i :| 0 <= i < |prefix| && WritesAt(prefix[i], p, available, outputDir, format, timestamp, exportedAt);
          assert types[i] == prefix[i];
        } else if p in last {
          assert WritesAt(types[k], p, available, outputDir, format, timestamp, exportedAt);
        }
        if exists i :: 0 <= i < |types| && WritesAt(types[i], p, available, outputDir, format, timestamp, exportedAt) {
          var i :| 0 <= i < |types| && WritesAt(types[i], p, available, outputDir, format, timestamp, exportedAt);
          if i < k {
            assert WritesAt(prefix[i], p, available, outputDir, format, timestamp, exportedAt);
            assert p in before;
          } else {
            assert i == k;
          }
        }
      }
    }
  }

  /** The run writes a file exactly at the paths some type's recorded
      result lists. */
  lemma RunFilesAreRecorded(types: seq<string>, settings: Config.Settings, options: ExportFlags,
                            available: Services, timestamp: string, exportedAt: string, durations: string -> string)
    ensures forall p :: p in RunFiles(types, available, settings.outputDir, options.format, timestamp, exportedAt)
                        <==> exists i :: 0 <= i < |types|
                                         && p in Recorded(types[i], settings, options, available, timestamp, durations).files
  {
    RunFilesKeys(types, available, settings.outputDir, options.format, timestamp, exportedAt);
    forall p, i | 0 <= i < |types|
      ensures WritesAt(types[i], p, available, settings.outputDir, options.format, timestamp, exportedAt)
              <==> p in Recorded(types[i], settings, options, available, timestamp, durations).files
    {
    }
  }

  /** One iteration of the run: the data of `dataType`, exported when the
      service succeeded, gives the recorded result. */
  method ExportOne(exporter: FileExporter, dataType: string, data: Result<Value, string>, format: string,
                   timestamp: string, exportedAt: string, duration: string)
    returns (result: ExportResult)
    modifies exporter
    ensures exporter.outputDir == old(exporter.outputDir)
    ensures result == ResultFor(dataType, data, exporter.outputDir, format, timestamp, duration)
    ensures exporter.files == old(exporter.files) + FilesFor(dataType, data, exporter.outputDir, format,
                                                             timestamp, exportedAt)
  {
    match data {
      case Ok(value) =>
        var written := exporter.ExportData(value, dataType, format, Str(timestamp), timestamp, exportedAt, timestamp);
        result := ExportResult(RecordCount(value), written, duration, Success, None);
      case Err(message) =>
        result := ExportResult(0, [], "0s", Failure, Some([message]));
        UnionEmpty(exporter.files);
    }
  }

  /** The export run. The configuration is validated first, as loaded; a
      failure stops the run with the validation message before anything is
      exported. Otherwise the options override the configuration, the
      services read with the overridden configuration, and every planned
      type gets its result, in plan order, whether its service succeeds or
      fails. `timestamp` is the run's clock reading and `durations` the
      measured time of each type. */
  method HandleExport(config: Config.Settings, options: ExportFlags, services: Config.Settings -> Services,
                      directories: set<string>, files: map<FilePath, Export>,
                      timestamp: string, durations: string -> string, exportedAt: string)
    returns (outcome: Result<Props<ExportResult>, string>, exporter: FileExporter?)
    ensures Config.Validate(config).Err? ==> outcome == Err(Config.Validate(config).error) && exporter == null
    ensures Config.Validate(config).Ok? ==> outcome.Ok? && exporter != null && fresh(exporter)
    ensures Config.Validate(config).Ok? ==> exporter.outputDir == Override(config, options).outputDir
    ensures outcome.Ok? ==> Names(outcome.value) == Plan(options)
    ensures outcome.Ok? ==> forall i :: 0 <= i < |outcome.value| ==>
              var settings := Override(config, options);
              outcome.value[i].1 == Recorded(Plan(options)[i], settings, options, services(settings), timestamp, durations)
    ensures outcome.Ok? ==>
              var settings := Override(config, options);
              exporter.files == files + RunFiles(Plan(options), services(settings), settings.outputDir, options.format,
                                                 timestamp, exportedAt)
  {
    var valid := Config.Validate(config);
    if valid.Err? {
      return Err(valid.error), null;
    }
    var settings := Override(config, options);
    exporter := new FileExporter(settings.outputDir, directories, files);
    var exportTypes := GetExportOptions(options);
    PlanMeaning(options, "");
    var available := services(settings);
    var results := ExportAll(exporter, exportTypes, settings, options, available, timestamp, exportedAt, durations);
    outcome := Ok(results);
  }

  /** The loop of the run over the planned types, each recorded under its
      own name in plan order; `fetch` is `exportDataType`. */
  method ExportAll(exporter: FileExporter, exportTypes: seq<string>, settings: Config.Settings, options: ExportFlags,
                   available: Services, timestamp: string, exportedAt: string,
                   durations: string -> string)
    returns (results: Props<ExportResult>)
    requires Distinct(exportTypes) && exporter.outputDir == settings.outputDir
    modifies exporter
    ensures exporter.outputDir == settings.outputDir
    ensures Names(results) == exportTypes
    ensures forall i :: 0 <= i < |results| ==>
              results[i].1 == ResultFor(exportTypes[i], ExportDataType(exportTypes[i], available), settings.outputDir,
                                        options.format, timestamp, durations(exportTypes[i]))
    ensures exporter.files == old(exporter.files) + RunFiles(exportTypes, available, settings.outputDir, options.format,
                                                             timestamp, exportedAt)
  {
    results := [];
    UnionEmpty(exporter.files);
    for i := 0 to |exportTypes|
      invariant exporter.outputDir == settings.outputDir
      invariant |results| == i && Names(results) == exportTypes[..i]
      invariant forall j :: 0 <= j < i ==>
                  results[j].1 == ResultFor(exportTypes[j], ExportDataType(exportTypes[j], available), settings.outputDir,
                                            options.format, timestamp, durations(exportTypes[j]))
      invariant exporter.files == old(exporter.files) + RunFiles(exportTypes[..i], available, settings.outputDir,
                                                                 options.format, timestamp, exportedAt)
    {
      var dataType := exportTypes[i];
      ghost var before := RunFiles(exportTypes[..i], available, settings.outputDir, options.format, timestamp, exportedAt);
      var result := ExportOne(exporter, dataType, ExportDataType(dataType, available), options.format,
                              timestamp, exportedAt, durations(dataType));
      RunFilesStep(exportTypes, i, available, settings.outputDir, options.format, timestamp, exportedAt);
      UnionAssociates(old(exporter.files), before,
                      FilesFor(dataType, ExportDataType(dataType, available), settings.outputDir, options.format,
                               timestamp, exportedAt));
      DistinctFresh(exportTypes, i);
      PutAppends(results, dataType, result);
      NamesAppend(results, [(dataType, result)]);
      assert Names([(dataType, result)]) == [dataType];
      results := Put(results, dataType, result);
      assert exportTypes[..i + 1] == exportTypes[..i] + [dataType];
    }
    assert exportTypes[..|exportTypes|] == exportTypes;
  }

  /** Validation reads the configuration as loaded, before the overrides: a
      run whose environment has no domain fails even when `--domain` is
      given, and one whose environment has a domain passes whatever
      `--domain` says. */
  lemma ValidationPrecedesOverride(config: Config.Settings, options: ExportFlags)
    requires Truthy(config.apiKey)
    ensures Config.Validate(config).Err? <==> !Truthy(config.domain)
    ensures Truthy(options.domain) ==> Config.Validate(Override(config, options)).Ok?
  {
  }

  // ------------------------------------------------------ showExportSummary

  datatype Summary = Summary(totalRecords: nat, totalFiles: nat, successCount: nat, errorCount: nat)

  /** The records reported over all results. */
  function SumRecords(results: Props<ExportResult>): nat {
    if results == [] then 0 else SumRecords(results[..|results| - 1]) + results[|results| - 1].1.recordCount
  }

  /** The files written over all results. */
  function SumFiles(results: Props<ExportResult>): nat {
    if results == [] then 0 else SumFiles(results[..|results| - 1]) + |results[|results| - 1].1.files|
  }

  /** The results with the given status. */
  function CountStatus(results: Props<ExportResult>, status: Status): nat {
    if results == [] then 0
    else CountStatus(results[..|results| - 1], status) + (if results[|results| - 1].1.status == status then 1 else 0)
  }

  /** Every result is either a success or a failure. */
  lemma {:induction false} StatusesPartition(results: Props<ExportResult>)
    ensures CountStatus(results, Success) + CountStatus(results, Failure) == |results|
  {
    if results != [] {
      StatusesPartition(results[..|results| - 1]);
    }
  }

  /** Failures add no records and no files to the totals. */
  lemma {:induction false} FailuresAddNothing(results: Props<ExportResult>)
    requires forall i :: 0 <= i < |results| ==> results[i].1.status == Failure
    requires forall i :: 0 <= i < |results| ==> results[i].1 == ExportResult(0, [], "0s", Failure, results[i].1.errors)
    ensures SumRecords(results) == 0 && SumFiles(results) == 0
    ensures CountStatus(results, Failure) == |results|
  {
    if results != [] {
      FailuresAddNothing(results[..|results| - 1]);
    }
  }

  /** The totals the summary prints. */
  method ShowExportSummary(results: Props<ExportResult>) returns (summary: Summary)
    ensures summary.totalRecords == SumRecords(results)
    ensures summary.totalFiles == SumFiles(results)
    ensures summary.successCount == CountStatus(results, Success)
    ensures summary.successCount + summary.errorCount == |results|
  {
    var totalRecords, totalFiles, successCount, errorCount := 0, 0, 0, 0;
    for i := 0 to |results|
      invariant totalRecords == SumRecords(results[..i])
      invariant totalFiles == SumFiles(results[..i])
      invariant successCount == CountStatus(results[..i], Success)
      invariant errorCount == CountStatus(results[..i], Failure)
    {
      var result := results[i].1;
      assert results[..i + 1][..i] == results[..i];
      totalRecords := totalRecords + result.recordCount;
      totalFiles := totalFiles + |result.files|;
      if result.status == Success {
        successCount := successCount + 1;
      } else {
        errorCount := errorCount + 1;
      }
    }
    assert results[..|results|] == results;
    StatusesPartition(results);
    summary := Summary(totalRecords, totalFiles, successCount, errorCount);
  }
}
