/** The file exporter: the names of exported files, the JSON and CSV exports,
    the choice between them, and the flattening of nested records into CSV
    columns. The file system is held by the exporter itself: the directories
    that exist and what was written at each path. */
module FileExport {
  import opened Wrappers
  import opened Json
  import opened Text
  import opened Tally

  // ------------------------------------------------------- generateFileName

  const PREFIX := "mailgun_"

  /** The time part of a file name: the timestamp given, or else the clock's
      `YYYY-MM-DD_HH-mm-ss` reading `clockStamp`. */
  function Stamp(timestamp: Value, clockStamp: string): (ts: string)
    ensures Truthy(timestamp) ==> ts == ToString(timestamp)
    ensures !Truthy(timestamp) ==> ts == clockStamp
  {
    ToString(Or(timestamp, Str(clockStamp)))
  }

  /** `generateFileName(dataType, format, timestamp)`. */
  function GenerateFileName(dataType: string, format: string, timestamp: Value, clockStamp: string): (name: string)
    ensures StartsWith(name, PREFIX) && EndsWith(name, "." + format)
  {
    PREFIX + dataType + "_" + Stamp(timestamp, clockStamp) + "." + format
  }

  /** The last position of `c` in `s`, or -1. */
  function LastIndexOf(s: string, c: char): (k: int)
    ensures -1 <= k < |s|
    ensures k >= 0 ==> s[k] == c
    ensures forall j :: k < j < |s| ==> s[j] != c
  {
    if s == [] then -1
    else if s[|s| - 1] == c then |s| - 1
    else LastIndexOf(s[..|s| - 1], c)
  }

  datatype NameParts = NameParts(dataType: string, stamp: string, format: string)

  /** Reading a file name back: the type runs from the prefix to the next `_`
      (the part an export's statistics count files by), the format follows the
      last `.`, and the time part lies between. */
  function ParseFileName(name: string): Option<NameParts> {
    if !StartsWith(name, PREFIX) then None
    else
      var rest := name[|PREFIX|..];
      var u := IndexOf(rest, '_', 0);
      if u == |rest| then None
      else
        var tail := rest[u + 1..];
        var d := LastIndexOf(tail, '.');
        if d < 0 then None
        else Some(NameParts(rest[..u], tail[..d], tail[d + 1..]))
  }

  /** A name made for a type without `_` and a format without `.` gives back
      its type, time part and format. */
  lemma FileNameRoundTrip(dataType: string, format: string, timestamp: Value, clockStamp: string)
    requires '_' !in dataType && '.' !in format
    ensures ParseFileName(GenerateFileName(dataType, format, timestamp, clockStamp))
            == Some(NameParts(dataType, Stamp(timestamp, clockStamp), format))
  {
    var ts := Stamp(timestamp, clockStamp);
    var tail := ts + "." + format;
    var rest := dataType + "_" + tail;
    assert GenerateFileName(dataType, format, timestamp, clockStamp) == PREFIX + rest;
    ParseRoundTrip(dataType, tail, ts, format);
  }

  lemma ParseRoundTrip(dataType: string, tail: string, ts: string, format: string)
    requires '_' !in dataType && '.' !in format
    requires tail == ts + "." + format
    ensures ParseFileName(PREFIX + (dataType + "_" + tail)) == Some(NameParts(dataType, ts, format))
  {
    var rest := dataType + "_" + tail;
    var name := PREFIX + rest;
    assert StartsWith(name, PREFIX);
    assert name[|PREFIX|..] == rest;
    FirstSeparator(dataType, tail);
    assert rest[|dataType| + 1..] == tail;
    LastSeparator(ts, format);
  }

  /** The first `_` after a type without one is the one that ends it. */
  lemma FirstSeparator(dataType: string, tail: string)
    requires '_' !in dataType
    ensures IndexOf(dataType + "_" + tail, '_', 0) == |dataType|
    ensures (dataType + "_" + tail)[..|dataType|] == dataType
  {
    var s := dataType + "_" + tail;
    assert s[|dataType|] == '_';
    assert forall j :: 0 <= j < |dataType| ==> s[j] == dataType[j];
  }

  /** The last `.` before a format without one is the one that starts it. */
  lemma LastSeparator(ts: string, format: string)
    requires '.' !in format
    ensures LastIndexOf(ts + "." + format, '.') == |ts|
    ensures (ts + "." + format)[..|ts|] == ts && (ts + "." + format)[|ts| + 1..] == format
  {
    var s := ts + "." + format;
    assert s[|ts|] == '.';
    assert s[..|ts|] == ts;
    assert s[|ts| + 1..] == format;
    LastIndexOfAt(s, '.', |ts|);
  }

  /** The last occurrence is the one with no occurrence after it. */
  lemma LastIndexOfAt(s: string, c: char, p: int)
    requires 0 <= p < |s| && s[p] == c && c !in s[p + 1..]
    ensures LastIndexOf(s, c) == p
  {
    assert forall j :: p < j < |s| ==> s[j] == s[p + 1..][j - p - 1];
  }

  // ------------------------------------------------------------ the exports

  /** `path.join(dir, name)`, kept as its two parts. */
  datatype FilePath = FilePath(dir: string, name: string)

  /** What an export writes: the JSON document's fields, or the CSV header
      row and the flattened records handed to the CSV writer. */
  datatype Export =
    | JsonExport(exportedAt: string, dataType: string, totalRecords: nat, data: Value)
    | CsvExport(headers: seq<string>, records: seq<Props<string>>)

  /** `totalRecords` in a JSON export: an array's length, 1 for anything else. */
  function TotalRecords(data: Value): (n: nat)
    ensures data.Arr? ==> n == |data.items|
    ensures !data.Arr? ==> n == 1
  {
    match data
    case Arr(items) => |items|
    case _ => 1
  }

  /** The data `exportCSV` writes: a non-empty array. */
  predicate CsvWritable(data: Value) {
    data.Arr? && |data.items| > 0
  }

  predicate WantsJson(format: string) {
    format == "json" || format == "both"
  }

  predicate WantsCsv(format: string) {
    format == "csv" || format == "both"
  }

  /** The paths `exportData` returns: the JSON file for "json" and "both",
      then the CSV file for "csv" and "both" when there is something to
      write; nothing for any other format. */
  function ExportPaths(outputDir: string, data: Value, dataType: string, format: string, timestamp: Value,
                       jsonStamp: string, csvStamp: string): (paths: seq<FilePath>)
    ensures |paths| == (if WantsJson(format) then 1 else 0) + (if WantsCsv(format) && CsvWritable(data) then 1 else 0)
    ensures WantsJson(format) ==> paths[0] == FilePath(outputDir, GenerateFileName(dataType, "json", timestamp, jsonStamp))
    ensures WantsCsv(format) && CsvWritable(data) ==>
              paths[|paths| - 1] == FilePath(outputDir, GenerateFileName(dataType, "csv", timestamp, csvStamp))
  {
    (if WantsJson(format) then [FilePath(outputDir, GenerateFileName(dataType, "json", timestamp, jsonStamp))] else [])
    + (if WantsCsv(format) && CsvWritable(data) then [FilePath(outputDir, GenerateFileName(dataType, "csv", timestamp, csvStamp))] else [])
  }

  /** The JSON document `exportData` writes for a format that asks for it. */
  function JsonFiles(outputDir: string, data: Value, dataType: string, format: string, timestamp: Value,
                     jsonStamp: string, exportedAt: string): map<FilePath, Export> {
    if WantsJson(format)
    then map[FilePath(outputDir, GenerateFileName(dataType, "json", timestamp, jsonStamp))
             := JsonExport(exportedAt, dataType, TotalRecords(data), data)]
    else map[]
  }

  /** The CSV table `exportData` writes for a format that asks for it. */
  function CsvFiles(outputDir: string, data: Value, dataType: string, format: string, timestamp: Value,
                    csvStamp: string): map<FilePath, Export> {
    if WantsCsv(format) && CsvWritable(data)
    then map[FilePath(outputDir, GenerateFileName(dataType, "csv", timestamp, csvStamp))
             := CsvExport(Headers(FlattenAll(data.items)), FlattenAll(data.items))]
    else map[]
  }

  /** The files `exportData` writes, by path: the JSON document, then the
      CSV table, each under the path `ExportPaths` lists for it. */
  function ExportFiles(outputDir: string, data: Value, dataType: string, format: string, timestamp: Value,
                       jsonStamp: string, exportedAt: string, csvStamp: string): map<FilePath, Export> {
    JsonFiles(outputDir, data, dataType, format, timestamp, jsonStamp, exportedAt)
    + CsvFiles(outputDir, data, dataType, format, timestamp, csvStamp)
  }

  lemma UpdateIsUnion<K, V>(m: map<K, V>, k: K, v: V)
    ensures m[k := v] == m + map[k := v]
  {
  }

  lemma UnionEmpty<K, V>(m: map<K, V>)
    ensures m + map[] == m
  {
  }

  lemma UnionAssociates<K, V>(m: map<K, V>, a: map<K, V>, b: map<K, V>)
    ensures (m + a) + b == m + (a + b)
  {
  }

  /** A file is written exactly when its path is returned. */
  lemma ExportFilesArePaths(outputDir: string, data: Value, dataType: string, format: string, timestamp: Value,
                            jsonStamp: string, exportedAt: string, csvStamp: string, p: FilePath)
    ensures p in ExportFiles(outputDir, data, dataType, format, timestamp, jsonStamp, exportedAt, csvStamp)
            <==> p in ExportPaths(outputDir, data, dataType, format, timestamp, jsonStamp, csvStamp)
  {
    var paths := ExportPaths(outputDir, data, dataType, format, timestamp, jsonStamp, csvStamp);
    if WantsJson(format) && WantsCsv(format) && CsvWritable(data) {
      assert paths == [paths[0], paths[1]];
    }
  }

  /** With "both", the two files are different files: their names end in
      different extensions. */
  lemma ExportPathsDistinct(outputDir: string, data: Value, dataType: string, timestamp: Value,
                            jsonStamp: string, csvStamp: string)
    requires CsvWritable(data)
    ensures var paths := ExportPaths(outputDir, data, dataType, "both", timestamp, jsonStamp, csvStamp);
            |paths| == 2 && paths[0] != paths[1]
  {
    var paths := ExportPaths(outputDir, data, dataType, "both", timestamp, jsonStamp, csvStamp);
    var json := paths[0].name;
    var csv := paths[1].name;
    assert EndsWith(json, ".json") && EndsWith(csv, ".csv");
    assert json[|json| - 1] == 'n' && csv[|csv| - 1] == 'v';
  }

  // ---------------------------------------------------------- flattenObject

  /** The depth `flattenObject` stops at. */
  const MAX_DEPTH := 3

  /** What `for (const key in obj)` visits with `obj[key]`: an object's own
      properties, an array's elements and a string's characters under their
      indices; nothing for any other value. */
  function Entries(obj: Value): (entries: Props<Value>)
    ensures Names(entries) == Keys(obj)
    ensures forall i :: 0 <= i < |entries| && entries[i].1.Obj? ==> entries[i].1 < obj
  {
    match obj
    case Obj(fields) => fields
    case Arr(items) => seq(|items|, i requires 0 <= i < |items| => (Indices(|items|)[i], items[i]))
    case Str(s) => seq(|s|, i requires 0 <= i < |s| => (Indices(|s|)[i], Str([s[i]])))
    case _ => []
  }

  /** The column text of a value that is not flattened further: "" for null
      and undefined, the JSON text of an array, `toString()` otherwise. */
  function Cell(v: Value): string {
    if v.Null? || v.Undefined? then "" else if v.Arr? then Stringify(v) else ToString(v)
  }

  /** `s.slice(0, -1)`. */
  function DropLast(s: string): string {
    if s == [] then [] else s[..|s| - 1]
  }

  /** `flattenObject(obj, prefix, maxDepth, depth)`: below the depth limit,
      each property in turn; past it, the whole object as one JSON text. */
  function Flatten(obj: Value, prefix: string, maxDepth: nat, depth: nat): Props<string>
    requires depth < maxDepth || obj.Obj?
    decreases obj, 1
  {
    if depth >= maxDepth then [(DropLast(prefix), Stringify(obj))]
    else FlattenEntries(obj, Entries(obj), prefix, maxDepth, depth)
  }

  /** The flattened object after the given entries: a nested plain object is
      flattened under `prefix + key + "_"` one level deeper and assigned onto
      the result; any other value is stored under `prefix + key`. */
  function FlattenEntries(obj: Value, entries: Props<Value>, prefix: string, maxDepth: nat, depth: nat): Props<string>
    requires forall i :: 0 <= i < |entries| && entries[i].1.Obj? ==> entries[i].1 < obj
    decreases obj, 0, |entries|
  {
    if entries == [] then []
    else
      var flattened := FlattenEntries(obj, entries[..|entries| - 1], prefix, maxDepth, depth);
      var (key, value) := entries[|entries| - 1];
      if value.Obj? then Assign(flattened, Flatten(value, prefix + key + "_", maxDepth, depth + 1))
      else Put(flattened, prefix + key, Cell(value))
  }

  /** A flattened object has no repeated column. */
  lemma {:induction false} FlattenDistinct(obj: Value, prefix: string, maxDepth: nat, depth: nat)
    requires depth < maxDepth || obj.Obj?
    ensures DistinctNames(Flatten(obj, prefix, maxDepth, depth))
    decreases obj, 1
  {
    if depth < maxDepth {
      FlattenEntriesDistinct(obj, Entries(obj), prefix, maxDepth, depth);
    }
  }

  lemma {:induction false} FlattenEntriesDistinct(obj: Value, entries: Props<Value>, prefix: string, maxDepth: nat, depth: nat)
    requires forall i :: 0 <= i < |entries| && entries[i].1.Obj? ==> entries[i].1 < obj
    ensures DistinctNames(FlattenEntries(obj, entries, prefix, maxDepth, depth))
    decreases obj, 0, |entries|
  {
    if entries != [] {
      var init := entries[..|entries| - 1];
      FlattenEntriesDistinct(obj, init, prefix, maxDepth, depth);
      var flattened := FlattenEntries(obj, init, prefix, maxDepth, depth);
      var (key, value) := entries[|entries| - 1];
      if value.Obj? {
        AssignKeepsDistinct(flattened, Flatten(value, prefix + key + "_", maxDepth, depth + 1));
      } else {
        PutKeepsDistinct(flattened, prefix + key, Cell(value));
      }
    }
  }

  /** Every column of an object flattened below the depth limit starts with
      the prefix it was given. */
  lemma {:induction false} FlattenPrefixed(obj: Value, prefix: string, maxDepth: nat, depth: nat)
    requires depth < maxDepth
    ensures forall k :: k in Names(Flatten(obj, prefix, maxDepth, depth)) ==> StartsWith(k, prefix)
    decreases obj, 1
  {
    FlattenEntriesPrefixed(obj, Entries(obj), prefix, maxDepth, depth);
  }

  lemma {:induction false} FlattenEntriesPrefixed(obj: Value, entries: Props<Value>, prefix: string, maxDepth: nat, depth: nat)
    requires forall i :: 0 <= i < |entries| && entries[i].1.Obj? ==> entries[i].1 < obj
    requires depth < maxDepth
    ensures forall k :: k in Names(FlattenEntries(obj, entries, prefix, maxDepth, depth)) ==> StartsWith(k, prefix)
    decreases obj, 0, |entries|
  {
    if entries != [] {
      var init := entries[..|entries| - 1];
      FlattenEntriesPrefixed(obj, init, prefix, maxDepth, depth);
      var flattened := FlattenEntries(obj, init, prefix, maxDepth, depth);
      var (key, value) := entries[|entries| - 1];
      if value.Obj? {
        var inner := prefix + key + "_";
        var nested := Flatten(value, inner, maxDepth, depth + 1);
        if depth + 1 < maxDepth {
          FlattenPrefixed(value, inner, maxDepth, depth + 1);
          forall k | k in Names(nested)
            ensures StartsWith(k, prefix)
          {
            assert k[..|prefix|] == inner[..|prefix|];
          }
        } else {
          assert Names(nested) == [prefix + key];
        }
        AssignNames(flattened, nested);
        AddKeysMembers(Names(flattened), Names(nested));
      } else {
        PutNames(flattened, prefix + key, Cell(value));
      }
    }
  }

  /** The value one column holds when its property is not flattened further:
      the cell text, or the JSON text of an object met at the depth limit. */
  function Leaf(v: Value): string {
    if v.Obj? then Stringify(v) else Cell(v)
  }

  /** One column per property, `prefix + name`, in property order, holding
      the property's leaf text. */
  function LeafColumns(fields: Props<Value>, prefix: string): Props<string> {
    if fields == [] then []
    else LeafColumns(fields[..|fields| - 1], prefix) + [(prefix + fields[|fields| - 1].0, Leaf(fields[|fields| - 1].1))]
  }

  lemma {:induction false} LeafColumnsAt(fields: Props<Value>, prefix: string)
    ensures |LeafColumns(fields, prefix)| == |fields|
    ensures forall j :: 0 <= j < |fields| ==> LeafColumns(fields, prefix)[j] == (prefix + fields[j].0, Leaf(fields[j].1))
  {
    if fields != [] {
      var init := fields[..|fields| - 1];
      LeafColumnsAt(init, prefix);
      assert forall j :: 0 <= j < |init| ==> init[j] == fields[j];
    }
  }

  /** An object whose properties all end in a column of their own (none of
      them an object, or the depth limit one level down) flattens to one
      column per property, `prefix + name`, in property order: '' for null and
      undefined, JSON text for arrays and for objects at the limit, and the
      string form of anything else. */
  lemma FlattenOneLevel(fields: Props<Value>, prefix: string, maxDepth: nat, depth: nat)
    requires DistinctNames(fields)
    requires depth < maxDepth
    requires forall i :: 0 <= i < |fields| && fields[i].1.Obj? ==> depth + 1 >= maxDepth
    ensures |Flatten(Obj(fields), prefix, maxDepth, depth)| == |fields|
    ensures forall i :: 0 <= i < |fields| ==>
              Flatten(Obj(fields), prefix, maxDepth, depth)[i] == (prefix + fields[i].0, Leaf(fields[i].1))
  {
    OneLevelPrefix(fields, prefix, maxDepth, depth, |fields|);
    assert fields[..|fields|] == fields;
    LeafColumnsAt(fields, prefix);
  }

  lemma {:induction false} OneLevelPrefix(fields: Props<Value>, prefix: string, maxDepth: nat, depth: nat, n: nat)
    requires DistinctNames(fields)
    requires depth < maxDepth
    requires forall i :: 0 <= i < |fields| && fields[i].1.Obj? ==> depth + 1 >= maxDepth
    requires n <= |fields|
    ensures FlattenEntries(Obj(fields), fields[..n], prefix, maxDepth, depth) == LeafColumns(fields[..n], prefix)
  {
    if n > 0 {
      var obj := Obj(fields);
      OneLevelPrefix(fields, prefix, maxDepth, depth, n - 1);
      var entries := fields[..n];
      assert entries[..n - 1] == fields[..n - 1];
      var flattened := FlattenEntries(obj, fields[..n - 1], prefix, maxDepth, depth);
      LeafColumnsAt(fields[..n - 1], prefix);
      var (key, value) := fields[n - 1];
      var column := prefix + key;
      forall j | 0 <= j < n - 1
        ensures flattened[j].0 != column
      {
        assert flattened[j].0 == prefix + fields[j].0;
        assert (prefix + fields[j].0)[|prefix|..] == fields[j].0;
        assert column[|prefix|..] == key;
      }
      assert column !in Names(flattened);
      if value.Obj? {
        FlattenAtLimit(value, prefix, key, maxDepth, depth);
        AssignOne(flattened, column, Stringify(value));
        PutAppends(flattened, column, Stringify(value));
      } else {
        PutAppends(flattened, column, Cell(value));
      }
      assert FlattenEntries(obj, entries, prefix, maxDepth, depth) == flattened + [(column, Leaf(value))];
    }
  }

  /** An object met one level above the limit becomes a single column. */
  lemma FlattenAtLimit(value: Value, prefix: string, key: string, maxDepth: nat, depth: nat)
    requires value.Obj? && depth + 1 >= maxDepth
    ensures Flatten(value, prefix + key + "_", maxDepth, depth + 1) == [(prefix + key, Stringify(value))]
  {
    var inner := prefix + key + "_";
    assert DropLast(inner) == prefix + key;
  }

  lemma AssignOne(flattened: Props<string>, column: string, text: string)
    ensures Assign(flattened, [(column, text)]) == Put(flattened, column, text)
  {
    assert [(column, text)][1..] == [];
  }

  /** A nested object below the depth limit is flattened under the prefix
      `prefix + key + "_"`, one level deeper. */
  lemma NestedUnderPrefix(key: string, value: Value, prefix: string, maxDepth: nat, depth: nat)
    requires value.Obj? && depth < maxDepth
    ensures Flatten(Obj([(key, value)]), prefix, maxDepth, depth)
            == Flatten(value, prefix + key + "_", maxDepth, depth + 1)
  {
    var nested := Flatten(value, prefix + key + "_", maxDepth, depth + 1);
    FlattenDistinct(value, prefix + key + "_", maxDepth, depth + 1);
    var obj := Obj([(key, value)]);
    var entries := [(key, value)];
    assert Entries(obj) == entries;
    assert entries[..0] == [];
    assert FlattenEntries(obj, entries, prefix, maxDepth, depth) == Assign([], nested);
    AssignAppends([], nested);
    assert [] + nested == nested;
  }

  /** The flattened object after one more entry. */
  lemma FlattenEntriesStep(obj: Value, entries: Props<Value>, i: nat, prefix: string, maxDepth: nat, depth: nat)
    requires i < |entries|
    requires forall j :: 0 <= j < |entries| && entries[j].1.Obj? ==> entries[j].1 < obj
    ensures var flattened := FlattenEntries(obj, entries[..i], prefix, maxDepth, depth);
            var (key, value) := entries[i];
            FlattenEntries(obj, entries[..i + 1], prefix, maxDepth, depth)
            == if value.Obj? then Assign(flattened, Flatten(value, prefix + key + "_", maxDepth, depth + 1))
               else Put(flattened, prefix + key, Cell(value))
  {
    assert entries[..i + 1][..i] == entries[..i];
  }

  /** `flattenObject(obj, prefix, maxDepth, currentDepth)`: a `for…in` loop
      over the properties, recursing into nested plain objects and merging
      their columns with `Object.assign`. */
  method FlattenObject(obj: Value, prefix: string, maxDepth: nat, currentDepth: nat) returns (flattened: Props<string>)
    requires currentDepth < maxDepth || obj.Obj?
    ensures flattened == Flatten(obj, prefix, maxDepth, currentDepth)
    decreases obj, 1
  {
    if currentDepth >= maxDepth {
      return [(DropLast(prefix), Stringify(obj))];
    }
    flattened := [];
    var entries := Entries(obj);
    for i := 0 to |entries|
      invariant flattened == FlattenEntries(obj, entries[..i], prefix, maxDepth, currentDepth)
    {
      FlattenEntriesStep(obj, entries, i, prefix, maxDepth, currentDepth);
      var (key, value) := entries[i];
      var newKey := prefix + key;
      if value.Null? || value.Undefined? {
        flattened := Put(flattened, newKey, "");
      } else if value.Arr? {
        flattened := Put(flattened, newKey, Stringify(value));
      } else if value.Obj? {
        var nested := FlattenObject(value, newKey + "_", maxDepth, currentDepth + 1);
        flattened := Assign(flattened, nested);
      } else {
        flattened := Put(flattened, newKey, ToString(value));
      }
    }
    assert entries[..|entries|] == entries;
  }

  // -------------------------------------------------------------- CSV header

  /** `records.flatMap(item => Object.keys(item))`. */
  function AllNames(records: seq<Props<string>>): seq<string> {
    if records == [] then [] else AllNames(records[..|records| - 1]) + Names(records[|records| - 1])
  }

  /** `[...new Set(records.flatMap(item => Object.keys(item)))]`. */
  function Headers(records: seq<Props<string>>): seq<string> {
    AddKeys([], AllNames(records))
  }

  /** The header row has no repeats and holds exactly the columns that occur
      in some record. */
  lemma HeadersMeaning(records: seq<Props<string>>)
    ensures Distinct(Headers(records))
    ensures forall k :: k in Headers(records) <==> exists i :: 0 <= i < |records| && k in Names(records[i])
  {
    AddKeysContents([], AllNames(records));
    AllNamesMembers(records);
  }

  lemma {:induction false} AllNamesMembers(records: seq<Props<string>>)
    ensures forall k :: k in AllNames(records) <==> exists i :: 0 <= i < |records| && k in Names(records[i])
  {
    if records != [] {
      var init := records[..|records| - 1];
      AllNamesMembers(init);
      assert forall i :: 0 <= i < |init| ==> init[i] == records[i];
    }
  }

  /** The records `exportCSV` writes: every item flattened from the top, in order. */
  function FlattenAll(items: seq<Value>): seq<Props<string>> {
    if items == [] then [] else FlattenAll(items[..|items| - 1]) + [Flatten(items[|items| - 1], "", MAX_DEPTH, 0)]
  }

  /** `data.map(item => this.flattenObject(item))`. */
  method FlattenEach(items: seq<Value>) returns (records: seq<Props<string>>)
    ensures records == FlattenAll(items)
  {
    records := [];
    for i := 0 to |items|
      invariant records == FlattenAll(items[..i])
    {
      assert items[..i + 1][..i] == items[..i];
      var item := FlattenObject(items[i], "", MAX_DEPTH, 0);
      records := records + [item];
    }
    assert items[..|items|] == items;
  }

  // ------------------------------------------------------------ the exporter

  class FileExporter {
    var outputDir: string
    var directories: set<string>
    var files: map<FilePath, Export>

    /** `new FileExporter(outputDir)` over a file system with the given
        directories and files. */
    constructor(outputDir: string, directories: set<string>, files: map<FilePath, Export>)
      ensures this.outputDir == outputDir && this.directories == directories && this.files == files
    {
      this.outputDir := outputDir;
      this.directories := directories;
      this.files := files;
    }

    /** `ensureOutputDir()`: afterwards the output directory exists. */
    method EnsureOutputDir()
      modifies this
      ensures outputDir == old(outputDir) && files == old(files)
      ensures directories == old(directories) + {outputDir}
    {
      if outputDir !in directories {
        directories := directories + {outputDir};
      }
    }

    /** `exportJSON(data, dataType, timestamp)`; `exportedAt` is the clock's
        ISO reading. */
    method ExportJSON(data: Value, dataType: string, timestamp: Value, clockStamp: string, exportedAt: string)
      returns (path: FilePath)
      modifies this
      ensures outputDir == old(outputDir)
      ensures path == FilePath(outputDir, GenerateFileName(dataType, "json", timestamp, clockStamp))
      ensures directories == old(directories) + {outputDir}
      ensures files == old(files)[path := JsonExport(exportedAt, dataType, TotalRecords(data), data)]
    {
      EnsureOutputDir();
      var fileName := GenerateFileName(dataType, "json", timestamp, clockStamp);
      path := FilePath(outputDir, fileName);
      var totalRecords := if data.Arr? then |data.items| else 1;
      files := files[path := JsonExport(exportedAt, dataType, totalRecords, data)];
    }

    /** `exportCSV(data, dataType, timestamp)`: nothing is written, and no
        directory made, for data that is not a non-empty array. */
    method ExportCSV(data: Value, dataType: string, timestamp: Value, clockStamp: string)
      returns (path: Option<FilePath>)
      modifies this
      ensures outputDir == old(outputDir)
      ensures !CsvWritable(data) ==> path.None? && directories == old(directories) && files == old(files)
      ensures CsvWritable(data) ==>
                && path == Some(FilePath(outputDir, GenerateFileName(dataType, "csv", timestamp, clockStamp)))
                && directories == old(directories) + {outputDir}
                && files == old(files)[path.value := CsvExport(Headers(FlattenAll(data.items)), FlattenAll(data.items))]
    {
      if !data.Arr? || |data.items| == 0 {
        return None;
      }
      EnsureOutputDir();
      var fileName := GenerateFileName(dataType, "csv", timestamp, clockStamp);
      var filePath := FilePath(outputDir, fileName);
      var flattenedData := FlattenEach(data.items);
      files := files[filePath := CsvExport(Headers(flattenedData), flattenedData)];
      path := Some(filePath);
    }

    /** `exportData(data, dataType, format, timestamp)`: the JSON path for
        "json" and "both", then the CSV path, when one was written, for "csv"
        and "both"; any other format exports nothing. */
    method ExportData(data: Value, dataType: string, format: string, timestamp: Value,
                      jsonStamp: string, exportedAt: string, csvStamp: string)
      returns (results: seq<FilePath>)
      modifies this
      ensures outputDir == old(outputDir)
      ensures results == ExportPaths(outputDir, data, dataType, format, timestamp, jsonStamp, csvStamp)
      ensures files == old(files) + ExportFiles(outputDir, data, dataType, format, timestamp, jsonStamp, exportedAt, csvStamp)
      ensures directories == old(directories) + (if results == [] then {} else {outputDir})
    {
      var jsonPaths := ExportJsonPart(data, dataType, format, timestamp, jsonStamp, exportedAt);
      var csvPaths := ExportCsvPart(data, dataType, format, timestamp, csvStamp);
      results := jsonPaths + csvPaths;
      UnionAssociates(old(files), JsonFiles(outputDir, data, dataType, format, timestamp, jsonStamp, exportedAt),
                      CsvFiles(outputDir, data, dataType, format, timestamp, csvStamp));
    }

    /** The JSON half of `exportData`: the JSON document for "json" and
        "both", nothing otherwise. */
    method ExportJsonPart(data: Value, dataType: string, format: string, timestamp: Value,
                          jsonStamp: string, exportedAt: string)
      returns (paths: seq<FilePath>)
      modifies this
      ensures outputDir == old(outputDir)
      ensures paths == if WantsJson(format)
                       then [FilePath(outputDir, GenerateFileName(dataType, "json", timestamp, jsonStamp))]
                       else []
      ensures files == old(files) + JsonFiles(outputDir, data, dataType, format, timestamp, jsonStamp, exportedAt)
      ensures directories == old(directories) + (if paths == [] then {} else {outputDir})
    {
      if format == "json" || format == "both" {
        var jsonPath := ExportJSON(data, dataType, timestamp, jsonStamp, exportedAt);
        paths := [jsonPath];
        UpdateIsUnion(old(files), jsonPath, JsonExport(exportedAt, dataType, TotalRecords(data), data));
      } else {
        paths := [];
        UnionEmpty(old(files));
      }
    }

    /** The CSV half of `exportData`: the CSV table, when one is written, for
        "csv" and "both", nothing otherwise. */
    method ExportCsvPart(data: Value, dataType: string, format: string, timestamp: Value, csvStamp: string)
      returns (paths: seq<FilePath>)
      modifies this
      ensures outputDir == old(outputDir)
      ensures paths == if WantsCsv(format) && CsvWritable(data)
                       then [FilePath(outputDir, GenerateFileName(dataType, "csv", timestamp, csvStamp))]
                       else []
      ensures files == old(files) + CsvFiles(outputDir, data, dataType, format, timestamp, csvStamp)
      ensures directories == old(directories) + (if paths == [] then {} else {outputDir})
    {
      paths := [];
      if format == "csv" || format == "both" {
        var csvPath := ExportCSV(data, dataType, timestamp, csvStamp);
        if csvPath.Some? {
          paths := [csvPath.value];
          UpdateIsUnion(old(files), csvPath.value, CsvExport(Headers(FlattenAll(data.items)), FlattenAll(data.items)));
          return;
        }
      }
      UnionEmpty(old(files));
    }
  }
}
