/** `services/templates.service.js`: templates and their versions, the
    per-version metadata (size, Handlebars variables), the merge that
    attaches details and version contents to each template, the content
    export rows, and the template statistics. */
module Templates {
  import opened Wrappers
  import opened Json
  import opened Text
  import opened Numbers
  import opened Tally
  import opened Pagination

  datatype Template = Template(name: Value, description: Value, createdAt: Value, id: Value,
                               versionCount: Value, raw: Value)

  datatype VersionInfo = VersionInfo(tag: Value, engine: Value, mjml: Value)

  datatype TemplateDetails = TemplateDetails(name: Value, description: Value, createdAt: Value, id: Value,
                                             version: VersionInfo, raw: Value)

  datatype Content = Content(template: Value, subject: Value, text: Value, html: Value)

  /** `bytes` is `None` where JavaScript computes `NaN`: a truthy content
      field without a `length`. */
  datatype Size = Size(bytes: Option<nat>, kb: string, readable: string)

  datatype Metadata = Metadata(size: Size, hasVariables: bool, variableCount: nat)

  datatype TemplateVersion = TemplateVersion(tag: Value, engine: Value, createdAt: Value, comment: Value,
                                             content: Content, headers: Value, mjml: Value,
                                             metadata: Metadata, raw: Value)

  /** `a.createdAt || a.created_at`. */
  function CreatedAt(v: Value): (r: Value)
    ensures Truthy(Get(v, "createdAt")) ==> r == Get(v, "createdAt")
    ensures !Truthy(Get(v, "createdAt")) ==> r == Get(v, "created_at")
  {
    Or(Get(v, "createdAt"), Get(v, "created_at"))
  }

  /** `processTemplate(template)`; the version count defaults to 0. */
  function ProcessTemplate(t: Value): (r: Template)
    ensures r.raw == t && r.name == Get(t, "name")
    ensures Truthy(Get(t, "version_count")) ==> r.versionCount == Get(t, "version_count")
    ensures !Truthy(Get(t, "version_count")) ==> r.versionCount == Num(0)
  {
    Template(Get(t, "name"), Get(t, "description"), CreatedAt(t), Get(t, "id"),
             Or(Get(t, "version_count"), Num(0)), t)
  }

  /** `processTemplateDetails(template)`: the version fields read through
      `?.`, so a missing `version` leaves them `undefined`. */
  function ProcessTemplateDetails(t: Value): (r: TemplateDetails)
    ensures r.raw == t
    ensures !Get(t, "version").Obj? ==> r.version == VersionInfo(Undefined, Undefined, Undefined)
  {
    var version := Get(t, "version");
    TemplateDetails(Get(t, "name"), Get(t, "description"), CreatedAt(t), Get(t, "id"),
                    VersionInfo(Get(version, "tag"), Get(version, "engine"), Get(version, "mjml")), t)
  }

  /** The four content fields, in the order the service reads them. */
  function ContentFields(version: Value): seq<Value> {
    [Get(version, "template"), Get(version, "subject"), Get(version, "text"), Get(version, "html")]
  }

  /** `v.length` of a value the size sum adds: strings and arrays have one. */
  function Length(v: Value): Option<nat> {
    match v
    case Str(s) => Some(|s|)
    case Arr(items) => Some(|items|)
    case _ => None
  }

  /** `size += v.length` for a truthy `v`; `NaN` stays `NaN`. */
  function AddLength(size: Option<nat>, v: Value): Option<nat> {
    if !Truthy(v) then size
    else match (size, Length(v))
      case (Some(a), Some(b)) => Some(a + b)
      case _ => None
  }

  /** The sum of the lengths of the truthy fields; `None` (NaN) as soon as
      one of them has no length. */
  function SumLengths(fields: seq<Value>): (r: Option<nat>)
    ensures r.Some? <==> forall i :: 0 <= i < |fields| && Truthy(fields[i]) ==> Length(fields[i]).Some?
  {
    if fields == [] then Some(0)
    else AddLength(SumLengths(fields[..|fields| - 1]), fields[|fields| - 1])
  }

  lemma SumOfFour(f: seq<Value>)
    requires |f| == 4
    ensures SumLengths(f) == AddLength(AddLength(AddLength(AddLength(Some(0), f[0]), f[1]), f[2]), f[3])
  {
    assert f[..1][..0] == [] && f[..2][..1] == f[..1] && f[..3][..2] == f[..2] && f[..4][..3] == f[..3];
    assert SumLengths(f[..1]) == AddLength(Some(0), f[0]);
    assert SumLengths(f[..2]) == AddLength(SumLengths(f[..1]), f[1]);
    assert SumLengths(f[..3]) == AddLength(SumLengths(f[..2]), f[2]);
    assert SumLengths(f[..4]) == AddLength(SumLengths(f[..3]), f[3]);
    assert f[..4] == f;
  }

  /** The bytes `calculateTemplateSize` adds up. */
  function TemplateBytes(version: Value): Option<nat> {
    SumLengths(ContentFields(version))
  }

  /** `Math.pow(1024, i)`. */
  function Pow1024(i: nat): (p: nat)
    ensures p >= 1
  {
    if i == 0 then 1 else 1024 * Pow1024(i - 1)
  }

  /** `Math.floor(Math.log(bytes) / Math.log(1024))`, computed exactly: the
      largest `i` with `1024^i <= bytes`. */
  function UnitIndex(bytes: nat, i: nat): (r: nat)
    requires 1 <= bytes && Pow1024(i) <= bytes
    ensures i <= r && Pow1024(r) <= bytes < Pow1024(r + 1)
    decreases bytes - Pow1024(i)
  {
    if Pow1024(i + 1) <= bytes then UnitIndex(bytes, i + 1) else i
  }

  const SIZE_UNITS: seq<string> := ["Bytes", "KB", "MB", "GB"]

  /** `formatBytes(bytes)`: "0 Bytes" for 0, otherwise the value in the
      largest unit not above it, to at most two decimals; beyond the
      gigabytes the unit reads `undefined`. */
  function FormatBytes(bytes: nat): string {
    if bytes == 0 then "0 Bytes"
    else
      var i := UnitIndex(bytes, 0);
      var unit := if i < |SIZE_UNITS| then SIZE_UNITS[i] else "undefined";
      DecimalString(Hundredths(bytes as real / Pow1024(i) as real)) + " " + unit
  }

  /** No bytes read "0 Bytes"; fewer than 1024 read as the whole number of
      bytes, with no decimals. */
  lemma FormatBytesSmall(bytes: nat)
    requires bytes < 1024
    ensures bytes == 0 ==> FormatBytes(bytes) == "0 Bytes"
    ensures bytes > 0 ==> FormatBytes(bytes) == NatToString(bytes) + " Bytes"
  {
    if bytes > 0 {
      assert Pow1024(1) == 1024;
      assert UnitIndex(bytes, 0) == 0;
      WholeHundredths(bytes);
      DecimalStringWhole(bytes);
    }
  }

  lemma WholeHundredths(n: nat)
    ensures Hundredths(n as real / Pow1024(0) as real) == n * 100
  {
    assert n as real / Pow1024(0) as real == n as real;
    Round2OfHundredths(n * 100);
    assert (n * 100) as real / 100.0 == n as real;
  }

  /** The size, its `toFixed(2)` kilobytes and its readable text; `NaN` reads
      "NaN", and `formatBytes(NaN)` "NaN undefined". */
  function SizeOf(bytes: Option<nat>): Size {
    match bytes
    case Some(n) => Size(bytes, Fixed2(n as real / 1024.0), FormatBytes(n))
    case None => Size(None, "NaN", "NaN undefined")
  }

  /** `calculateTemplateSize(version)`: `size` grows by the length of each
      truthy content field, in turn. */
  method CalculateTemplateSize(version: Value) returns (size: Size)
    ensures size == SizeOf(TemplateBytes(version))
  {
    var f := ContentFields(version);
    var bytes: Option<nat> := Some(0);
    if Truthy(f[0]) { bytes := AddLength(bytes, f[0]); }
    if Truthy(f[1]) { bytes := AddLength(bytes, f[1]); }
    if Truthy(f[2]) { bytes := AddLength(bytes, f[2]); }
    if Truthy(f[3]) { bytes := AddLength(bytes, f[3]); }
    SumOfFour(f);
    size := SizeOf(bytes);
  }

  /** The text an element contributes to `[...].join(' ')`. */
  function Piece(v: Value): string {
    if v.Undefined? || v.Null? then "" else ToString(v)
  }

  /** `[template, subject, text, html].join(' ')`. */
  function TemplateContent(version: Value): string {
    var f := ContentFields(version);
    Join([Piece(f[0]), Piece(f[1]), Piece(f[2]), Piece(f[3])], " ")
  }

  /** When every content field is a string or absent, the size is the length
      of the joined content less its three separators. */
  lemma SizeMatchesContent(version: Value)
    requires forall i :: 0 <= i < 4 ==> ContentFields(version)[i].Str? || !Readable(ContentFields(version)[i])
    ensures TemplateBytes(version) == Some(|TemplateContent(version)| - 3)
  {
    var f := ContentFields(version);
    SumOfFour(f);
    var p := [Piece(f[0]), Piece(f[1]), Piece(f[2]), Piece(f[3])];
    AddPiece(0, f[0]);
    AddPiece(|p[0]|, f[1]);
    AddPiece(|p[0]| + |p[1]|, f[2]);
    AddPiece(|p[0]| + |p[1]| + |p[2]|, f[3]);
    JoinFour(p);
  }

  lemma AddPiece(n: nat, v: Value)
    requires v.Str? || !Readable(v)
    ensures AddLength(Some(n), v) == Some(n + |Piece(v)|)
  {
  }

  lemma JoinFour(p: seq<string>)
    requires |p| == 4
    ensures |Join(p, " ")| == |p[0]| + |p[1]| + |p[2]| + |p[3]| + 3
  {
    var q, r, t := [p[1], p[2], p[3]], [p[2], p[3]], [p[3]];
    assert p[1..] == q && q[1..] == r && r[1..] == t;
    assert Join(t, " ") == p[3];
    assert Join(r, " ") == p[2] + " " + p[3];
    assert Join(q, " ") == p[1] + " " + Join(r, " ");
    assert Join(p, " ") == p[0] + " " + Join(q, " ");
  }

  /** The first position at or after `from` where `sub` occurs. */
  function FirstMatch(s: string, sub: string, from: nat): (r: Option<nat>)
    requires from <= |s|
    ensures r.Some? ==> from <= r.value && MatchAt(s, sub, r.value)
    ensures forall i :: from <= i && (r.None? || i < r.value) ==> !MatchAt(s, sub, i)
    decreases |s| - from
  {
    if from + |sub| > |s| then None
    else if s[from..from + |sub|] == sub then Some(from)
    else FirstMatch(s, sub, from + 1)
  }

  /** `/\{\{[\s\S]*?\}\}/.test(s)`: an opening `{{` with a closing `}}`
      somewhere after it. */
  ghost predicate HasHandlebars(s: string) {
    exists i, j :: MatchAt(s, "{{", i) && i + 2 <= j && MatchAt(s, "}}", j)
  }

  /** `hasTemplateVariables(version)`. */
  function HasTemplateVariables(version: Value): (b: bool)
    ensures b <==> HasHandlebars(TemplateContent(version))
  {
    var s := TemplateContent(version);
    match FirstMatch(s, "{{", 0)
    case None => false
    case Some(i) =>
      var b := ContainsFrom(s, "}}", i + 2);
      assert b ==> HasHandlebars(s);
      b
  }

  /** The first position at or after `k` that is not `\s`. */
  function SkipSpaces(s: string, k: nat): (r: nat)
    requires k <= |s|
    ensures k <= r <= |s| && (r < |s| ==> !IsSpace(s[r]))
    ensures forall i :: k <= i < r ==> IsSpace(s[i])
    decreases |s| - k
  {
    if k == |s| || !IsSpace(s[k]) then k else SkipSpaces(s, k + 1)
  }

  /** The end of the run of `[^}\s]` characters starting at `k`. */
  function NameEnd(s: string, k: nat): (r: nat)
    requires k <= |s|
    ensures k <= r <= |s| && (r < |s| ==> s[r] == '}' || IsSpace(s[r]))
    ensures forall i :: k <= i < r ==> s[i] != '}' && !IsSpace(s[i])
    decreases |s| - k
  {
    if k == |s| || s[k] == '}' || IsSpace(s[k]) then k else NameEnd(s, k + 1)
  }

  /** `/\{\{\s*([^}\s]+)[\s\S]*?\}\}/` matched at position `i`: the captured
      name and the end of the match. The greedy `\s*` must take every blank
      (the name cannot start with one), and a shorter name cannot reach a
      `}}` the longest one does not. */
  function VariableAt(s: string, i: nat): (r: Option<(string, nat)>)
    requires i <= |s|
    ensures r.Some? ==> i + 2 < r.value.1 <= |s| && |r.value.0| > 0 && MatchAt(s, "{{", i)
                        && MatchAt(s, "}}", r.value.1 - 2)
  {
    if !MatchAt(s, "{{", i) then None
    else
      var k := SkipSpaces(s, i + 2);
      var m := NameEnd(s, k);
      if m == k then None
      else match FirstMatch(s, "}}", m)
        case None => None
        case Some(j) => Some((s[k..m], j + 2))
  }

  /** `handlebarsPattern.exec(s)` with `lastIndex == from`: the leftmost
      match at or after `from`. */
  function Exec(s: string, from: nat): (r: Option<(string, nat)>)
    requires from <= |s|
    ensures r.Some? ==> from < r.value.1 <= |s|
    decreases |s| - from
  {
    if from == |s| then None
    else match VariableAt(s, from)
      case Some(found) => Some(found)
      case None => Exec(s, from + 1)
  }

  /** The names captured by successive `exec` calls from `from` on. */
  function Captures(s: string, from: nat): seq<string>
    requires from <= |s|
    decreases |s| - from
  {
    match Exec(s, from)
    case None => []
    case Some(found) => [found.0] + Captures(s, found.1)
  }

  function Elements(names: seq<string>): set<string> {
    set i | 0 <= i < |names| :: names[i]
  }

  /** The distinct variable names of a template version. */
  function VariableNames(version: Value): set<string> {
    Elements(Captures(TemplateContent(version), 0))
  }

  lemma CapturesStep(s: string, from: nat)
    requires from <= |s| && Exec(s, from).Some?
    ensures Elements(Captures(s, from)) == {Exec(s, from).value.0} + Elements(Captures(s, Exec(s, from).value.1))
  {
    var found := Exec(s, from).value;
    ElementsCons(found.0, Captures(s, found.1));
  }

  lemma ElementsCons(x: string, rest: seq<string>)
    ensures Elements([x] + rest) == {x} + Elements(rest)
  {
    var all := [x] + rest;
    forall y | y in Elements(rest)
      ensures y in Elements(all)
    {
      var i :| 0 <= i < |rest| && rest[i] == y;
      assert all[i + 1] == y;
    }
    forall y | y in Elements(all)
      ensures y in {x} + Elements(rest)
    {
      var i :| 0 <= i < |all| && all[i] == y;
      if i > 0 {
        assert rest[i - 1] == y;
      }
    }
    assert all[0] == x;
  }

  /** `countTemplateVariables(version)`: `exec` in a loop, each captured
      name added to a set, and the set's size returned. */
  method CountTemplateVariables(version: Value) returns (count: nat)
    ensures count == |VariableNames(version)|
  {
    var content := TemplateContent(version);
    var variables: set<string> := {};
    var lastIndex := 0;
    var found := Exec(content, lastIndex);
    while found.Some?
      invariant lastIndex <= |content| && found == Exec(content, lastIndex)
      invariant variables + Elements(Captures(content, lastIndex)) == VariableNames(version)
      decreases |content| - lastIndex
    {
      CapturesStep(content, lastIndex);
      variables := variables + {found.value.0};
      lastIndex := found.value.1;
      found := Exec(content, lastIndex);
    }
    assert Captures(content, lastIndex) == [];
    count := |variables|;
  }

  /** Every capture needs a `{{ … }}`, so a version with a variable counted
      always has Handlebars syntax. */
  lemma CountedVariablesAreHandlebars(version: Value)
    ensures |VariableNames(version)| > 0 ==> HasTemplateVariables(version)
  {
    var s := TemplateContent(version);
    if Exec(s, 0).None? {
      assert Captures(s, 0) == [];
      assert VariableNames(version) == {};
    } else {
      ExecFindsVariable(s, 0);
    }
  }

  lemma {:induction false} ExecFindsVariable(s: string, from: nat)
    requires from <= |s| && Exec(s, from).Some?
    ensures HasHandlebars(s)
    decreases |s| - from
  {
    if VariableAt(s, from).None? {
      ExecFindsVariable(s, from + 1);
    } else {
      var found := VariableAt(s, from).value;
      assert MatchAt(s, "{{", from) && from + 2 <= found.1 - 2 && MatchAt(s, "}}", found.1 - 2);
    }
  }

  /** The variable count of a version's metadata. */
  function VariableCount(version: Value): nat {
    |VariableNames(version)|
  }

  /** `processTemplateVersion(version)`: headers default to `{}`, `mjml` to
      `false`, and the metadata is computed from the content fields. */
  function ProcessTemplateVersion(v: Value): (r: TemplateVersion)
    ensures r.raw == v && r.tag == Get(v, "tag") && r.engine == Get(v, "engine")
    ensures r.content == Content(Get(v, "template"), Get(v, "subject"), Get(v, "text"), Get(v, "html"))
    ensures Truthy(r.headers) || r.headers == Obj([])
    ensures Truthy(r.mjml) || r.mjml == Bool(false)
    ensures r.metadata.size.bytes == TemplateBytes(v)
    ensures r.metadata.variableCount > 0 ==> r.metadata.hasVariables
  {
    CountedVariablesAreHandlebars(v);
    TemplateVersion(Get(v, "tag"), Get(v, "engine"), CreatedAt(v), Get(v, "comment"),
                    Content(Get(v, "template"), Get(v, "subject"), Get(v, "text"), Get(v, "html")),
                    Or(Get(v, "headers"), Obj([])), Or(Get(v, "mjml"), Bool(false)),
                    Metadata(SizeOf(TemplateBytes(v)), HasTemplateVariables(v), VariableCount(v)), v)
  }

  /** A version in an enriched template: fetched with its content, the
      `null` a failed content fetch leaves behind, or the listed version
      marked with the error. */
  datatype VersionEntry = WithContent(version: TemplateVersion) | Missing | FailedFetch(listed: TemplateVersion, error: string)

  datatype EnrichedTemplate = EnrichedTemplate(template: Template, details: Option<TemplateDetails>,
                                               versions: seq<VersionEntry>, versionCount: nat)

  /** `response.data.template || response.data`, processed by `process`;
      reading `template` of a `null` body throws. */
  function FromResponse<R>(response: Result<Value, string>, process: Value -> R): (r: Result<R, string>)
    ensures r.Ok? <==> response.Ok? && Readable(response.value)
  {
    match response
    case Err(e) => Err(e)
    case Ok(body) =>
      if !Readable(body) then Err("Cannot read properties of null (reading 'template')")
      else Ok(process(Or(Get(body, "template"), body)))
  }

  /** `fetchTemplateVersions(name)`: a failure reads as no versions. */
  function FetchTemplateVersions(page: Result<seq<Value>, PageError>): seq<TemplateVersion> {
    Fetched(page, ProcessTemplateVersion).GetOr([])
  }

  /** The responses the merge sees, keyed by the template name and the
      version tag as they appear in the request paths. */
  datatype TemplateResponses = TemplateResponses(
    details: string -> Result<Value, string>,
    versions: string -> Result<seq<Value>, PageError>,
    version: (string, string) -> Result<Value, string>)

  /** The inner loop of `fetchAllTemplatesWithVersions` as written: the
      content of each listed version, or `null` when its fetch failed. */
  function VersionEntriesAsWritten(name: string, listed: seq<TemplateVersion>, r: TemplateResponses): (entries: seq<VersionEntry>)
    ensures |entries| == |listed|
    ensures forall i :: 0 <= i < |listed| ==>
              entries[i] == match FromResponse(r.version(name, ToString(listed[i].tag)), ProcessTemplateVersion)
                            case Ok(v) => WithContent(v)
                            case Err(_) => Missing
  {
    seq(|listed|, i requires 0 <= i < |listed| =>
      match FromResponse(r.version(name, ToString(listed[i].tag)), ProcessTemplateVersion)
      case Ok(v) => WithContent(v)
      case Err(_) => Missing)
  }

  /** The inner loop with the listed version kept, marked with the error,
      when its content cannot be fetched. */
  function VersionEntries(name: string, listed: seq<TemplateVersion>, r: TemplateResponses): (entries: seq<VersionEntry>)
    ensures |entries| == |listed|
    ensures forall i :: 0 <= i < |listed| ==> !entries[i].Missing?
    ensures forall i :: 0 <= i < |listed| ==>
              (entries[i].WithContent? <==> VersionEntriesAsWritten(name, listed, r)[i].WithContent?)
              && (entries[i].WithContent? ==> entries[i] == VersionEntriesAsWritten(name, listed, r)[i])
              && (entries[i].FailedFetch? ==> entries[i].listed == listed[i])
  {
    seq(|listed|, i requires 0 <= i < |listed| =>
      match FromResponse(r.version(name, ToString(listed[i].tag)), ProcessTemplateVersion)
      case Ok(v) => WithContent(v)
      case Err(e) => FailedFetch(listed[i], e))
  }

  function Enrich(t: Template, entries: seq<VersionEntry>, r: TemplateResponses): (e: EnrichedTemplate)
    ensures e.template == t && e.versions == entries && e.versionCount == |e.versions|
    ensures e.details.None? <==> FromResponse(r.details(ToString(t.name)), ProcessTemplateDetails).Err?
    ensures e.details.Some? ==> e.details.value == FromResponse(r.details(ToString(t.name)), ProcessTemplateDetails).value
  {
    var details := FromResponse(r.details(ToString(t.name)), ProcessTemplateDetails);
    EnrichedTemplate(t, if details.Ok? then Some(details.value) else None, entries, |entries|)
  }

  /** One template of the merge as written: its details, and its listed
      versions with their contents (`null` where a content fetch failed). */
  function EnrichAsWritten(t: Template, r: TemplateResponses): (e: EnrichedTemplate)
    ensures e.template == t && e.versionCount == |e.versions|
    ensures var name := ToString(t.name);
            e.versions == VersionEntriesAsWritten(name, FetchTemplateVersions(r.versions(name)), r)
    ensures var details := FromResponse(r.details(ToString(t.name)), ProcessTemplateDetails);
            (e.details.None? <==> details.Err?) && (details.Ok? ==> e.details == Some(details.value))
  {
    var name := ToString(t.name);
    Enrich(t, VersionEntriesAsWritten(name, FetchTemplateVersions(r.versions(name)), r), r)
  }

  /** One template of the merge, with failed contents kept as the listed
      version plus the error. */
  function EnrichTemplate(t: Template, r: TemplateResponses): (e: EnrichedTemplate)
    ensures e.template == t && e.versionCount == |e.versions| && NoMissing(e.versions)
    ensures |e.versions| == |EnrichAsWritten(t, r).versions| && e.details == EnrichAsWritten(t, r).details
    ensures var name := ToString(t.name);
            e.versions == VersionEntries(name, FetchTemplateVersions(r.versions(name)), r)
  {
    var name := ToString(t.name);
    Enrich(t, VersionEntries(name, FetchTemplateVersions(r.versions(name)), r), r)
  }

  /** `fetchAllTemplatesWithVersions()` as written: the templates listing
      must succeed; then each template is enriched in turn. */
  function FetchAllTemplatesWithVersionsAsWritten(templates: Result<seq<Value>, PageError>, r: TemplateResponses)
    : (result: Result<seq<EnrichedTemplate>, PageError>)
    ensures result.Ok? <==> Fetched(templates, ProcessTemplate).Ok?
    ensures result.Ok? ==> |result.value| == |templates.value|
                           && forall i :: 0 <= i < |result.value| ==>
                                result.value[i] == EnrichAsWritten(ProcessTemplate(templates.value[i]), r)
  {
    match Fetched(templates, ProcessTemplate)
    case Err(e) => Err(e)
    case Ok(ts) => Ok(seq(|ts|, i requires 0 <= i < |ts| => EnrichAsWritten(ts[i], r)))
  }

  /** `fetchAllTemplatesWithVersions()` with failed version contents kept. */
  function FetchAllTemplatesWithVersions(templates: Result<seq<Value>, PageError>, r: TemplateResponses)
    : (result: Result<seq<EnrichedTemplate>, PageError>)
    ensures result.Ok? <==> Fetched(templates, ProcessTemplate).Ok?
    ensures result.Ok? ==> |result.value| == |templates.value|
                           && forall i :: 0 <= i < |result.value| ==>
                                result.value[i] == EnrichTemplate(ProcessTemplate(templates.value[i]), r)
  {
    match Fetched(templates, ProcessTemplate)
    case Err(e) => Err(e)
    case Ok(ts) => Ok(seq(|ts|, i requires 0 <= i < |ts| => EnrichTemplate(ts[i], r)))
  }

  predicate NoMissing(entries: seq<VersionEntry>) {
    forall i :: 0 <= i < |entries| ==> !entries[i].Missing?
  }

  /** The version an entry reads as; `None` for the `null` entry. */
  function EntryData(e: VersionEntry): Option<TemplateVersion> {
    match e
    case WithContent(v) => Some(v)
    case Missing => None
    case FailedFetch(v, _) => Some(v)
  }

  /** Every version entry, template by template. */
  function AllVersions(templates: seq<EnrichedTemplate>): seq<VersionEntry> {
    if templates == [] then []
    else AllVersions(templates[..|templates| - 1]) + templates[|templates| - 1].versions
  }

  function TotalVersions(templates: seq<EnrichedTemplate>): nat {
    if templates == [] then 0
    else TotalVersions(templates[..|templates| - 1]) + |templates[|templates| - 1].versions|
  }

  lemma {:induction false} AllVersionsCount(templates: seq<EnrichedTemplate>)
    ensures |AllVersions(templates)| == TotalVersions(templates)
  {
    if templates != [] {
      AllVersionsCount(templates[..|templates| - 1]);
    }
  }

  datatype ContentRow = ContentRow(templateName: Value, versionTag: Value, subject: Value, html: Value,
                                   text: Value, template: Value, createdAt: Value,
                                   size: Option<nat>, variableCount: nat)

  function RowOf(t: EnrichedTemplate, v: TemplateVersion): ContentRow {
    ContentRow(t.template.name, v.tag, v.content.subject, v.content.html, v.content.text, v.content.template,
               v.createdAt, v.metadata.size.bytes, v.metadata.variableCount)
  }

  const NULL_VERSION := "TypeError: Cannot read properties of null (reading 'tag')"

  /** The rows of one template's entries; reading `tag` of `null` throws. */
  function RowsOf(t: EnrichedTemplate, entries: seq<VersionEntry>): Result<seq<ContentRow>, string> {
    if entries == [] then Ok([])
    else match (RowsOf(t, entries[..|entries| - 1]), EntryData(entries[|entries| - 1]))
      case (Ok(rows), Some(v)) => Ok(rows + [RowOf(t, v)])
      case (Err(e), _) => Err(e)
      case (_, None) => Err(NULL_VERSION)
  }

  /** What `extractTemplateContent(templates)` returns or throws. */
  function ContentRows(templates: seq<EnrichedTemplate>): Result<seq<ContentRow>, string> {
    if templates == [] then Ok([])
    else
      var last := templates[|templates| - 1];
      match (ContentRows(templates[..|templates| - 1]), RowsOf(last, last.versions))
      case (Ok(a), Ok(b)) => Ok(a + b)
      case (Err(e), _) => Err(e)
      case (_, Err(e)) => Err(e)
  }

  lemma {:induction false} RowsOfCount(t: EnrichedTemplate, entries: seq<VersionEntry>)
    ensures RowsOf(t, entries).Ok? <==> NoMissing(entries)
    ensures RowsOf(t, entries).Err? ==> RowsOf(t, entries).error == NULL_VERSION
    ensures RowsOf(t, entries).Ok? ==> |RowsOf(t, entries).value| == |entries|
                                       && forall k :: 0 <= k < |entries| ==> Some(RowsOf(t, entries).value[k]) == MapRow(t, EntryData(entries[k]))
  {
    if entries != [] {
      var init := entries[..|entries| - 1];
      RowsOfCount(t, init);
      assert forall k :: 0 <= k < |init| ==> init[k] == entries[k];
    }
  }

  function MapRow(t: EnrichedTemplate, v: Option<TemplateVersion>): Option<ContentRow> {
    match v
    case Some(x) => Some(RowOf(t, x))
    case None => None
  }

  /** The export has one row per version entry, in template then version
      order, and fails exactly when some entry is the `null` left by a
      failed content fetch. */
  lemma {:induction false} ContentRowsCount(templates: seq<EnrichedTemplate>)
    ensures ContentRows(templates).Ok? <==> forall i :: 0 <= i < |templates| ==> NoMissing(templates[i].versions)
    ensures ContentRows(templates).Err? ==> ContentRows(templates).error == NULL_VERSION
    ensures ContentRows(templates).Ok? ==> |ContentRows(templates).value| == TotalVersions(templates)
  {
    if templates != [] {
      var init := templates[..|templates| - 1];
      var last := templates[|templates| - 1];
      ContentRowsCount(init);
      RowsOfCount(last, last.versions);
      assert forall i :: 0 <= i < |init| ==> init[i] == templates[i];
    }
  }

  /** `extractTemplateContent(templates)`: one row pushed per version, in a
      nested loop. */
  method ExtractTemplateContent(templates: seq<EnrichedTemplate>) returns (result: Result<seq<ContentRow>, string>)
    ensures result == ContentRows(templates)
  {
    var content: seq<ContentRow> := [];
    var i := 0;
    while i < |templates|
      invariant 0 <= i <= |templates|
      invariant ContentRows(templates[..i]) == Ok(content)
    {
      var t := templates[i];
      var j := 0;
      ghost var before := content;
      while j < |t.versions|
        invariant 0 <= j <= |t.versions|
        invariant RowsOf(t, t.versions[..j]).Ok? && content == before + RowsOf(t, t.versions[..j]).value
      {
        assert t.versions[..j + 1][..j] == t.versions[..j];
        match EntryData(t.versions[j])
        case None =>
          result := Err(NULL_VERSION);
          PrefixErrorPropagates(templates, i, j);
          return;
        case Some(v) =>
          content := content + [RowOf(t, v)];
        j := j + 1;
      }
      assert t.versions[..|t.versions|] == t.versions;
      assert templates[..i + 1][..i] == templates[..i];
      i := i + 1;
    }
    assert templates[..|templates|] == templates;
    result := Ok(content);
  }

  /** A `null` entry makes every later prefix of the export fail too. */
  lemma PrefixErrorPropagates(templates: seq<EnrichedTemplate>, i: nat, j: nat)
    requires i < |templates| && j < |templates[i].versions| && EntryData(templates[i].versions[j]).None?
    ensures ContentRows(templates) == Err(NULL_VERSION)
  {
    var t := templates[i];
    assert t == templates[i] && t.versions[j].Missing?;
    ContentRowsCount(templates);
  }

  /** The per-version counters of `getTemplateStats`. */
  datatype VersionTally = VersionTally(byEngine: Counts, totalSize: nat, withVariables: nat, variableCount: nat,
                                       html: nat, text: nat, both: nat)

  const NULL_ENGINE := "TypeError: Cannot read properties of null (reading 'engine')"

  /** One pass of the inner `forEach` over a version. */
  function CountVersion(acc: VersionTally, v: TemplateVersion): VersionTally {
    var hasHtml := Truthy(v.content.html);
    var hasText := Truthy(v.content.text);
    var bytes := v.metadata.size.bytes;
    VersionTally(
      if Truthy(v.engine) then Bump(acc.byEngine, ToString(v.engine)) else acc.byEngine,
      if bytes.Some? && bytes.value > 0 then acc.totalSize + bytes.value else acc.totalSize,
      if v.metadata.hasVariables then acc.withVariables + 1 else acc.withVariables,
      acc.variableCount + v.metadata.variableCount,
      if hasHtml && !hasText then acc.html + 1 else acc.html,
      if hasText && !hasHtml then acc.text + 1 else acc.text,
      if hasHtml && hasText then acc.both + 1 else acc.both)
  }

  /** The counters over a run of entries; reading `engine` of `null` throws. */
  function TallyVersions(entries: seq<VersionEntry>): Result<VersionTally, string> {
    if entries == [] then Ok(VersionTally([], 0, 0, 0, 0, 0, 0))
    else match (TallyVersions(entries[..|entries| - 1]), EntryData(entries[|entries| - 1]))
      case (Ok(acc), Some(v)) => Ok(CountVersion(acc, v))
      case (Err(e), _) => Err(e)
      case (_, None) => Err(NULL_ENGINE)
  }

  /** The engines the tally counts, one key per version with a truthy engine. */
  function EngineKeys(entries: seq<VersionEntry>): seq<string> {
    if entries == [] then []
    else
      var e := EntryData(entries[|entries| - 1]);
      EngineKeys(entries[..|entries| - 1])
      + (if e.Some? && Truthy(e.value.engine) then [ToString(e.value.engine)] else [])
  }

  /** The tally succeeds exactly when no entry is `null`; then the content
      buckets are disjoint, so together they hold at most one count per
      version, and the engine counts are a tally of the truthy engines. */
  lemma TallyVersionsBounds(entries: seq<VersionEntry>)
    ensures TallyVersions(entries).Ok? <==> NoMissing(entries)
    ensures TallyVersions(entries).Err? ==> TallyVersions(entries).error == NULL_ENGINE
    ensures TallyVersions(entries).Ok? ==>
              var t := TallyVersions(entries).value;
              t.both + t.html + t.text <= |entries| && t.withVariables <= |entries|
              && t.byEngine == TallyOf(EngineKeys(entries)) && |EngineKeys(entries)| <= |entries|
  {
    TallyFailsAtNull(entries);
    if TallyVersions(entries).Ok? {
      TallyCounts(entries);
    }
  }

  lemma {:induction false} TallyFailsAtNull(entries: seq<VersionEntry>)
    ensures TallyVersions(entries).Ok? <==> NoMissing(entries)
    ensures TallyVersions(entries).Err? ==> TallyVersions(entries).error == NULL_ENGINE
  {
    if entries != [] {
      var init := entries[..|entries| - 1];
      TallyFailsAtNull(init);
      assert forall k :: 0 <= k < |init| ==> init[k] == entries[k];
    }
  }

  lemma {:induction false} TallyCounts(entries: seq<VersionEntry>)
    requires TallyVersions(entries).Ok?
    ensures var t := TallyVersions(entries).value;
            t.both + t.html + t.text <= |entries| && t.withVariables <= |entries|
            && t.byEngine == TallyOf(EngineKeys(entries)) && |EngineKeys(entries)| <= |entries|
  {
    if entries != [] {
      var init := entries[..|entries| - 1];
      TallyCounts(init);
      var keys := EngineKeys(init);
      var e := EntryData(entries[|entries| - 1]);
      if e.Some? && Truthy(e.value.engine) {
        assert (keys + [ToString(e.value.engine)])[..|keys|] == keys;
      } else {
        assert keys + [] == keys;
      }
    }
  }

  datatype TemplateStats = TemplateStats(totalTemplates: nat, totalVersions: nat, totalSize: nat, byEngine: Counts,
                                         templatesWithVariables: nat, totalVariableCount: nat,
                                         averageVariablesPerTemplate: Value, html: nat, text: nat, both: nat,
                                         totalSizeFormatted: string, averageSizePerTemplate: string)

  /** The statistics from the counters: the averages are 0 (and "0 Bytes")
      when there are no versions. */
  function Summarize(templateCount: nat, versionCount: nat, t: VersionTally): (s: TemplateStats)
    ensures versionCount == 0 ==> s.averageVariablesPerTemplate == Num(0) && s.averageSizePerTemplate == "0 Bytes"
    ensures versionCount > 0 ==> s.averageVariablesPerTemplate.Str?
  {
    TemplateStats(templateCount, versionCount, t.totalSize, t.byEngine, t.withVariables, t.variableCount,
                  if versionCount > 0 then Str(Fixed2(t.variableCount as real / versionCount as real)) else Num(0),
                  t.html, t.text, t.both, FormatBytes(t.totalSize),
                  if versionCount > 0 then FormatBytes(RoundedAverage(t.totalSize, versionCount)) else "0 Bytes")
  }

  /** What `getTemplateStats(templates)` returns or throws. */
  function TemplateStatsOf(templates: seq<EnrichedTemplate>): Result<TemplateStats, string> {
    match TallyVersions(AllVersions(templates))
    case Err(e) => Err(e)
    case Ok(t) => Ok(Summarize(|templates|, TotalVersions(templates), t))
  }

  /** The statistics count every version once: the content buckets together
      never exceed the number of versions, nor do the templates with
      variables or the engine counts. */
  lemma TemplateStatsBounds(templates: seq<EnrichedTemplate>)
    ensures TemplateStatsOf(templates).Ok? <==> forall i :: 0 <= i < |templates| ==> NoMissing(templates[i].versions)
    ensures TemplateStatsOf(templates).Ok? ==>
              var s := TemplateStatsOf(templates).value;
              s.totalTemplates == |templates| && s.totalVersions == TotalVersions(templates)
              && s.both + s.html + s.text <= s.totalVersions && s.templatesWithVariables <= s.totalVersions
              && Total(s.byEngine) <= s.totalVersions && DistinctNames(s.byEngine)
  {
    var all := AllVersions(templates);
    TallyVersionsBounds(all);
    AllVersionsCount(templates);
    AllVersionsNoMissing(templates);
    TallyOfCounts(EngineKeys(all), "");
  }

  lemma {:induction false} AllVersionsNoMissing(templates: seq<EnrichedTemplate>)
    ensures NoMissing(AllVersions(templates)) <==> forall i :: 0 <= i < |templates| ==> NoMissing(templates[i].versions)
  {
    if templates != [] {
      var init := templates[..|templates| - 1];
      var last := templates[|templates| - 1];
      AllVersionsNoMissing(init);
      assert forall i :: 0 <= i < |init| ==> init[i] == templates[i];
      var all := AllVersions(init) + last.versions;
      assert forall k :: 0 <= k < |last.versions| ==> all[|AllVersions(init)| + k] == last.versions[k];
      assert forall k :: 0 <= k < |AllVersions(init)| ==> all[k] == AllVersions(init)[k];
    }
  }

  /** The inner `versions.forEach` of `getTemplateStats`: every version of
      one template counted onto the tally so far; a `null` version throws. */
  method CountVersions(ghost before: seq<VersionEntry>, acc: VersionTally, versions: seq<VersionEntry>)
    returns (r: Result<VersionTally, string>)
    requires TallyVersions(before) == Ok(acc)
    ensures r == TallyVersions(before + versions)
  {
    var current := acc;
    assert before + versions[..0] == before;
    for j := 0 to |versions|
      invariant TallyVersions(before + versions[..j]) == Ok(current)
    {
      match EntryData(versions[j])
      case None =>
        TallyMissingStops(before, versions, j);
        return Err(NULL_ENGINE);
      case Some(v) =>
        assert before + versions[..j + 1] == (before + versions[..j]) + [versions[j]];
        TallyStep(before + versions[..j], versions[j], current);
        current := CountVersion(current, v);
    }
    assert versions[..|versions|] == versions;
    r := Ok(current);
  }

  /** `getTemplateStats(templates)`: counters updated template by template,
      then the averages. */
  method GetTemplateStats(templates: seq<EnrichedTemplate>) returns (result: Result<TemplateStats, string>)
    ensures result == TemplateStatsOf(templates)
  {
    var totalVersions := 0;
    var acc := VersionTally([], 0, 0, 0, 0, 0, 0);
    for i := 0 to |templates|
      invariant totalVersions == TotalVersions(templates[..i])
      invariant TallyVersions(AllVersions(templates[..i])) == Ok(acc)
    {
      var t := templates[i];
      assert templates[..i + 1][..i] == templates[..i];
      totalVersions := totalVersions + |t.versions|;
      var counted := CountVersions(AllVersions(templates[..i]), acc, t.versions);
      if counted.Err? {
        TallyErrorSpreads(templates, i);
        return Err(NULL_ENGINE);
      }
      acc := counted.value;
    }
    assert templates[..|templates|] == templates;
    result := Ok(Summarize(|templates|, totalVersions, acc));
  }

  /** One more version with data adds its counts to the tally. */
  lemma TallyStep(entries: seq<VersionEntry>, e: VersionEntry, acc: VersionTally)
    requires TallyVersions(entries) == Ok(acc) && EntryData(e).Some?
    ensures TallyVersions(entries + [e]) == Ok(CountVersion(acc, EntryData(e).value))
  {
    assert (entries + [e])[..|entries|] == entries;
  }

  /** A `null` version stops the tally with the error. */
  lemma TallyMissingStops(before: seq<VersionEntry>, versions: seq<VersionEntry>, j: nat)
    requires j < |versions| && versions[j].Missing?
    ensures TallyVersions(before + versions) == Err(NULL_ENGINE)
  {
    var all := before + versions;
    assert all[|before| + j] == versions[j];
    TallyFailsAtNull(all);
  }

  /** A tally that fails on the first templates fails the statistics. */
  lemma TallyErrorSpreads(templates: seq<EnrichedTemplate>, i: nat)
    requires i < |templates| && TallyVersions(AllVersions(templates[..i + 1])).Err?
    ensures TemplateStatsOf(templates) == Err(NULL_ENGINE)
  {
    var head := templates[..i + 1];
    TallyFailsAtNull(AllVersions(head));
    AllVersionsNoMissing(head);
    var k :| 0 <= k < |head| && !NoMissing(head[k].versions);
    assert head[k] == templates[k];
    AllVersionsNoMissing(templates);
    TallyFailsAtNull(AllVersions(templates));
  }

  /** The `null` left by a failed version fetch: with the merge as written,
      one failing content fetch makes the content export and the statistics
      throw; with the listed version kept instead, both succeed. */
  lemma FailedVersionBreaksExport(t: Template, r: TemplateResponses, k: nat)
    requires k < |EnrichAsWritten(t, r).versions|
    requires FromResponse(r.version(ToString(t.name),
                                    ToString(FetchTemplateVersions(r.versions(ToString(t.name)))[k].tag)),
                          ProcessTemplateVersion).Err?
    ensures ContentRows([EnrichAsWritten(t, r)]).Err? && TemplateStatsOf([EnrichAsWritten(t, r)]).Err?
    ensures ContentRows([EnrichTemplate(t, r)]).Ok? && TemplateStatsOf([EnrichTemplate(t, r)]).Ok?
  {
    var bad := EnrichAsWritten(t, r);
    assert bad.versions[k].Missing?;
    OneTemplate(bad);
    OneTemplate(EnrichTemplate(t, r));
  }

  lemma OneTemplate(e: EnrichedTemplate)
    ensures ContentRows([e]).Ok? <==> NoMissing(e.versions)
    ensures TemplateStatsOf([e]).Ok? <==> NoMissing(e.versions)
  {
    ContentRowsCount([e]);
    TemplateStatsBounds([e]);
    assert [e][0] == e;
  }
}
