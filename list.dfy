/** repo/list.go: the records that `sum list` prints for the RPM files of the
    software repository, in the V1 and the V2 metadata schema, and the rule
    that picks those files from the repository. */
module RepoList {
  import opened Wrappers
  import opened GoStrings
  import opened FilePath
  import opened Version
  import opened Rpm

  /** The default software repository. */
  const SoftwareRepoPath := "/system/software/repository/"

  /** The metadata key whose presence marks a V2 package. */
  const FormatVersionName := "ASUM RPM Format Version"

  /** The error ListRPMFilesInfo reports when the rpm query fails. */
  const QueryFailed := "Failed to get software details."

  /** The error listRepo reports when the repository cannot be read. */
  const RepoUnreadable := "Failed to get contents of software repository."

  // ---------------------------------------------------------------------
  // Records

  datatype InstallDetails = InstallDetails(confirmationMessage: seq<string>, estimatedMinutes: nat,
                                           requiresRestart: bool, supportsRollback: bool)
  datatype RollbackDetails = RollbackDetails(confirmationMessage: seq<string>, estimatedMinutes: nat,
                                             requiresRestart: bool)
  datatype CommitDetails = CommitDetails(confirmationMessage: seq<string>, estimatedMinutes: nat)

  /** v2productVersion: what one product version's install, rollback and
      commit involve. */
  datatype ProductDetails = ProductDetails(install: InstallDetails, rollback: RollbackDetails,
                                           commit: CommitDetails)

  const ZeroDetails := ProductDetails(InstallDetails([], 0, false, false),
                                      RollbackDetails([], 0, false), CommitDetails([], 0))

  /** The V1 record (v1RPMInfo). */
  datatype V1Record = V1Record(description: string, estimate: Estimate, fileName: string,
                               name: string, matchedVersion: string, reboot: string,
                               summary: string, rpmType: string, url: string, version: string)

  /** The exported fields of the V2 record, the part that YAML decoding of the
      "RPM Info" field can fill. */
  datatype V2Fields = V2Fields(name: string, fileName: string, description: seq<string>,
                               rpmType: string, url: string, version: string, release: string,
                               details: ProductDetails)

  /** The V2 record (v2RPMInfo): its exported fields and the unexported
      matched version. */
  datatype V2Record = V2Record(fields: V2Fields, matchedVersion: string)

  /** One element of the V2 "compatibility-info" list. */
  datatype CompatEntry = CompatEntry(version: string, details: ProductDetails)

  /** The RPMInfo interface: a package record in one of the two schemas, with
      the getters both schemas implement. */
  datatype RpmInfo = V1(v1: V1Record) | V2(v2: V2Record)
  {
    function GetMatchedVersion(): string
    {
      if V1? then v1.matchedVersion else v2.matchedVersion
    }

    function GetRPMName(): string
    {
      if V1? then v1.name else v2.fields.name
    }

    /** V1 has no release number. */
    function GetRPMRelease(): string
    {
      if V1? then "" else v2.fields.release
    }

    function GetRPMType(): string
    {
      if V1? then v1.rpmType else v2.fields.rpmType
    }

    function GetRPMVersion(): string
    {
      if V1? then v1.version else v2.fields.version
    }
  }

  /** The external tools that ListRPMFilesInfo relies on. */
  datatype Tools = Tools(
    /** `rpm -q -p --info <file>`: the metadata text, or None on failure. */
    queryInfo: string -> Option<string>,
    /** json.Unmarshal of a V1 "VersionInfo" field. */
    decodeVersionInfo: string -> Decoded<seq<V1VersionInfo>>,
    /** yaml.Unmarshal of the "RPM Info" field into a partly filled record. */
    unmarshalRpmInfo: (string, V2Fields) -> V2Fields,
    /** yaml.Unmarshal of the "compatibility-info" list of the "RPM Info"
        field; on a decode error, whatever the decoder left. */
    decodeCompatibility: string -> seq<CompatEntry>)

  // ---------------------------------------------------------------------
  // The V1 record

  /** The V1 record of `file` as ListRPMFilesInfo builds it. */
  function V1RecordOf(file: string, parsed: map<string, string>, productVersion: string,
                      decode: string -> Decoded<seq<V1VersionInfo>>): V1Record
  {
    var plain := V1Record(Lookup(parsed, "Description"), Estimate("0", "0", "0"), Base(file),
                          Base(file), "", "n/a", Lookup(parsed, "Summary"), Lookup(parsed, "Type"),
                          Lookup(parsed, "URL"), Lookup(parsed, "Version"));
    if productVersion == "" then plain
    else
      var info := CompatibleVersionInfo(productVersion, decode(Lookup(parsed, "VersionInfo"))).info;
      plain.(matchedVersion := info.version, reboot := info.reboot, estimate := info.estimate)
  }

  /** The V1 branch of ListRPMFilesInfo's loop body. */
  method BuildV1Record(file: string, parsedData: map<string, string>, productVersion: string,
                       decode: string -> Decoded<seq<V1VersionInfo>>)
    returns (listData: V1Record)
    ensures listData == V1RecordOf(file, parsedData, productVersion, decode)
  {
    listData := V1Record(Lookup(parsedData, "Description"), Estimate("", "", ""), Base(file),
                         Base(file), "", "n/a", Lookup(parsedData, "Summary"),
                         Lookup(parsedData, "Type"), Lookup(parsedData, "URL"),
                         Lookup(parsedData, "Version"));
    listData := listData.(estimate := Estimate("0", "0", "0"));
    if productVersion != "" {
      var versionInfo, err := GetCompatibileVersionInfo(productVersion,
                                                        Lookup(parsedData, "VersionInfo"), decode);
      listData := listData.(matchedVersion := versionInfo.version, reboot := versionInfo.reboot,
                            estimate := versionInfo.estimate);
    }
  }

  /** Name and file name are the file's base name; the descriptive fields are
      copied from the metadata. */
  lemma V1CopiesMetadata(file: string, parsed: map<string, string>, productVersion: string,
                         decode: string -> Decoded<seq<V1VersionInfo>>)
    ensures var r := V1RecordOf(file, parsed, productVersion, decode);
            r.name == Base(file) && r.fileName == Base(file) &&
            r.description == Lookup(parsed, "Description") && r.summary == Lookup(parsed, "Summary") &&
            r.rpmType == Lookup(parsed, "Type") && r.url == Lookup(parsed, "URL") &&
            r.version == Lookup(parsed, "Version")
  {
  }

  /** Without a product version, reboot is "n/a", the estimate is zero and
      nothing is matched. */
  lemma V1WithoutProductVersion(file: string, parsed: map<string, string>,
                                decode: string -> Decoded<seq<V1VersionInfo>>)
    ensures var r := V1RecordOf(file, parsed, "", decode);
            r.reboot == "n/a" && r.estimate == Estimate("0", "0", "0") && r.matchedVersion == ""
  {
  }

  /** With a product version, reboot, estimate and matched version always come
      from the compatibility lookup; when the lookup fails they are all empty
      and the record is still produced. */
  lemma V1WithProductVersion(file: string, parsed: map<string, string>, productVersion: string,
                             decode: string -> Decoded<seq<V1VersionInfo>>)
    requires productVersion != ""
    ensures var r := V1RecordOf(file, parsed, productVersion, decode);
            var lookup := CompatibleVersionInfo(productVersion, decode(Lookup(parsed, "VersionInfo")));
            r.matchedVersion == lookup.info.version && r.reboot == lookup.info.reboot &&
            r.estimate == lookup.info.estimate &&
            (lookup.err.Some? ==> r.matchedVersion == "" && r.reboot == "" &&
                                  r.estimate == Estimate("", "", ""))
  {
    ErrorCarriesZero(productVersion, decode(Lookup(parsed, "VersionInfo")));
  }

  // ---------------------------------------------------------------------
  // The V2 record

  /** What a matching pass leaves: the product details and the matched
      version. */
  datatype V2Match = V2Match(details: ProductDetails, matchedVersion: string)

  /** The entry an optional index points at, or `otherwise`. */
  function MatchAt(entries: seq<CompatEntry>, r: Option<nat>, otherwise: V2Match): V2Match
  {
    match r
    case Some(k) => if k < |entries| then V2Match(entries[k].details, entries[k].version) else otherwise
    case None => otherwise
  }

  /** Whether each entry's version is exactly the product version. */
  function ExactFlags(productVersion: string, entries: seq<CompatEntry>): seq<bool>
  {
    seq(|entries|, i requires 0 <= i < |entries| => entries[i].version == productVersion)
  }

  /** Whether Compare accepts each entry's version. */
  function CompatFlags(productVersion: string, entries: seq<CompatEntry>): seq<bool>
  {
    seq(|entries|, i requires 0 <= i < |entries| => Matches(productVersion, entries[i].version))
  }

  /** The two matching passes of the V2 branch: the last exact entry, and only
      when that leaves nothing matched, the last entry Compare accepts. */
  function V2Selection(productVersion: string, entries: seq<CompatEntry>, start: V2Match): V2Match
  {
    var exact := MatchAt(entries, LastSetBelow(ExactFlags(productVersion, entries), |entries|), start);
    if exact.matchedVersion == "" then
      MatchAt(entries, LastSetBelow(CompatFlags(productVersion, entries), |entries|), exact)
    else exact
  }

  /** One more entry looked at by a matching pass. */
  lemma MatchStep(entries: seq<CompatEntry>, flags: seq<bool>, i: nat, otherwise: V2Match)
    requires |flags| == |entries| && i < |entries|
    ensures MatchAt(entries, LastSetBelow(flags, i + 1), otherwise) ==
            if flags[i] then V2Match(entries[i].details, entries[i].version)
            else MatchAt(entries, LastSetBelow(flags, i), otherwise)
  {
  }

  /** A pass picks the last flagged entry. */
  lemma LastFlaggedPicked(entries: seq<CompatEntry>, flags: seq<bool>, k: nat, otherwise: V2Match)
    requires |flags| == |entries| && k < |entries| && flags[k]
    requires forall j :: k < j < |flags| ==> !flags[j]
    ensures MatchAt(entries, LastSetBelow(flags, |flags|), otherwise) ==
            V2Match(entries[k].details, entries[k].version)
  {
    LastSetBelowSpec(flags, |flags|);
  }

  /** A pass with nothing flagged leaves what it started with. */
  lemma NothingFlaggedKept(entries: seq<CompatEntry>, flags: seq<bool>, otherwise: V2Match)
    requires |flags| == |entries|
    requires forall j :: 0 <= j < |flags| ==> !flags[j]
    ensures MatchAt(entries, LastSetBelow(flags, |flags|), otherwise) == otherwise
  {
    LastSetBelowSpec(flags, |flags|);
  }

  /** The two loops over the compatibility list in ListRPMFilesInfo. */
  method SelectV2Details(productVersion: string, entries: seq<CompatEntry>, start: V2Match)
    returns (m: V2Match)
    ensures m == V2Selection(productVersion, entries, start)
  {
    ghost var exactFlags := ExactFlags(productVersion, entries);
    m := start;
    for i := 0 to |entries|
      invariant m == MatchAt(entries, LastSetBelow(exactFlags, i), start)
    {
      var vInfo := entries[i];
      MatchStep(entries, exactFlags, i, start);
      if productVersion == vInfo.version {
        m := V2Match(vInfo.details, vInfo.version);
      }
    }
    if m.matchedVersion == "" {
      ghost var exact := m;
      ghost var flags := CompatFlags(productVersion, entries);
      for i := 0 to |entries|
        invariant m == MatchAt(entries, LastSetBelow(flags, i), exact)
      {
        var vInfo := entries[i];
        var accepted := Compare(productVersion, vInfo.version);
        assert accepted == flags[i];
        MatchStep(entries, flags, i, exact);
        if accepted {
          m := V2Match(vInfo.details, vInfo.version);
        }
      }
    }
  }

  /** The last entry whose version is exactly the product version wins;
      repeated versions are not refused. */
  lemma V2LastExactSelected(productVersion: string, entries: seq<CompatEntry>, start: V2Match, k: nat)
    requires productVersion != ""
    requires k < |entries| && entries[k].version == productVersion
    requires forall j :: k < j < |entries| ==> entries[j].version != productVersion
    ensures V2Selection(productVersion, entries, start) == V2Match(entries[k].details, productVersion)
  {
    LastFlaggedPicked(entries, ExactFlags(productVersion, entries), k, start);
  }

  /** Without an exact entry, the last entry Compare accepts wins. */
  lemma V2LastAcceptedSelected(productVersion: string, entries: seq<CompatEntry>,
                               start: V2Match, k: nat)
    requires start.matchedVersion == ""
    requires forall j :: 0 <= j < |entries| ==> entries[j].version != productVersion
    requires k < |entries| && Matches(productVersion, entries[k].version)
    requires forall j :: k < j < |entries| ==> !Matches(productVersion, entries[j].version)
    ensures V2Selection(productVersion, entries, start) == V2Match(entries[k].details, entries[k].version)
  {
    NothingFlaggedKept(entries, ExactFlags(productVersion, entries), start);
    LastFlaggedPicked(entries, CompatFlags(productVersion, entries), k, start);
  }

  /** When no entry matches in either pass, the record keeps what the RPM Info
      decoding gave it and stays unmatched. */
  lemma V2NothingMatched(productVersion: string, entries: seq<CompatEntry>, start: V2Match)
    requires start.matchedVersion == ""
    requires forall j :: 0 <= j < |entries| ==> !Matches(productVersion, entries[j].version)
    ensures V2Selection(productVersion, entries, start) == start
  {
    CompareReflexive(productVersion);
    NothingFlaggedKept(entries, ExactFlags(productVersion, entries), start);
    NothingFlaggedKept(entries, CompatFlags(productVersion, entries), start);
  }

  /** The V2 fields before the "RPM Info" field is decoded into them: the
      base name of the file and the metadata's Name, URL, Version and
      Release. */
  function V2Initial(file: string, parsed: map<string, string>): V2Fields
  {
    V2Fields(Lookup(parsed, "Name"), Base(file), [], "", Lookup(parsed, "URL"),
             Lookup(parsed, "Version"), Lookup(parsed, "Release"), ZeroDetails)
  }

  /** The V2 record of `file` as ListRPMFilesInfo builds it. */
  function V2RecordOf(file: string, parsed: map<string, string>, productVersion: string,
                      tools: Tools): V2Record
  {
    var rpmInfo := Lookup(parsed, "RPM Info");
    var fields := tools.unmarshalRpmInfo(rpmInfo, V2Initial(file, parsed));
    if productVersion == "" then V2Record(fields, "")
    else
      var m := V2Selection(productVersion, tools.decodeCompatibility(rpmInfo),
                           V2Match(fields.details, ""));
      V2Record(fields.(details := m.details), m.matchedVersion)
  }

  /** The V2 branch of ListRPMFilesInfo's loop body. */
  method BuildV2Record(file: string, parsedData: map<string, string>, productVersion: string,
                       tools: Tools)
    returns (listData: V2Record)
    ensures listData == V2RecordOf(file, parsedData, productVersion, tools)
  {
    var fields := V2Fields(Lookup(parsedData, "Name"), Base(file), [], "",
                           Lookup(parsedData, "URL"), Lookup(parsedData, "Version"),
                           Lookup(parsedData, "Release"), ZeroDetails);
    var rpmInfo := Lookup(parsedData, "RPM Info");
    fields := tools.unmarshalRpmInfo(rpmInfo, fields);
    listData := V2Record(fields, "");
    if productVersion != "" {
      var allVersionsInfo := tools.decodeCompatibility(rpmInfo);
      var m := SelectV2Details(productVersion, allVersionsInfo, V2Match(fields.details, ""));
      listData := V2Record(fields.(details := m.details), m.matchedVersion);
    }
  }

  /** Without a product version no V2 matching takes place. */
  lemma V2WithoutProductVersion(file: string, parsed: map<string, string>, tools: Tools)
    ensures V2RecordOf(file, parsed, "", tools).matchedVersion == ""
  {
  }

  // ---------------------------------------------------------------------
  // ListRPMFilesInfo

  /** The record of one file, in the schema its metadata calls for. */
  function RecordOf(file: string, metaData: string, productVersion: string, tools: Tools): RpmInfo
  {
    var parsed := Parse(metaData).parsed;
    if FormatVersionName !in parsed then V1(V1RecordOf(file, parsed, productVersion, tools.decodeVersionInfo))
    else V2(V2RecordOf(file, parsed, productVersion, tools))
  }

  /** One pass of ListRPMFilesInfo's loop, after the metadata query. */
  method BuildRecord(file: string, metaData: string, productVersion: string, tools: Tools)
    returns (r: RpmInfo)
    ensures r == RecordOf(file, metaData, productVersion, tools)
  {
    var parsedData := ParseMetaData(metaData);
    if FormatVersionName !in parsedData {
      var listData := BuildV1Record(file, parsedData, productVersion, tools.decodeVersionInfo);
      r := V1(listData);
    } else {
      var listData := BuildV2Record(file, parsedData, productVersion, tools);
      r := V2(listData);
    }
  }

  /** A record is V1 exactly when the metadata lacks the format-version key.
      V1 records have an empty release and the file's base name as name. */
  lemma RecordSchema(file: string, metaData: string, productVersion: string, tools: Tools)
    ensures var r := RecordOf(file, metaData, productVersion, tools);
            var parsed := Parse(metaData).parsed;
            (r.V1? <==> FormatVersionName !in parsed) &&
            (r.V1? ==> r.GetRPMRelease() == "" && r.GetRPMName() == Base(file) &&
                       r.GetRPMType() == Lookup(parsed, "Type") &&
                       r.GetRPMVersion() == Lookup(parsed, "Version")) &&
            (r.V2? ==> r.GetRPMRelease() ==
                       tools.unmarshalRpmInfo(Lookup(parsed, "RPM Info"), V2Initial(file, parsed)).release)
  {
  }

  /** What ListRPMFilesInfo returns: the records listed and the error, if
      any. */
  datatype InfoListing = InfoListing(info: seq<RpmInfo>, err: Option<string>)

  /** The loop of ListRPMFilesInfo over any record builder: the records of
      the files in order, up to the first file whose query fails. */
  function Collect(files: seq<string>, query: string -> Option<string>,
                   build: (string, string) -> RpmInfo): InfoListing
    decreases |files|
  {
    if files == [] then InfoListing([], None)
    else
      var prev := Collect(files[..|files| - 1], query, build);
      var file := files[|files| - 1];
      if prev.err.Some? then prev
      else match query(file)
        case None => InfoListing(prev.info, Some(QueryFailed))
        case Some(metaData) => InfoListing(prev.info + [build(file, metaData)], None)
  }

  /** ListRPMFilesInfo as a reference definition. */
  function FilesInfo(files: seq<string>, productVersion: string, tools: Tools): InfoListing
  {
    Collect(files, tools.queryInfo, (file, metaData) => RecordOf(file, metaData, productVersion, tools))
  }

  /** Once a prefix of the files has failed, the later files change nothing. */
  lemma {:induction false} FailurePersists(files: seq<string>, n: nat, query: string -> Option<string>,
                                           build: (string, string) -> RpmInfo)
    requires n <= |files|
    requires Collect(files[..n], query, build).err.Some?
    ensures Collect(files, query, build) == Collect(files[..n], query, build)
    decreases |files| - n
  {
    if n < |files| {
      var front := files[..|files| - 1];
      assert front[..n] == files[..n];
      FailurePersists(front, n, query, build);
    } else {
      assert files[..n] == files;
    }
  }

  /** repo.ListRPMFilesInfo. */
  method ListRPMFilesInfo(files: seq<string>, productVersion: string, tools: Tools)
    returns (info: seq<RpmInfo>, err: Option<string>)
    ensures InfoListing(info, err) == FilesInfo(files, productVersion, tools)
  {
    ghost var build := (file, metaData) => RecordOf(file, metaData, productVersion, tools);
    info := [];
    for i := 0 to |files|
      invariant Collect(files[..i], tools.queryInfo, build) == InfoListing(info, None)
    {
      var file := files[i];
      assert files[..i + 1][..i] == files[..i];
      var metaData := tools.queryInfo(file);
      if metaData.None? {
        FailurePersists(files, i + 1, tools.queryInfo, build);
        return info, Some(QueryFailed);
      }
      var r := BuildRecord(file, metaData.value, productVersion, tools);
      assert r == build(file, metaData.value);
      info := info + [r];
    }
    assert files[..|files|] == files;
    err := None;
  }

  /** The collected records are the built records of the first files, in
      input order, and every one of those files was queried successfully. */
  lemma {:induction false} CollectRecords(files: seq<string>, query: string -> Option<string>,
                                          build: (string, string) -> RpmInfo)
    ensures var r := Collect(files, query, build);
            |r.info| <= |files| &&
            forall k :: 0 <= k < |r.info| ==>
              query(files[k]).Some? && r.info[k] == build(files[k], query(files[k]).value)
    decreases |files|
  {
    if files != [] {
      var front := files[..|files| - 1];
      CollectRecords(front, query, build);
      CollectOutcome(front, query, build);
      assert forall k :: 0 <= k < |front| ==> front[k] == files[k];
    }
  }

  /** The collection succeeds, with one record per file, exactly when every
      query succeeds; otherwise it stops at the first file whose query
      fails. */
  lemma {:induction false} CollectOutcome(files: seq<string>, query: string -> Option<string>,
                                          build: (string, string) -> RpmInfo)
    ensures var r := Collect(files, query, build);
            (r.err.None? <==> forall k :: 0 <= k < |files| ==> query(files[k]).Some?) &&
            (r.err.None? ==> |r.info| == |files|) &&
            (r.err.Some? ==> r.err == Some(QueryFailed) && |r.info| < |files| &&
                             query(files[|r.info|]).None?)
    decreases |files|
  {
    if files != [] {
      var front := files[..|files| - 1];
      CollectOutcome(front, query, build);
      assert forall k :: 0 <= k < |front| ==> front[k] == files[k];
    }
  }

  /** ListRPMFilesInfo yields one record per file, in input order, each in
      the schema its metadata calls for; a failed query ends the listing
      with an error, keeping the records before it. */
  lemma FilesInfoShape(files: seq<string>, productVersion: string, tools: Tools)
    ensures var r := FilesInfo(files, productVersion, tools);
            |r.info| <= |files| &&
            (forall k :: 0 <= k < |r.info| ==>
               tools.queryInfo(files[k]).Some? &&
               r.info[k] == RecordOf(files[k], tools.queryInfo(files[k]).value, productVersion, tools)) &&
            (r.err.None? <==> forall k :: 0 <= k < |files| ==> tools.queryInfo(files[k]).Some?) &&
            (r.err.None? ==> |r.info| == |files|) &&
            (r.err.Some? ==> r.err == Some(QueryFailed) && tools.queryInfo(files[|r.info|]).None?)
  {
    var build := (file, metaData) => RecordOf(file, metaData, productVersion, tools);
    CollectRecords(files, tools.queryInfo, build);
    CollectOutcome(files, tools.queryInfo, build);
  }

  // ---------------------------------------------------------------------
  // listRepo

  /** The outcome of os.Stat on a path. */
  datatype StatResult = NotExist | StatFailed | Found(isDir: bool)

  /** A read-only view of the file system: os.Stat and ioutil.ReadDir (the
      entry names, or None on failure). */
  datatype FileSystem = FileSystem(stat: string -> StatResult, readDir: string -> Option<seq<string>>)

  /** The entries of the repository that are directories: the software
      types. */
  function TypeDirs(repo: string, entries: seq<string>, fs: FileSystem): seq<string>
    decreases |entries|
  {
    if entries == [] then []
    else
      var name := entries[|entries| - 1];
      var prev := TypeDirs(repo, entries[..|entries| - 1], fs);
      if fs.stat(repo + "/" + name) == Found(true) then prev + [name] else prev
  }

  /** Whether a file of a type directory is listed: its name ends in ".rpm"
      and is the requested name, when one is given. */
  predicate Listed(name: string, softwareName: string)
  {
    HasSuffix(name, ".rpm") && (softwareName == "" || name == softwareName)
  }

  /** The listed files among `names` in directory `dir`, as paths. */
  function RpmFilesIn(dir: string, names: seq<string>, softwareName: string): seq<string>
    decreases |names|
  {
    if names == [] then []
    else
      var name := names[|names| - 1];
      var prev := RpmFilesIn(dir, names[..|names| - 1], softwareName);
      if Listed(name, softwareName) then prev + [dir + "/" + name] else prev
  }

  /** The cleaned directory of a software type. */
  function TypeDir(repo: string, swType: string): string
  {
    Clean(repo + "/" + swType)
  }

  /** The names in a directory; a directory that cannot be read counts as
      empty. */
  function NamesIn(fs: FileSystem, dir: string): seq<string>
  {
    match fs.readDir(dir)
    case Some(names) => names
    case None => []
  }

  /** The listed files of the given types, type by type. */
  function FilesOfTypes(repo: string, types: seq<string>, softwareName: string, fs: FileSystem): seq<string>
    decreases |types|
  {
    if types == [] then []
    else
      var dir := TypeDir(repo, types[|types| - 1]);
      FilesOfTypes(repo, types[..|types| - 1], softwareName, fs) + RpmFilesIn(dir, NamesIn(fs, dir), softwareName)
  }

  /** What listRepo returns: the file paths and the error, if any. */
  datatype Listing = Listing(files: seq<string>, err: Option<string>)

  /** Go's map read on the command parameters. */
  function Param(params: map<string, string>, key: string): string
  {
    Lookup(params, key)
  }

  /** The software types listRepo looks at: the lowercased type when one is
      given, otherwise the directories of the repository. None means the
      listing ends early with the given result. */
  function SoftwareTypes(params: map<string, string>, fs: FileSystem): Result<seq<string>>
  {
    var swRepo := Param(params, "softwareRepo");
    var swType := ToLower(Param(params, "softwareType"));
    if swType != "" then Ok([swType])
    else if fs.stat(swRepo) == NotExist then Ok([])
    else match fs.readDir(swRepo)
      case None => Err(RepoUnreadable)
      case Some(dirs) => Ok(TypeDirs(swRepo, dirs, fs))
  }

  /** listRepo as a reference definition. */
  function RepoListing(params: map<string, string>, fs: FileSystem): Listing
  {
    match SoftwareTypes(params, fs)
    case Err(msg) => Listing([], Some(msg))
    case Ok(types) =>
      Listing(FilesOfTypes(Param(params, "softwareRepo"), types, Param(params, "softwareName"), fs), None)
  }

  /** The first loop of listRepo: the entries of the repository that are
      directories, in order. */
  method ListTypeDirs(repo: string, entries: seq<string>, fs: FileSystem) returns (types: seq<string>)
    ensures types == TypeDirs(repo, entries, fs)
  {
    types := [];
    for i := 0 to |entries|
      invariant types == TypeDirs(repo, entries[..i], fs)
    {
      var name := entries[i];
      assert entries[..i + 1][..i] == entries[..i];
      var fi := fs.stat(repo + "/" + name);
      if fi == Found(true) {
        types := types + [name];
      }
    }
    assert entries[..|entries|] == entries;
  }

  /** The inner loop of listRepo over one type directory: the paths of the
      listed files, in order. */
  method ListRpmFiles(dir: string, names: seq<string>, swName: string) returns (files: seq<string>)
    ensures files == RpmFilesIn(dir, names, swName)
  {
    files := [];
    for k := 0 to |names|
      invariant files == RpmFilesIn(dir, names[..k], swName)
    {
      var name := names[k];
      assert names[..k + 1][..k] == names[..k];
      if HasSuffix(name, ".rpm") && (swName == "" || name == swName) {
        files := files + [dir + "/" + name];
      }
    }
    assert names[..|names|] == names;
  }

  /** repo.listRepo. */
  method ListRepo(params: map<string, string>, fs: FileSystem) returns (files: seq<string>, err: Option<string>)
    ensures Listing(files, err) == RepoListing(params, fs)
  {
    var swName := Param(params, "softwareName");
    var swRepo := Param(params, "softwareRepo");
    var swType := ToLower(Param(params, "softwareType"));
    files := [];
    var swTypes: seq<string> := [];
    if swType != "" {
      swTypes := swTypes + [swType];
      assert swTypes == [swType];
    } else {
      if fs.stat(swRepo) == NotExist {
        return files, None;
      }
      var dirs := fs.readDir(swRepo);
      if dirs.None? {
        return files, Some(RepoUnreadable);
      }
      swTypes := ListTypeDirs(swRepo, dirs.value, fs);
    }
    assert SoftwareTypes(params, fs) == Ok(swTypes);
    for j := 0 to |swTypes|
      invariant files == FilesOfTypes(swRepo, swTypes[..j], swName, fs)
    {
      var curDir := Clean(swRepo + "/" + swTypes[j]);
      var tfiles := NamesIn(fs, curDir);
      var found := ListRpmFiles(curDir, tfiles, swName);
      files := files + found;
      assert swTypes[..j + 1][..j] == swTypes[..j];
    }
    assert swTypes[..|swTypes|] == swTypes;
    err := None;
  }

  /** With a type given, only the lowercased type's directory is listed. */
  lemma TypedListing(params: map<string, string>, fs: FileSystem)
    requires Param(params, "softwareType") != ""
    ensures var dir := TypeDir(Param(params, "softwareRepo"), ToLower(Param(params, "softwareType")));
            RepoListing(params, fs) == Listing(RpmFilesIn(dir, NamesIn(fs, dir), Param(params, "softwareName")), None)
  {
    var t := ToLower(Param(params, "softwareType"));
    assert |t| > 0;
    var repo := Param(params, "softwareRepo");
    var dir := TypeDir(repo, t);
    var files := RpmFilesIn(dir, NamesIn(fs, dir), Param(params, "softwareName"));
    assert SoftwareTypes(params, fs) == Ok([t]);
    assert [t][..0] == [];
    assert FilesOfTypes(repo, [t], Param(params, "softwareName"), fs) == [] + files;
    assert [] + files == files;
  }

  /** A missing repository with no type given lists nothing and is no
      error. */
  lemma MissingRepoListsNothing(params: map<string, string>, fs: FileSystem)
    requires Param(params, "softwareType") == ""
    requires fs.stat(Param(params, "softwareRepo")) == NotExist
    ensures RepoListing(params, fs) == Listing([], None)
  {
  }

  /** Every path of RpmFilesIn is a listed name inside the directory. */
  lemma {:induction false} RpmFilesInShape(dir: string, names: seq<string>, softwareName: string, f: string)
    requires f in RpmFilesIn(dir, names, softwareName)
    ensures exists name :: name in names && Listed(name, softwareName) && f == dir + "/" + name
    decreases |names|
  {
    var front := names[..|names| - 1];
    var name := names[|names| - 1];
    if f in RpmFilesIn(dir, front, softwareName) {
      RpmFilesInShape(dir, front, softwareName, f);
      var n :| n in front && Listed(n, softwareName) && f == dir + "/" + n;
      assert n in names;
    } else {
      assert f == dir + "/" + name;
    }
  }

  /** Every path of FilesOfTypes is a listed name inside one of the type
      directories. */
  lemma {:induction false} FilesOfTypesShape(repo: string, types: seq<string>, softwareName: string,
                                             fs: FileSystem, f: string)
    requires f in FilesOfTypes(repo, types, softwareName, fs)
    ensures exists t, name :: t in types && Listed(name, softwareName) && f == TypeDir(repo, t) + "/" + name
    decreases |types|
  {
    var front := types[..|types| - 1];
    var t := types[|types| - 1];
    var dir := TypeDir(repo, t);
    if f in FilesOfTypes(repo, front, softwareName, fs) {
      FilesOfTypesShape(repo, front, softwareName, fs, f);
      var t', n :| t' in front && Listed(n, softwareName) && f == TypeDir(repo, t') + "/" + n;
      assert t' in types;
    } else {
      RpmFilesInShape(dir, NamesIn(fs, dir), softwareName, f);
    }
  }

  /** A suffix of the last element is a suffix of the path. */
  lemma SuffixOfJoined(dir: string, name: string, suffix: string)
    requires HasSuffix(name, suffix)
    ensures HasSuffix(dir + "/" + name, suffix)
  {
    var s := dir + "/" + name;
    assert s[|s| - |suffix|..] == name[|name| - |suffix|..];
  }

  /** Every listed path ends in ".rpm", is the requested file when a name is
      given, and lies in the directory of the lowercased requested type when a
      type is given. */
  lemma ListedFiles(params: map<string, string>, fs: FileSystem, f: string)
    requires f in RepoListing(params, fs).files
    ensures HasSuffix(f, ".rpm")
    ensures exists t, name :: f == TypeDir(Param(params, "softwareRepo"), t) + "/" + name &&
                              Listed(name, Param(params, "softwareName")) &&
                              (Param(params, "softwareType") != "" ==> t == ToLower(Param(params, "softwareType")))
  {
    var repo := Param(params, "softwareRepo");
    var swName := Param(params, "softwareName");
    var types := SoftwareTypes(params, fs).value;
    FilesOfTypesShape(repo, types, swName, fs, f);
    var t, name :| t in types && Listed(name, swName) && f == TypeDir(repo, t) + "/" + name;
    SuffixOfJoined(TypeDir(repo, t), name, ".rpm");
    if Param(params, "softwareType") != "" {
      var lower := ToLower(Param(params, "softwareType"));
      assert |lower| > 0;
      assert types == [lower];
    }
  }

  // ---------------------------------------------------------------------
  // List

  /** repo.List as a reference definition: a failed repository listing is
      returned with no records, otherwise the records of the listed files
      for the requested product version. */
  function ListResult(params: map<string, string>, fs: FileSystem, tools: Tools): InfoListing
  {
    var listing := RepoListing(params, fs);
    if listing.err.Some? then InfoListing([], listing.err)
    else FilesInfo(listing.files, Param(params, "productVersion"), tools)
  }

  /** repo.List. */
  method List(params: map<string, string>, fs: FileSystem, tools: Tools)
    returns (info: seq<RpmInfo>, err: Option<string>)
    ensures InfoListing(info, err) == ListResult(params, fs, tools)
  {
    var productVersion := Param(params, "productVersion");
    var files;
    files, err := ListRepo(params, fs);
    if err.Some? {
      return [], err;
    }
    info, err := ListRPMFilesInfo(files, productVersion, tools);
  }
}
