# Software update manager: a verified model of its core

The software update manager keeps update packages (RPM files) in a typed
repository, `<repository>/<type>/<file>.rpm`. It lists them with details read from
each package's metadata. It decides which entry of a package's compatibility
list applies to the running product version. It also drives the update
workflow: the commit, install, reboot and rollback operations run named
plugin types in order, and one command runs a script shipped inside a package.

The model has one module per piece of the core:

- `Version` (validate/version/version.go): `Compare`, the segment-wise
  version match where `"*"` is a wildcard and missing segments read as
  `"0"`. Also `validateVersion`, which refuses duplicate versions and then
  picks the exact match or else the last accepted entry, and
  `GetCompatibileVersionInfo`.
- `Rpm` (utils/rpm/rpm.go): `ParseMetaData`, the fold of `rpm -qi` output
  into a map. Key lines are recognised by the regular expression
  `^\w+(\s*\w*)*\s*:`, given here as a character scanner proved equal to a
  declarative reading of the pattern. Continuation lines append to the
  current key.
- `RepoList` (repo/list.go): the V1 and V2 package records and their
  getters, the two matching passes of V2, `ListRPMFilesInfo`, `listRepo`
  and `List`.
- `Update` (update/update.go): the `Status` record as a class, `Commit`,
  `Install`, `Reboot`, `Rollback`, the final status of
  `ScanCommandOptions`, and `runCmdFromRPM`.
- `RepoRemove` (repo/remove.go): `Remove`.
- Supporting modules:
  - `GoStrings`: `strings.Split`, `Join`, `TrimSpace`, `ToLower` and
    `HasSuffix` with Go's behaviour.
  - `FilePath`: `filepath.Clean` and `filepath.Base`.
  - `Host`: the machine the workflow acts on.
  - `Wrappers`: `Option` and `Result`.

Every loop of the source is a method with a loop. Each such method is proved
equal to a reference function, and the properties the code promises are
lemmas about those functions.

The outer world is an input of the model:
- The filesystem is a snapshot with `stat` and `readDir`.
- The rpm query output and the YAML and JSON decoders are functions passed in
  (`Tools`).
- Plugin runs, `systemctl reboot`, `rpm` installs and removals, package
  scripts and `RemoveAll` go through a `Host.Machine` or a `RepoRemove.Disk`.
  Their outcomes are fixed functions, and each object records the effects in
  the order they happen.

Two behaviours of `ParseMetaData` are worth stating plainly:
- Lines that come before any key line are not discarded. They accumulate
  under the empty key, so parsing empty metadata gives `{"": ""}`
  (`Rpm.EmptyMetaData`, `Rpm.LeadingLinesUnderEmptyKey`).
- Each continuation line is trimmed at both ends and appended to the current
  value with no separator, so the continuation lines `line one` and
  `line two` give `"line oneline two"` (`Rpm.ContinuationAppends`).

## Model

| member | source | states |
|---|---|---|
| Version.Compare | validate/version/version.go:25-54 | the loop's answer is `Matches`: segments agree pairwise up to the longer version, with a missing segment read as "0", or a "*" in the pattern is reached while all earlier segments agree |
| Version.MatchFromIff | validate/version/version.go:38-53 | the early-return scan from segment i accepts exactly when the segments from i on agree or a "*" is reached after agreeing segments |
| Version.AcceptsIsMatches | validate/version/version.go:29-53 | the scanning form of Compare and the declarative `Matches` decide alike for all inputs |
| Version.MatchUpToBeyond | validate/version/version.go:32-45 | looking past the longer version changes nothing, since both sides read "0" there |
| Version.CompareReflexive | validate/version/version.go:38-53 | every version matches itself |
| Version.ProductPaddedWithZero | validate/version/version.go:39-42 | appending ".0" to the product version never changes the answer |
| Version.PatternPaddedWithZero | validate/version/version.go:43-45 | appending ".0" to the pattern never changes the answer |
| Version.WildcardAcceptsAnyTail | validate/version/version.go:46-48 | `p.*` accepts `p.` followed by anything |
| Version.StarAcceptsAll | validate/version/version.go:46-48 | the pattern "*" accepts every product version |
| Version.MismatchRejects | validate/version/version.go:46-51 | the first unequal pair of segments, with no "*" in the pattern at or before it, rejects; segments compare as strings |
| Version.ProductStarIsLiteral | validate/version/version.go:46-51 | a "*" product version is an ordinary segment and is rejected by any other single-segment pattern |
| Version.HasDuplicateIff | validate/version/version.go:78-90 | the set-based scan finds a duplicate exactly when two of the versions are equal |
| Version.HasDuplicateGrows | validate/version/version.go:81-90 | a duplicate among a prefix of the list remains one for the whole list |
| Version.FindDuplicateVersion | validate/version/version.go:78-90 | the first loop reports a duplicate exactly when `HasDuplicate` holds for the whole list |
| Version.FirstExactFromSpec | validate/version/version.go:92-95 | the exact-match search finds the first entry whose version is the product version, or reports that none is |
| Version.LastSetBelowSpec | validate/version/version.go:92-99 | the overwriting loop keeps the last accepted entry, with none accepted after it, or reports that none is accepted |
| Version.ValidateVersion | validate/version/version.go:73-111 | the result is `SelectCompatible`: duplicates refused first, then the first exact entry, else the last accepted entry unless it is the zero entry |
| Version.GetCompatibileVersionInfo | validate/version/version.go:115-132 | a decode failure returns the zero entry and an error; otherwise the result is that of validateVersion |
| Version.ErrorCarriesZero | validate/version/version.go:101-124 | every failing lookup, whether from decoding, a duplicate or no match, carries the zero entry |
| Version.DistinctIffNoDuplicate | validate/version/version.go:78-90 | the duplicate scan fails exactly when two entries share a Version string |
| Version.DuplicatesRefused | validate/version/version.go:81-90 | duplicate versions are refused whatever the product version, before any matching |
| Version.ExactMatchSelected | validate/version/version.go:92-95 | without duplicates, the entry equal to the product version is returned with no error |
| Version.LastAcceptedSelected | validate/version/version.go:92-110 | without duplicates or an exact entry, the last entry Compare accepts is returned, if it is not the zero entry |
| Version.LastAcceptedIndex | validate/version/version.go:92-99 | the overwriting loop ends at the last entry Compare accepts |
| Version.ZeroEntryRefused | validate/version/version.go:101-108 | an accepted entry with every field empty is refused as incompatible, as if nothing had matched |
| Version.SelectedIsAccepted | validate/version/version.go:92-110 | a successful lookup returns one of the entries, and Compare accepts its version |
| Version.NothingAcceptedFails | validate/version/version.go:96-108 | when Compare accepts no entry, the lookup fails |
| Rpm.ColonAfterIff | utils/rpm/rpm.go:79-81 | the character scan after the first character accepts exactly when word or space characters lead up to a ':' |
| Rpm.KeyLineIff | utils/rpm/rpm.go:79-81 | a line is a key line exactly when it starts with a word character and only word and space characters come before some ':' |
| Rpm.KeyLineHasColon | utils/rpm/rpm.go:87-89 | every key line has a colon, so splitting it yields at least two fields |
| Rpm.ParseMetaData | utils/rpm/rpm.go:72-98 | the loop's map is the reference fold `Parse` over the lines split at "\n" |
| Rpm.StepKeepsKey | utils/rpm/rpm.go:87-96 | after any line, the current key is present in the map |
| Rpm.KeyAlwaysPresent | utils/rpm/rpm.go:76-97 | after any metadata, the current key is present in the map |
| Rpm.ParseAppendLine | utils/rpm/rpm.go:80-97 | parsing one more line is one more step of the fold on the earlier result |
| Rpm.KeyLineSetsValue | utils/rpm/rpm.go:87-93 | a key line sets its trimmed key to the trimmed text after the first colon, later colons kept, replacing any earlier value; an empty rest gives "" |
| Rpm.KeyLineFields | utils/rpm/rpm.go:88-92 | splitting a key line at ':' gives the text before the first colon, and the other fields joined back give the rest |
| Rpm.ContinuationAppends | utils/rpm/rpm.go:94-96 | a continuation line appends its trimmed text to the current key's value, with no separator |
| Rpm.StepBlank | utils/rpm/rpm.go:94-96 | a blank line leaves the state unchanged |
| Rpm.BlankLineKeepsState | utils/rpm/rpm.go:80-96 | appending a blank line to the metadata changes nothing |
| Rpm.TrailingNewlineIgnored | utils/rpm/rpm.go:80-96 | a trailing newline changes nothing |
| Rpm.EmptyMetaData | utils/rpm/rpm.go:76-97 | empty metadata parses to `{"": ""}` |
| Rpm.ContinuationUnderEmptyKey | utils/rpm/rpm.go:94-96 | a continuation line under the empty key appends to the empty key's value |
| Rpm.LeadingLinesUnderEmptyKey | utils/rpm/rpm.go:77-96 | lines before any key line accumulate, trimmed and concatenated, under the empty key |
| Rpm.NoKeyLinesUnderEmptyKey | utils/rpm/rpm.go:77-96 | metadata with no key line is one entry under the empty key |
| Rpm.KeyFromLinesGrows | utils/rpm/rpm.go:80-97 | a key that comes from the earlier lines still comes from the lines |
| Rpm.KeysComeFromKeyLines | utils/rpm/rpm.go:72-98 | every key of the result, and the current key, is "" or the trimmed text before the first colon of a key line |
| Rpm.KeysOfMetaData | utils/rpm/rpm.go:72-98 | every key of a parsed map is "" or the key of one of its key lines |
| RepoList.BuildV1Record | repo/list.go:281-307 | the V1 branch builds `V1RecordOf` |
| RepoList.V1CopiesMetadata | repo/list.go:281-290 | name and file name are the file's base name; description, summary, type, URL and version are copied from the map |
| RepoList.V1WithoutProductVersion | repo/list.go:289-294 | without a product version, reboot is "n/a", the estimate is 0/0/0 and nothing is matched |
| RepoList.V1WithProductVersion | repo/list.go:294-307 | with a product version, reboot, estimate and matched version come from the lookup; when it fails they are empty and the record is still produced |
| RepoList.LastFlaggedPicked | repo/list.go:347-359 | a matching pass ends with the last flagged entry |
| RepoList.NothingFlaggedKept | repo/list.go:347-359 | a matching pass with nothing flagged leaves what it started with |
| RepoList.SelectV2Details | repo/list.go:345-360 | the two loops compute `V2Selection`: the last exact entry, and only when none, the last entry Compare accepts |
| RepoList.V2LastExactSelected | repo/list.go:347-352 | the last entry exactly equal to the product version wins; repeated versions are not refused |
| RepoList.V2LastAcceptedSelected | repo/list.go:353-360 | without an exact entry, the last entry Compare accepts wins |
| RepoList.V2NothingMatched | repo/list.go:345-360 | when no entry matches, the record keeps its decoded details and stays unmatched |
| RepoList.BuildV2Record | repo/list.go:313-361 | the V2 branch builds `V2RecordOf`: metadata fields, then the RPM Info overlay, then the matching passes |
| RepoList.V2WithoutProductVersion | repo/list.go:331 | without a product version a V2 record is unmatched |
| RepoList.BuildRecord | repo/list.go:278-364 | one pass of the loop builds the record `RecordOf` of the parsed metadata |
| RepoList.RecordSchema | repo/list.go:280-313 | a record is V1 exactly when the format-version key is absent; V1 records have an empty release and the base name as name; a V2 release is the decoded Release field |
| RepoList.FailurePersists | repo/list.go:273-277 | once a file's query has failed, later files change nothing |
| RepoList.ListRPMFilesInfo | repo/list.go:268-368 | the loop's records and error are `FilesInfo` of the files |
| RepoList.CollectRecords | repo/list.go:273-365 | the collected records are the records of the first files, in input order, each queried successfully |
| RepoList.CollectOutcome | repo/list.go:273-277 | the listing succeeds, with one record per file, exactly when every query succeeds; otherwise it stops at the first failing file with "Failed to get software details." |
| RepoList.FilesInfoShape | repo/list.go:268-368 | one record per file, in input order, each in the schema its metadata calls for; a failed query ends the listing with an error |
| RepoList.ListRepo | repo/list.go:191-265 | the loops compute `RepoListing`: the lowercased type or the repository's directories, then the ".rpm" files matching the name filter |
| RepoList.ListTypeDirs | repo/list.go:218-232 | the loop keeps, in order, the repository entries that stat as directories |
| RepoList.ListRpmFiles | repo/list.go:244-260 | the loop keeps, in order, the paths of the names that end in ".rpm" and equal the requested name when one is given |
| RepoList.TypedListing | repo/list.go:197-205 | with a type given, only the lowercased type's directory is listed |
| RepoList.MissingRepoListsNothing | repo/list.go:207-211 | a missing repository with no type lists nothing and reports no error |
| RepoList.RpmFilesInShape | repo/list.go:244-260 | every listed file of a directory has a listed name of that directory |
| RepoList.FilesOfTypesShape | repo/list.go:234-262 | every listed file lies in the directory of one of the types |
| RepoList.ListedFiles | repo/list.go:195-262 | every listed file ends in ".rpm", has the requested name when one is given, and lies in the lowercased type's directory when a type is given |
| RepoList.List | repo/list.go:168-189 | List is listRepo followed by ListRPMFilesInfo, and a listing error is returned with no records |
| Host.Machine.RunPM | update/update.go:237-252 | one plugin run: its outcome is the oracle's and one plugin effect is recorded |
| Host.Machine.Reboot | update/update.go:222-232 | `systemctl reboot`: its outcome is the oracle's and the reboot is recorded |
| Host.Machine.IsInstalled | utils/rpm/rpm.go:37-51 | `rpm -q` answers from the oracle and records nothing |
| Host.Machine.Install | utils/rpm/rpm.go:54-68 | `rpm -Uvh` answers from the oracle and records the install |
| Host.Machine.Uninstall | utils/rpm/rpm.go:102-116 | `rpm -e` records the removal; its outcome is never looked at |
| Host.Machine.RunPackageScript | update/update.go:172-178 | the `/bin/sh` run answers from the oracle and records the script |
| Update.Status.constructor | update/update.go:30-42 | a fresh Status has empty buckets and empty status and error text |
| Update.FirstFailure | update/update.go:52-60 | the returned index is at most the number of plugin types, and a plugin type at it fails |
| Update.FirstFailureSpec | update/update.go:52-60 | every plugin type before the first failure succeeds |
| Update.TwoStages | update/update.go:50-61 | with two plugin types, the second runs only when the first succeeds, and both succeed exactly when both runs succeed |
| Update.Commit | update/update.go:45-62 | commit-precheck then commit: one Commit entry per attempted plugin type, false at the first failure, nothing else changed |
| Update.Install | update/update.go:65-96 | preinstall then install; a failure sets "Failed" and appends one rollback entry and runs it whatever its outcome; success sets "Succeeded" |
| Update.Reboot | update/update.go:195-235 | a prereboot failure sets "Failed" and the error text, appends and runs one rollback and never reboots; a failed reboot sets only the error text |
| Update.Rollback | update/update.go:256-274 | rollback-precheck then prerollback; "Succeeded" only when both succeed, status untouched otherwise |
| Update.RunUpdate | update/update.go:429-451 | the operation named by the command runs on a fresh Status. Its bucket and the machine trace are those the operation states, and the other buckets stay empty. Any other command runs nothing. Success sets "Succeeded"; failure sets "Failed" and the error text "Failed to <cmd> the update." |
| Update.CheckPackage | update/update.go:104-126 | name, then type, then an existing package file under the repository, defaulted to the standard one when not given; the refusal is `Guard` |
| Update.ListPlan | update/update.go:135-149 | a listing error is returned; otherwise exactly one record is required, and it is the one used |
| Update.PrepareCmd | update/update.go:104-149 | as written: after the checks, the listing gets the caller's parameters with the name and the type set, the repository parameter left as given; the result is `PrepareAsWritten` |
| Update.PrepareCmdCorrected | update/update.go:104-149 | the same checks, the listing given the repository that was checked; the result is `Prepare` |
| Update.RunAction | update/update.go:151-190 | for install: an installed package is removed first, a failed install stops; then the script at the fixed path runs, and a failed install script removes the package again |
| Update.RunCmdFromRpm | update/update.go:99-191 | as written: the error and the effects are `CmdResult` and `CmdEffects`, built on `PrepareAsWritten`; nothing happens on the machine unless every check passes |
| Update.RunCmdFromRpmCorrected | update/update.go:99-191 | the corrected command: the error and the effects are `CorrectedCmdResult` and `CorrectedCmdEffects`, built on `Prepare` |
| Update.GuardOrder | update/update.go:104-109 | an empty name is reported first, then an empty type, and a refused command has no effect |
| Update.DefaultRepository | update/update.go:110-126 | without a repository parameter, the package file is looked for in the default repository |
| Update.ExactlyOneRecord | update/update.go:135-149 | the script runs only for a listing of exactly one record, and that record's script runs |
| Update.InstallSequence | update/update.go:155-184 | for install: removal of an installed package, then the install; a failed install stops there; a failed script ends with a removal |
| Update.OtherActionsOnlyRunScript | update/update.go:155-185 | any other action only runs the package's script, and fails exactly when the script fails |
| Update.V1ScriptPath | update/update.go:166-169 | a V1 package has no release, so its script directory ends in "-" |
| Update.ListingUsesCheckedRepo | update/update.go:110-135 | with the corrected parameters, every listed file is the requested file in the type's directory of the repository that was checked |
| Update.AsWrittenListsUnderRoot | update/update.go:110-135 | as written, with no repository parameter, every listed file lies in the type's directory under "/" |
| Update.AsWrittenMissesDefaultRepo | update/update.go:110-148 | as written, a package present in the default repository is refused with "Failed to get details of … software." when the type's directory under "/" cannot be read, and nothing happens on the machine |
| Update.OneFileListed | repo/list.go:244-260 | a type directory holding just the requested file lists that file |
| Update.OneRecordListed | repo/list.go:273-309 | one file whose query succeeds gives exactly one record and no error |
| Update.CorrectedFindsDefaultRepo | update/update.go:110-149 | with the listing using the checked repository, a package present in the default repository passes the listing check |
| Update.CorrectedRunsDefaultRepoAction | update/update.go:110-191 | in that case the corrected command runs its action on the package file of the default repository |
| RepoRemove.Disk.RemoveAll | repo/remove.go:71 | the removal answers from the oracle and records the path |
| RepoRemove.Remove | repo/remove.go:45-83 | the error and the removed paths are `RemoveResult` and `RemoveAttempts` |
| RepoRemove.EmptyRepoRefused | repo/remove.go:49-53 | an empty repository path is refused first, whatever the name and type, and nothing is removed |
| RepoRemove.NameNeedsType | repo/remove.go:54-56 | a name without a type is refused next, and nothing is removed |
| RepoRemove.RepoOnlyRemovesRepo | repo/remove.go:58-60 | with only a repository given, the target is the cleaned repository itself |
| RepoRemove.TargetTypeLowercased | repo/remove.go:58-60 | the target's type directory is lowercased, however the type is written |
| RepoRemove.MissingTargetNotRemoved | repo/remove.go:62-69 | a target that does not exist gives the not-found error and nothing is removed |
| RepoRemove.ExistingTargetRemoved | repo/remove.go:71-82 | an existing target is removed once, and Remove succeeds exactly when the removal does |
| RepoRemove.AtMostOneRemoval | repo/remove.go:45-83 | at most one path is ever removed, and only after every check passed |
| GoStrings.Split | validate/version/version.go:30-31 | `strings.Split` with a one-character separator returns at least one piece |
| GoStrings.SplitPartsLackSep | utils/rpm/rpm.go:88 | no piece of a split contains the separator |
| GoStrings.JoinSplit | utils/rpm/rpm.go:88-92 | joining the pieces of a split gives back the string |
| GoStrings.SplitJoin | utils/rpm/rpm.go:88-92 | splitting a join of separator-free pieces gives back the pieces |
| GoStrings.SplitConcat | utils/rpm/rpm.go:80 | splitting at a separator splits the two sides independently |
| GoStrings.SplitAtFirst | utils/rpm/rpm.go:88-92 | the first piece is the text before the first separator and the other pieces joined are the text after it |
| GoStrings.TrimSpace | utils/rpm/rpm.go:89-95 | `strings.TrimSpace` gives a result no longer than its input, with no white space at either end, and "" for an input of white space only |
| GoStrings.TrimSpaceKeepsCore | utils/rpm/rpm.go:89-95 | trimming a core that has non-space ends between white space gives back the core |
| GoStrings.TrimSpaceIdempotent | utils/rpm/rpm.go:89-95 | trimming twice is trimming once |
| GoStrings.ToLower | repo/list.go:197 | `strings.ToLower` keeps the length, folds each letter and leaves no upper-case letter |
| GoStrings.ToLowerIdempotent | repo/remove.go:59 | lowercasing twice is lowercasing once |
| FilePath.Clean | repo/remove.go:58-60 | `filepath.Clean` never returns "" and keeps a rooted path rooted |
| FilePath.CleanIgnoresEmptyTail | repo/remove.go:58-60 | appending "/" + "" + "/" + "" to a path leaves its cleaned form unchanged |
| FilePath.Base | repo/list.go:283-284 | `filepath.Base` is never empty and contains no "/" unless it is "/" |
| FilePath.BaseOfChild | repo/list.go:283-284 | the base name of dir/name is name |

## Left out

- Logging, `logutil.PrintNLog*` output and `output.Write`. Each error is
  modelled as the text it carries.
- Command-line parsing, usage text and the dispatch in
  `ScanCommandOptions`. Only the final status branch (`RunUpdate`) and the
  guards of `runCmdFromRPM` are modelled. Which branch to take
  (`-filename` given or not) is the caller's choice.
- The `rpm` tool, `pm.Run`, `config.SetPluginsLibrary`, `/bin/sh`,
  `systemctl` and `osutils.OsRemoveAll` are not modelled as programs. Their
  outcomes are inputs fixed when the machine is created, so repeating a call
  gives the same outcome. The output file and format passed to a package
  script are dropped.
- `rpm.GetRPMPackageInfo` is the `queryInfo` input. `json.Unmarshal` and
  `yaml.Unmarshal` are the decoder inputs of `Tools`. The RPM Info overlay
  onto the partly filled V2 record is a function of the text and that
  record. YAML decoding of the compatibility list is a function of the text
  alone, and its errors are ignored, as in the code.
- `parseDate`: its result is never stored in a record, and `time.Parse` is
  outside the model.
- The error path of `regexp.MatchString`: both patterns are constants that
  compile.
- The error texts of `validateVersion` carry the product version. The model
  keeps only the error kind (`VersionError`), because the only caller does
  not look at the text.
- The `uint` estimated-minutes fields of V2 details are `nat`. The decoder
  input produces them, and nothing computes with them.
- `filepath.FromSlash` is the identity, as on Linux.
- `strings.ToLower` folds ASCII letters only.
- Strings are sequences of characters, where Go strings are sequences of
  bytes. So `strings.Split` and `len` count characters here, and `rpm -qi`
  output that is not valid UTF-8 cannot be given to the model.
- `ioutil.ReadDir` returns the entries of a directory sorted by name. The
  model's `readDir` may return them in any order. So the model does not
  promise that listed types and files come in name order, only that they
  come in the order `readDir` gives.
- The update of the caller's map by `runCmdFromRPM` is not modelled. It
  writes the name and the type into `params`, but `ScanCommandOptions`
  builds a fresh map for each call and does not read it afterwards.
- `runCmdFromRPM` checks the package path with the type as given, but the
  listing lowercases the type. The model keeps both, as written.
- Concurrent use of the repository is not modelled: the filesystem is one
  snapshot, taken before the listing.
- validate/validate.go, repo/add.go and cmd/sum/sum.go are not part of this
  model.

## Findings

| source | as written | input that shows it | evidently intended | confidence | as-written member | corrected member |
|---|---|---|---|---|---|---|
| update/update.go:110-135 | `runCmdFromRPM` defaults an empty repository to `/system/software/repository/` only in its local variable. It then lists with the caller's `params`, whose `softwareRepo` is still "", so `listRepo` looks in `/<type>` | the `install` command with `-filename x.rpm -type update` and no `-repo` flag (its default is ""), where `/system/software/repository/update/x.rpm` exists and `/update` does not: the path check passes and the listing is empty, so the command fails with "Failed to get details of x.rpm software." | the listing uses the repository whose package file was just checked | medium, not executed | Update.AsWrittenMissesDefaultRepo | Update.CorrectedFindsDefaultRepo |

`Update.RunCmdFromRpm` models the code as written, through
`Update.PrepareAsWritten`, and `Update.AsWrittenListsUnderRoot` shows where it
lists. `Update.RunCmdFromRpmCorrected` is the corrected command. It uses
`Update.Prepare`, which passes the defaulted repository to the listing, and
`Update.ListingUsesCheckedRepo` proves that every file it lists is the
requested file in the checked repository.
