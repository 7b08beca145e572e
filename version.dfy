/** validate/version: the wildcard version matcher and the selection of the
    V1 compatibility entry that applies to a product version. */
module Version {
  import opened Wrappers
  import opened GoStrings

  /** Estimated duration of an update, as strings. */
  datatype Estimate = Estimate(hours: string, minutes: string, seconds: string)

  /** One element of the V1 "VersionInfo" JSON array. */
  datatype V1VersionInfo = V1VersionInfo(version: string, reboot: string, estimate: Estimate)

  /** Go's zero value V1VersionInfo{}. */
  const ZeroInfo := V1VersionInfo("", "", Estimate("", "", ""))

  /** Why no compatibility entry was selected. */
  datatype VersionError =
    | DuplicateVersion    // two entries carry the same Version string
    | IncompatibleVersion // no entry applies to the product version
    | InvalidJson         // the VersionInfo text is not a JSON array of entries

  /** Outcome of a JSON or YAML decode, which the model takes as an input. */
  datatype Decoded<T> = Decoded(value: T) | DecodeError

  /** Segment i of a dot-split version, "0" past its end. */
  function Seg(parts: seq<string>, i: nat): string
  {
    if i < |parts| then parts[i] else "0"
  }

  function MaxLen(a: seq<string>, b: seq<string>): nat
  {
    if |a| < |b| then |b| else |a|
  }

  /** Segments lo up to hi (exclusive) are equal on both sides. */
  predicate Agree(product: seq<string>, pattern: seq<string>, lo: nat, hi: nat)
  {
    forall j :: lo <= j < hi ==> Seg(product, j) == Seg(pattern, j)
  }

  /** The first n segments agree, or a "*" in the pattern is reached while
      all earlier segments agree. */
  predicate MatchUpTo(product: seq<string>, pattern: seq<string>, n: nat)
  {
    Agree(product, pattern, 0, n) ||
    exists i :: 0 <= i < n && Seg(pattern, i) == "*" && Agree(product, pattern, 0, i)
  }

  /** What Compare decides: segment-wise string equality up to the longer of
      the two versions, with missing segments read as "0", where a "*"
      segment of the pattern accepts everything from there on. */
  predicate Matches(productVersion: string, version: string)
  {
    var product := Split(productVersion, '.');
    var pattern := Split(version, '.');
    MatchUpTo(product, pattern, MaxLen(product, pattern))
  }

  /** Compare's decision read segment by segment from index i: a "*" in the
      pattern accepts, the first unequal pair rejects. */
  function MatchFrom(product: seq<string>, pattern: seq<string>, i: nat, n: nat): bool
    decreases n - i
  {
    if i >= n then true
    else if Seg(pattern, i) == "*" then true
    else if Seg(product, i) != Seg(pattern, i) then false
    else MatchFrom(product, pattern, i + 1, n)
  }

  /** Compare's decision on two version strings, in the scanning form. */
  predicate Accepts(productVersion: string, version: string)
  {
    var product := Split(productVersion, '.');
    var pattern := Split(version, '.');
    MatchFrom(product, pattern, 0, MaxLen(product, pattern))
  }

  /** The scan from index i agrees with the declarative reading restricted to
      the segments from i on. */
  lemma {:induction false} MatchFromIff(product: seq<string>, pattern: seq<string>, i: nat, n: nat)
    requires i <= n
    ensures MatchFrom(product, pattern, i, n) <==>
            Agree(product, pattern, i, n) ||
            exists w :: i <= w < n && Seg(pattern, w) == "*" && Agree(product, pattern, i, w)
    decreases n - i
  {
    if i == n {
      assert Agree(product, pattern, i, n);
    } else if Seg(pattern, i) == "*" {
      assert Agree(product, pattern, i, i);
    } else if Seg(product, i) != Seg(pattern, i) {
      assert !Agree(product, pattern, i, n);
      forall w | i <= w < n && Seg(pattern, w) == "*"
        ensures !Agree(product, pattern, i, w)
      {
        assert i < w;
      }
    } else {
      MatchFromIff(product, pattern, i + 1, n);
      if Agree(product, pattern, i + 1, n) {
        assert Agree(product, pattern, i, n);
      }
      if exists w :: i + 1 <= w < n && Seg(pattern, w) == "*" && Agree(product, pattern, i + 1, w) {
        var w :| i + 1 <= w < n && Seg(pattern, w) == "*" && Agree(product, pattern, i + 1, w);
        assert Agree(product, pattern, i, w);
      }
      if exists w :: i <= w < n && Seg(pattern, w) == "*" && Agree(product, pattern, i, w) {
        var w :| i <= w < n && Seg(pattern, w) == "*" && Agree(product, pattern, i, w);
        assert Agree(product, pattern, i + 1, w);
      }
    }
  }

  /** The scanning form and the declarative form of Compare agree. */
  lemma AcceptsIsMatches(productVersion: string, version: string)
    ensures Accepts(productVersion, version) == Matches(productVersion, version)
  {
    var product := Split(productVersion, '.');
    var pattern := Split(version, '.');
    MatchFromIff(product, pattern, 0, MaxLen(product, pattern));
  }

  /** version.Compare. */
  method Compare(productVersion: string, version: string) returns (matched: bool)
    ensures matched == Matches(productVersion, version)
  {
    var productVersionNums := Split(productVersion, '.');
    var versionNums := Split(version, '.');
    var maxLen := |productVersionNums|;
    if |versionNums| > maxLen {
      maxLen := |versionNums|;
    }
    assert maxLen == MaxLen(productVersionNums, versionNums);
    AcceptsIsMatches(productVersion, version);
    for i := 0 to maxLen
      invariant MatchFrom(productVersionNums, versionNums, i, maxLen) ==
                MatchFrom(productVersionNums, versionNums, 0, maxLen)
    {
      var num1, num2 := "0", "0";
      if i < |productVersionNums| {
        num1 := productVersionNums[i];
      }
      if i < |versionNums| {
        num2 := versionNums[i];
      }
      if num2 == "*" {
        return true;
      }
      if num1 != num2 {
        return false;
      }
    }
    return true;
  }

  /** Past the end of both versions every segment is "0" on both sides, so
      looking further changes nothing. */
  lemma MatchUpToBeyond(product: seq<string>, pattern: seq<string>, n: nat, m: nat)
    requires MaxLen(product, pattern) <= n <= m
    ensures MatchUpTo(product, pattern, n) == MatchUpTo(product, pattern, m)
  {
    assert Agree(product, pattern, n, m);
    if Agree(product, pattern, 0, n) {
      assert Agree(product, pattern, 0, m);
    }
    if MatchUpTo(product, pattern, m) && !Agree(product, pattern, 0, m) {
      var i :| 0 <= i < m && Seg(pattern, i) == "*" && Agree(product, pattern, 0, i);
      assert i < n;
    }
  }

  /** Every version matches itself. */
  lemma CompareReflexive(v: string)
    ensures Matches(v, v)
  {
  }

  /** Appending ".0" to a version appends a "0" segment. */
  lemma SplitPaddedWithZero(s: string)
    ensures Split(s + ".0", '.') == Split(s, '.') + ["0"]
  {
    assert s + ".0" == s + ['.'] + "0";
    SplitConcat(s, '.', "0");
    SplitWithoutSep("0", '.');
  }

  /** Versions whose segments read the same everywhere are matched alike. */
  lemma MatchUpToSameSegs(product: seq<string>, pattern: seq<string>,
                          product': seq<string>, pattern': seq<string>, n: nat)
    requires forall j :: Seg(product', j) == Seg(product, j)
    requires forall j :: Seg(pattern', j) == Seg(pattern, j)
    ensures MatchUpTo(product', pattern', n) == MatchUpTo(product, pattern, n)
  {
    assert forall i :: Agree(product', pattern', 0, i) == Agree(product, pattern, 0, i);
  }

  /** A "0" segment appended to either side changes no segment. */
  lemma SegPaddedWithZero(parts: seq<string>)
    ensures forall j :: Seg(parts + ["0"], j) == Seg(parts, j)
  {
  }

  /** A missing trailing segment on the product side reads as "0". */
  lemma ProductPaddedWithZero(productVersion: string, version: string)
    ensures Matches(productVersion + ".0", version) == Matches(productVersion, version)
  {
    SplitPaddedWithZero(productVersion);
    var p := Split(productVersion, '.');
    var v := Split(version, '.');
    SegPaddedWithZero(p);
    MatchUpToSameSegs(p, v, p + ["0"], v, MaxLen(p + ["0"], v));
    MatchUpToBeyond(p, v, MaxLen(p, v), MaxLen(p + ["0"], v));
  }

  /** A missing trailing segment on the pattern side reads as "0". */
  lemma PatternPaddedWithZero(productVersion: string, version: string)
    ensures Matches(productVersion, version + ".0") == Matches(productVersion, version)
  {
    SplitPaddedWithZero(version);
    var p := Split(productVersion, '.');
    var v := Split(version, '.');
    SegPaddedWithZero(v);
    MatchUpToSameSegs(p, v, p, v + ["0"], MaxLen(p, v + ["0"]));
    MatchUpToBeyond(p, v, MaxLen(p, v), MaxLen(p, v + ["0"]));
  }

  /** A "*" segment accepts whatever follows it on the product side. */
  lemma WildcardAcceptsAnyTail(prefix: string, tail: string)
    ensures Matches(prefix + "." + tail, prefix + ".*")
  {
    SplitConcat(prefix, '.', tail);
    SplitConcat(prefix, '.', "*");
    assert prefix + "." + tail == prefix + ['.'] + tail;
    assert prefix + ".*" == prefix + ['.'] + "*";
    SplitWithoutSep("*", '.');
    var pre := Split(prefix, '.');
    var product := pre + Split(tail, '.');
    var pattern := pre + ["*"];
    var i := |pre|;
    assert Seg(pattern, i) == "*";
    assert Agree(product, pattern, 0, i);
  }

  /** A lone "*" accepts every product version. */
  lemma StarAcceptsAll(productVersion: string)
    ensures Matches(productVersion, "*")
  {
    SplitWithoutSep("*", '.');
    assert Seg(["*"], 0) == "*";
  }

  /** The first unequal pair of segments rejects, when no "*" in the pattern
      comes before it or at it: segments compare as strings. */
  lemma MismatchRejects(productVersion: string, version: string, i: nat)
    requires i < MaxLen(Split(productVersion, '.'), Split(version, '.'))
    requires Seg(Split(productVersion, '.'), i) != Seg(Split(version, '.'), i)
    requires forall j :: 0 <= j <= i ==> Seg(Split(version, '.'), j) != "*"
    ensures !Matches(productVersion, version)
  {
    var product := Split(productVersion, '.');
    var pattern := Split(version, '.');
    var n := MaxLen(product, pattern);
    assert !Agree(product, pattern, 0, n);
    forall w | 0 <= w < n && Seg(pattern, w) == "*"
      ensures !Agree(product, pattern, 0, w)
    {
      assert i < w;
    }
  }

  /** A "*" on the product side is an ordinary segment: it matches only a
      "*" or the segment itself. */
  lemma ProductStarIsLiteral(version: string)
    requires '.' !in version && version != "*"
    ensures !Matches("*", version)
  {
    SplitWithoutSep("*", '.');
    SplitWithoutSep(version, '.');
    assert Seg(["*"], 0) == "*";
    assert Seg([version], 0) == version;
    MismatchRejects("*", version, 0);
  }

  /** The Version strings of the entries, in order. */
  function Versions(entries: seq<V1VersionInfo>): seq<string>
  {
    seq(|entries|, i requires 0 <= i < |entries| => entries[i].version)
  }

  /** Among the first n versions, one repeats an earlier one. */
  predicate HasDuplicate(vs: seq<string>, n: nat)
    requires n <= |vs|
    decreases n
  {
    n > 0 && (vs[n - 1] in vs[..n - 1] || HasDuplicate(vs, n - 1))
  }

  /** HasDuplicate holds exactly when two of the first n versions are equal. */
  lemma {:induction false} HasDuplicateIff(vs: seq<string>, n: nat)
    requires n <= |vs|
    ensures HasDuplicate(vs, n) <==> exists a, b :: 0 <= a < b < n && vs[a] == vs[b]
    decreases n
  {
    if n > 0 {
      HasDuplicateIff(vs, n - 1);
      if vs[n - 1] in vs[..n - 1] {
        var a :| 0 <= a < n - 1 && vs[..n - 1][a] == vs[n - 1];
        assert vs[a] == vs[n - 1];
      }
      if exists a, b :: 0 <= a < b < n && vs[a] == vs[b] {
        var a, b :| 0 <= a < b < n && vs[a] == vs[b];
        if b == n - 1 {
          assert vs[..n - 1][a] == vs[a];
        } else {
          assert 0 <= a < b < n - 1 && vs[a] == vs[b];
        }
      }
    }
  }

  /** A duplicate among the first m versions is one among the first n. */
  lemma {:induction false} HasDuplicateGrows(vs: seq<string>, m: nat, n: nat)
    requires m <= n <= |vs|
    requires HasDuplicate(vs, m)
    ensures HasDuplicate(vs, n)
    decreases n
  {
    if m < n {
      HasDuplicateGrows(vs, m, n - 1);
    }
  }

  /** First index from i on whose Version is exactly `productVersion`. */
  function FirstExactFrom(productVersion: string, entries: seq<V1VersionInfo>, i: nat): (r: Option<nat>)
    ensures r.Some? ==> i <= r.value < |entries|
    decreases |entries| - i
  {
    if i >= |entries| then None
    else if entries[i].version == productVersion then Some(i)
    else FirstExactFrom(productVersion, entries, i + 1)
  }

  /** FirstExactFrom finds the first exact match from i on, or reports that
      there is none. */
  lemma {:induction false} FirstExactFromSpec(productVersion: string, entries: seq<V1VersionInfo>, i: nat)
    ensures var r := FirstExactFrom(productVersion, entries, i);
            (r.Some? ==> entries[r.value].version == productVersion &&
                         forall k :: i <= k < r.value ==> entries[k].version != productVersion) &&
            (r.None? ==> forall k :: i <= k < |entries| ==> entries[k].version != productVersion)
    decreases |entries| - i
  {
    if i < |entries| && entries[i].version != productVersion {
      FirstExactFromSpec(productVersion, entries, i + 1);
    }
  }

  /** Whether Compare accepts each entry's Version. */
  function AcceptFlags(productVersion: string, entries: seq<V1VersionInfo>): seq<bool>
  {
    seq(|entries|, i requires 0 <= i < |entries| => Matches(productVersion, entries[i].version))
  }

  /** Last index below n whose flag is set. */
  function LastSetBelow(flags: seq<bool>, n: nat): (r: Option<nat>)
    requires n <= |flags|
    ensures r.Some? ==> r.value < n
    decreases n
  {
    if n == 0 then None
    else if flags[n - 1] then Some(n - 1)
    else LastSetBelow(flags, n - 1)
  }

  /** LastSetBelow finds a set flag with no set flag after it below n, or
      reports that none below n is set. */
  lemma {:induction false} LastSetBelowSpec(flags: seq<bool>, n: nat)
    requires n <= |flags|
    ensures var r := LastSetBelow(flags, n);
            (r.Some? ==> flags[r.value] && forall k :: r.value < k < n ==> !flags[k]) &&
            (r.None? ==> forall k :: 0 <= k < n ==> !flags[k])
    decreases n
  {
    if n > 0 && !flags[n - 1] {
      LastSetBelowSpec(flags, n - 1);
    }
  }

  /** What validateVersion returns: the entry and the error, if any. */
  datatype VersionLookup = VersionLookup(info: V1VersionInfo, err: Option<VersionError>)

  /** validateVersion as a reference definition: duplicates are refused
      before any matching, then an exact match wins, then the last entry
      that Compare accepts, unless that entry is the zero value. */
  function SelectCompatible(productVersion: string, entries: seq<V1VersionInfo>): VersionLookup
  {
    var vs := Versions(entries);
    if HasDuplicate(vs, |vs|) then VersionLookup(ZeroInfo, Some(DuplicateVersion))
    else match FirstExactFrom(productVersion, entries, 0)
      case Some(i) => VersionLookup(entries[i], None)
      case None =>
        match LastSetBelow(AcceptFlags(productVersion, entries), |entries|)
          case None => VersionLookup(ZeroInfo, Some(IncompatibleVersion))
          case Some(k) =>
            if entries[k] == ZeroInfo then VersionLookup(ZeroInfo, Some(IncompatibleVersion))
            else VersionLookup(entries[k], None)
  }

  /** The entry an optional index points at, or the zero entry. */
  function EntryAt(entries: seq<V1VersionInfo>, r: Option<nat>): V1VersionInfo
  {
    match r
    case Some(k) => if k < |entries| then entries[k] else ZeroInfo
    case None => ZeroInfo
  }

  /** The first loop of version.validateVersion: the Version strings seen so
      far are kept in a map, and the scan stops at the first repeat. */
  method FindDuplicateVersion(versionInfoArray: seq<V1VersionInfo>) returns (duplicate: bool)
    ensures duplicate == HasDuplicate(Versions(versionInfoArray), |versionInfoArray|)
  {
    ghost var vs := Versions(versionInfoArray);
    var versionSet: map<string, bool> := map[];
    for i := 0 to |versionInfoArray|
      invariant forall v :: v in versionSet <==> v in vs[..i]
      invariant forall v :: v in versionSet ==> versionSet[v]
      invariant !HasDuplicate(vs, i)
    {
      var versionInfo := versionInfoArray[i];
      assert vs[i] == versionInfo.version;
      if versionInfo.version in versionSet && versionSet[versionInfo.version] {
        assert HasDuplicate(vs, i + 1);
        HasDuplicateGrows(vs, i + 1, |vs|);
        return true;
      }
      versionSet := versionSet[versionInfo.version := true];
      assert vs[..i + 1] == vs[..i] + [vs[i]];
    }
    return false;
  }

  /** version.validateVersion: duplicates first, then the exact match or the
      last entry Compare accepts. */
  method ValidateVersion(productVersion: string, versionInfoArray: seq<V1VersionInfo>)
    returns (info: V1VersionInfo, err: Option<VersionError>)
    ensures VersionLookup(info, err) == SelectCompatible(productVersion, versionInfoArray)
  {
    info := ZeroInfo;
    var duplicate := FindDuplicateVersion(versionInfoArray);
    if duplicate {
      return info, Some(DuplicateVersion);
    }
    ghost var flags := AcceptFlags(productVersion, versionInfoArray);
    for i := 0 to |versionInfoArray|
      invariant FirstExactFrom(productVersion, versionInfoArray, 0) ==
                FirstExactFrom(productVersion, versionInfoArray, i)
      invariant info == EntryAt(versionInfoArray, LastSetBelow(flags, i))
    {
      var versionInfo := versionInfoArray[i];
      if productVersion == versionInfo.version {
        return versionInfo, None;
      }
      var accepted := Compare(productVersion, versionInfo.version);
      assert accepted == flags[i];
      if accepted {
        info := versionInfo;
      }
    }
    if info == ZeroInfo {
      return ZeroInfo, Some(IncompatibleVersion);
    }
    return info, None;
  }

  /** GetCompatibileVersionInfo as a reference definition: a decode failure
      yields the zero entry and no matching is attempted. */
  function CompatibleVersionInfo(productVersion: string, decoded: Decoded<seq<V1VersionInfo>>): VersionLookup
  {
    match decoded
    case DecodeError => VersionLookup(ZeroInfo, Some(InvalidJson))
    case Decoded(entries) => SelectCompatible(productVersion, entries)
  }

  /** version.GetCompatibileVersionInfo; json.Unmarshal is the `decode` input. */
  method GetCompatibileVersionInfo(productVersion: string, versionInfoString: string,
                                   decode: string -> Decoded<seq<V1VersionInfo>>)
    returns (info: V1VersionInfo, err: Option<VersionError>)
    ensures VersionLookup(info, err) == CompatibleVersionInfo(productVersion, decode(versionInfoString))
  {
    info := ZeroInfo;
    var decoded := decode(versionInfoString);
    if decoded.DecodeError? {
      return info, Some(InvalidJson);
    }
    info, err := ValidateVersion(productVersion, decoded.value);
  }

  /** A failed lookup always carries the zero entry. */
  lemma ErrorCarriesZero(productVersion: string, decoded: Decoded<seq<V1VersionInfo>>)
    ensures CompatibleVersionInfo(productVersion, decoded).err.Some? ==>
            CompatibleVersionInfo(productVersion, decoded).info == ZeroInfo
  {
  }

  /** No two entries carry the same Version string. */
  predicate DistinctVersions(entries: seq<V1VersionInfo>)
  {
    forall a, b :: 0 <= a < b < |entries| ==> entries[a].version != entries[b].version
  }

  /** HasDuplicate on the Version strings is the negation of DistinctVersions. */
  lemma DistinctIffNoDuplicate(entries: seq<V1VersionInfo>)
    ensures HasDuplicate(Versions(entries), |entries|) <==> !DistinctVersions(entries)
  {
    var vs := Versions(entries);
    HasDuplicateIff(vs, |vs|);
    if !DistinctVersions(entries) {
      var a, b :| 0 <= a < b < |entries| && entries[a].version == entries[b].version;
      assert vs[a] == vs[b];
    }
  }

  /** Duplicate Version strings are refused whatever the product version. */
  lemma DuplicatesRefused(productVersion: string, entries: seq<V1VersionInfo>)
    requires !DistinctVersions(entries)
    ensures SelectCompatible(productVersion, entries) == VersionLookup(ZeroInfo, Some(DuplicateVersion))
  {
    DistinctIffNoDuplicate(entries);
  }

  /** Without duplicates, the entry whose Version is the product version is
      selected. */
  lemma ExactMatchSelected(productVersion: string, entries: seq<V1VersionInfo>, i: nat)
    requires i < |entries| && entries[i].version == productVersion
    requires DistinctVersions(entries)
    ensures SelectCompatible(productVersion, entries) == VersionLookup(entries[i], None)
  {
    DistinctIffNoDuplicate(entries);
    FirstExactFromSpec(productVersion, entries, 0);
    var f := FirstExactFrom(productVersion, entries, 0);
    assert f.Some?;
    assert f.value == i;
  }

  /** The matching pass ends at the last entry Compare accepts. */
  lemma LastAcceptedIndex(productVersion: string, entries: seq<V1VersionInfo>, k: nat)
    requires k < |entries| && Matches(productVersion, entries[k].version)
    requires forall j :: k < j < |entries| ==> !Matches(productVersion, entries[j].version)
    ensures LastSetBelow(AcceptFlags(productVersion, entries), |entries|) == Some(k)
  {
    var flags := AcceptFlags(productVersion, entries);
    assert flags[k];
    assert forall j :: k < j < |entries| ==> !flags[j];
    LastFlagged(flags, k);
  }

  /** The last set flag is the one LastSetBelow finds. */
  lemma LastFlagged(flags: seq<bool>, k: nat)
    requires k < |flags| && flags[k]
    requires forall j :: k < j < |flags| ==> !flags[j]
    ensures LastSetBelow(flags, |flags|) == Some(k)
  {
    LastSetBelowSpec(flags, |flags|);
  }

  /** Without duplicates or an exact match, the last entry Compare accepts is
      selected, unless it is the zero entry. */
  lemma LastAcceptedSelected(productVersion: string, entries: seq<V1VersionInfo>, k: nat)
    requires k < |entries| && Matches(productVersion, entries[k].version)
    requires forall j :: k < j < |entries| ==> !Matches(productVersion, entries[j].version)
    requires forall j :: 0 <= j < |entries| ==> entries[j].version != productVersion
    requires DistinctVersions(entries)
    requires entries[k] != ZeroInfo
    ensures SelectCompatible(productVersion, entries) == VersionLookup(entries[k], None)
  {
    DistinctIffNoDuplicate(entries);
    FirstExactFromSpec(productVersion, entries, 0);
    LastAcceptedIndex(productVersion, entries, k);
  }

  /** An accepted entry with every field empty is indistinguishable from no
      match and is refused like one. */
  lemma ZeroEntryRefused(productVersion: string, entries: seq<V1VersionInfo>, k: nat)
    requires k < |entries| && entries[k] == ZeroInfo && Matches(productVersion, "")
    requires forall j :: k < j < |entries| ==> !Matches(productVersion, entries[j].version)
    requires forall j :: 0 <= j < |entries| ==> entries[j].version != productVersion
    requires DistinctVersions(entries)
    ensures SelectCompatible(productVersion, entries) == VersionLookup(ZeroInfo, Some(IncompatibleVersion))
  {
    DistinctIffNoDuplicate(entries);
    FirstExactFromSpec(productVersion, entries, 0);
    LastAcceptedIndex(productVersion, entries, k);
  }

  /** A successful lookup returns one of the entries, and Compare accepts its
      Version. */
  lemma SelectedIsAccepted(productVersion: string, entries: seq<V1VersionInfo>)
    ensures var r := SelectCompatible(productVersion, entries);
            r.err.None? ==> r.info in entries && Matches(productVersion, r.info.version)
  {
    FirstExactFromSpec(productVersion, entries, 0);
    var flags := AcceptFlags(productVersion, entries);
    LastSetBelowSpec(flags, |flags|);
    CompareReflexive(productVersion);
    var r := SelectCompatible(productVersion, entries);
    if r.err.None? && FirstExactFrom(productVersion, entries, 0).None? {
      var k := LastSetBelow(flags, |flags|).value;
      assert r.info == entries[k];
      assert flags[k];
    }
  }

  /** When Compare accepts no entry, the lookup fails. */
  lemma NothingAcceptedFails(productVersion: string, entries: seq<V1VersionInfo>)
    requires forall j :: 0 <= j < |entries| ==> !Matches(productVersion, entries[j].version)
    ensures SelectCompatible(productVersion, entries).err.Some?
  {
    CompareReflexive(productVersion);
    FirstExactFromSpec(productVersion, entries, 0);
    var flags := AcceptFlags(productVersion, entries);
    assert forall j :: 0 <= j < |entries| ==> !flags[j];
    LastSetBelowSpec(flags, |flags|);
  }
}
