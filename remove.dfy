/** repo/remove.go: removing a package, or a whole type directory, from the
    software repository. A few checks on the arguments come first; the target
    is removed only when it exists. */
module RepoRemove {
  import opened Wrappers
  import opened GoStrings
  import opened FilePath
  import opened RepoList

  function RepoMissing(swType: string, swName: string): string
  {
    "Unable to remove " + swType + " software " + swName + ". Failed to determine software repository."
  }

  const TypeRequired := "Invalid usage. Software type must be specified when software name is specified."

  function RemoveNotFound(swType: string, swName: string): string
  {
    "Unable to remove " + swType + " software " + swName + ". Specified software not found."
  }

  function RemoveFailed(swType: string, swName: string): string
  {
    "Failed to remove " + swType + " software " + swName + "."
  }

  /** What gets removed: the cleaned path repo/lower(type)/name. */
  function RemoveTarget(swName: string, swType: string, swRepo: string): string
  {
    Clean(swRepo + "/" + ToLower(swType) + "/" + swName)
  }

  /** The checks on the arguments, in order: a repository, then a type
      whenever a name is given. */
  function RemoveGuard(swName: string, swType: string, swRepo: string): Option<string>
  {
    if swRepo == "" then Some(RepoMissing(swType, swName))
    else if swName != "" && swType == "" then Some(TypeRequired)
    else None
  }

  /** The outcome of Remove: the error it returns, if any. */
  function RemoveResult(swName: string, swType: string, swRepo: string, fs: FileSystem,
                        removeSucceeds: string -> bool): Option<string>
  {
    match RemoveGuard(swName, swType, swRepo)
    case Some(msg) => Some(msg)
    case None =>
      var target := RemoveTarget(swName, swType, swRepo);
      if fs.stat(target).NotExist? || fs.stat(target).StatFailed? then Some(RemoveNotFound(swType, swName))
      else if !removeSucceeds(target) then Some(RemoveFailed(swType, swName))
      else None
  }

  /** The paths Remove passes to the recursive removal. */
  function RemoveAttempts(swName: string, swType: string, swRepo: string, fs: FileSystem): seq<string>
  {
    var target := RemoveTarget(swName, swType, swRepo);
    if RemoveGuard(swName, swType, swRepo).None? && fs.stat(target).Found? then [target] else []
  }

  /** The recursive removal of paths: whether each succeeds, and the paths
      removed so far. */
  class Disk {
    const removeSucceeds: string -> bool
    var removals: seq<string>

    constructor(removeSucceeds: string -> bool)
      ensures this.removeSucceeds == removeSucceeds && removals == []
    {
      this.removeSucceeds := removeSucceeds;
      removals := [];
    }

    /** osutils.OsRemoveAll. */
    method RemoveAll(path: string) returns (ok: bool)
      modifies this
      ensures ok == removeSucceeds(path)
      ensures removals == old(removals) + [path]
    {
      ok := removeSucceeds(path);
      removals := removals + [path];
    }
  }

  /** repo.Remove. */
  method Remove(swName: string, swType: string, swRepo: string, fs: FileSystem, disk: Disk)
    returns (err: Option<string>)
    modifies disk
    ensures err == RemoveResult(swName, swType, swRepo, fs, disk.removeSucceeds)
    ensures disk.removals == old(disk.removals) + RemoveAttempts(swName, swType, swRepo, fs)
  {
    if swRepo == "" {
      return Some(RepoMissing(swType, swName));
    }
    if swName != "" && swType == "" {
      return Some(TypeRequired);
    }
    var absSwPath := Clean(swRepo + "/" + ToLower(swType) + "/" + swName);
    if !fs.stat(absSwPath).Found? {
      return Some(RemoveNotFound(swType, swName));
    }
    var removed := disk.RemoveAll(absSwPath);
    if !removed {
      return Some(RemoveFailed(swType, swName));
    }
    return None;
  }

  /** An empty repository path is refused first, whatever the name and the
      type, and nothing is removed. */
  lemma EmptyRepoRefused(swName: string, swType: string, fs: FileSystem, removeSucceeds: string -> bool)
    ensures RemoveResult(swName, swType, "", fs, removeSucceeds) == Some(RepoMissing(swType, swName))
    ensures RemoveAttempts(swName, swType, "", fs) == []
  {
  }

  /** A name without a type is refused next, and nothing is removed. */
  lemma NameNeedsType(swName: string, swRepo: string, fs: FileSystem, removeSucceeds: string -> bool)
    requires swRepo != "" && swName != ""
    ensures RemoveResult(swName, "", swRepo, fs, removeSucceeds) == Some(TypeRequired)
    ensures RemoveAttempts(swName, "", swRepo, fs) == []
  {
  }

  /** With only a repository given, the target is the repository itself. */
  lemma RepoOnlyRemovesRepo(swRepo: string)
    requires swRepo != ""
    ensures RemoveTarget("", "", swRepo) == Clean(swRepo)
  {
    assert ToLower("") == "";
    CleanIgnoresEmptyTail(swRepo);
  }

  /** The type is lowercased in the target, however it is written. */
  lemma TargetTypeLowercased(swName: string, swType: string, swRepo: string)
    ensures RemoveTarget(swName, swType, swRepo) == RemoveTarget(swName, ToLower(swType), swRepo)
  {
    ToLowerIdempotent(swType);
  }

  /** A target that does not exist gives the not-found error and nothing is
      removed. */
  lemma MissingTargetNotRemoved(swName: string, swType: string, swRepo: string, fs: FileSystem,
                                removeSucceeds: string -> bool)
    requires RemoveGuard(swName, swType, swRepo).None?
    requires !fs.stat(RemoveTarget(swName, swType, swRepo)).Found?
    ensures RemoveResult(swName, swType, swRepo, fs, removeSucceeds) == Some(RemoveNotFound(swType, swName))
    ensures RemoveAttempts(swName, swType, swRepo, fs) == []
  {
  }

  /** Once the checks pass and the target exists, it is removed exactly once,
      and the result is success exactly when the removal succeeds. */
  lemma ExistingTargetRemoved(swName: string, swType: string, swRepo: string, fs: FileSystem,
                              removeSucceeds: string -> bool)
    requires RemoveGuard(swName, swType, swRepo).None?
    requires fs.stat(RemoveTarget(swName, swType, swRepo)).Found?
    ensures RemoveAttempts(swName, swType, swRepo, fs) == [RemoveTarget(swName, swType, swRepo)]
    ensures RemoveResult(swName, swType, swRepo, fs, removeSucceeds).None? <==>
            removeSucceeds(RemoveTarget(swName, swType, swRepo))
    ensures !removeSucceeds(RemoveTarget(swName, swType, swRepo)) ==>
            RemoveResult(swName, swType, swRepo, fs, removeSucceeds) == Some(RemoveFailed(swType, swName))
  {
  }

  /** At most one path is ever removed, and only after every check passed. */
  lemma AtMostOneRemoval(swName: string, swType: string, swRepo: string, fs: FileSystem,
                         removeSucceeds: string -> bool)
    ensures |RemoveAttempts(swName, swType, swRepo, fs)| <= 1
    ensures |RemoveAttempts(swName, swType, swRepo, fs)| == 1 ==>
            RemoveGuard(swName, swType, swRepo).None? &&
            RemoveResult(swName, swType, swRepo, fs, removeSucceeds) != Some(RemoveNotFound(swType, swName))
  {
  }
}
