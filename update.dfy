/** update/update.go: the update workflow. Each operation runs its plugin
    types in order through the plugin manager, records one run status per
    attempted plugin type in its bucket of the Status, and stops at the first
    failure; installing from the repository runs the package's own script. */
module Update {
  import opened Wrappers
  import opened GoStrings
  import opened FilePath
  import opened Host
  import opened RepoList

  /** Where RPM contents are extracted. */
  const RPMInstallRepoPath := "/system/upgrade/repository/"

  const StatusFail := "Failed"
  const StatusOk := "Succeeded"

  /** The plugin types each operation runs, in order. */
  const CommitStages := ["commit-precheck", "commit"]
  const InstallStages := ["preinstall", "install"]
  const RebootStages := ["prereboot"]
  const RollbackStages := ["rollback-precheck", "prerollback"]

  /** The compensating plugin type. */
  const RollbackStage := "rollback"

  const RebootFailed := "Failed to reboot the system."

  /** The run status of an update: one bucket of plugin runs per operation,
      the overall status and the error text. */
  class Status {
    var install: seq<RunStatus>
    var reboot: seq<RunStatus>
    var rollback: seq<RunStatus>
    var commit: seq<RunStatus>
    var status: string
    var stdOutErr: string

    /** The zero Status. */
    constructor()
      ensures install == [] && reboot == [] && rollback == [] && commit == []
      ensures status == "" && stdOutErr == ""
    {
      install := [];
      reboot := [];
      rollback := [];
      commit := [];
      status := "";
      stdOutErr := "";
    }
  }

  // ---------------------------------------------------------------------
  // Running plugin types in order

  /** Index of the first plugin type from i on whose run fails, or the
      number of plugin types when none does. */
  function FirstFailure(stages: seq<string>, library: string, run: (string, string) -> PluginRun,
                        i: nat): (f: nat)
    requires i <= |stages|
    ensures i <= f <= |stages|
    ensures f < |stages| ==> run(stages[f], library).err.Some?
    decreases |stages| - i
  {
    if i == |stages| then i
    else if run(stages[i], library).err.Some? then i
    else FirstFailure(stages, library, run, i + 1)
  }

  /** Every plugin type before the first failure succeeds. */
  lemma {:induction false} FirstFailureSpec(stages: seq<string>, library: string,
                                            run: (string, string) -> PluginRun, i: nat)
    requires i <= |stages|
    ensures forall k :: i <= k < FirstFailure(stages, library, run, i) ==> run(stages[k], library).err.None?
    decreases |stages| - i
  {
    if i < |stages| && run(stages[i], library).err.None? {
      FirstFailureSpec(stages, library, run, i + 1);
    }
  }

  /** Every plugin type runs successfully. */
  predicate AllSucceed(stages: seq<string>, library: string, run: (string, string) -> PluginRun)
  {
    FirstFailure(stages, library, run, 0) == |stages|
  }

  /** The number of plugin types that run: up to and including the first one
      that fails. */
  function Attempted(stages: seq<string>, library: string, run: (string, string) -> PluginRun): nat
  {
    var f := FirstFailure(stages, library, run, 0);
    if f < |stages| then f + 1 else f
  }

  /** The run statuses of the first n plugin types. */
  function Statuses(stages: seq<string>, library: string, run: (string, string) -> PluginRun,
                    n: nat): seq<RunStatus>
    requires n <= |stages|
  {
    seq(n, k requires 0 <= k < n => run(stages[k], library).status)
  }

  /** The plugin runs of the first n plugin types. */
  function PluginEffects(stages: seq<string>, library: string, n: nat): seq<Effect>
    requires n <= |stages|
  {
    seq(n, k requires 0 <= k < n => RunPlugins(stages[k], library))
  }

  /** With two plugin types, the second runs only when the first succeeds, and
      both succeed exactly when both runs succeed. */
  lemma TwoStages(stages: seq<string>, library: string, run: (string, string) -> PluginRun)
    requires |stages| == 2
    ensures Attempted(stages, library, run) == if run(stages[0], library).err.Some? then 1 else 2
    ensures AllSucceed(stages, library, run) <==>
            run(stages[0], library).err.None? && run(stages[1], library).err.None?
  {
    assert FirstFailure(stages, library, run, 2) == 2;
    assert FirstFailure(stages, library, run, 1) == if run(stages[1], library).err.Some? then 1 else 2;
  }

  /** The first n entries and one more. */
  lemma StatusesGrow(stages: seq<string>, library: string, run: (string, string) -> PluginRun, n: nat)
    requires n < |stages|
    ensures Statuses(stages, library, run, n + 1) ==
            Statuses(stages, library, run, n) + [run(stages[n], library).status]
    ensures PluginEffects(stages, library, n + 1) ==
            PluginEffects(stages, library, n) + [RunPlugins(stages[n], library)]
  {
  }

  // ---------------------------------------------------------------------
  // The four operations

  /** update.Commit: commit-precheck, then commit. */
  method Commit(result: Status, library: string, host: Machine) returns (ok: bool)
    modifies result, host
    ensures var run := host.oracle.runPlugins;
            var n := Attempted(CommitStages, library, run);
            ok == AllSucceed(CommitStages, library, run) &&
            result.commit == old(result.commit) + Statuses(CommitStages, library, run, n) &&
            host.trace == old(host.trace) + PluginEffects(CommitStages, library, n)
    ensures result.install == old(result.install) && result.reboot == old(result.reboot) &&
            result.rollback == old(result.rollback) && result.status == old(result.status) &&
            result.stdOutErr == old(result.stdOutErr)
  {
    var pluginTypes := CommitStages;
    ghost var run := host.oracle.runPlugins;
    for i := 0 to |pluginTypes|
      invariant FirstFailure(pluginTypes, library, run, 0) == FirstFailure(pluginTypes, library, run, i)
      invariant result.commit == old(result.commit) + Statuses(pluginTypes, library, run, i)
      invariant host.trace == old(host.trace) + PluginEffects(pluginTypes, library, i)
      invariant result.install == old(result.install) && result.reboot == old(result.reboot) &&
                result.rollback == old(result.rollback) && result.status == old(result.status) &&
                result.stdOutErr == old(result.stdOutErr)
    {
      var pt := pluginTypes[i];
      var r := host.RunPM(pt, library);
      result.commit := result.commit + [r.status];
      StatusesGrow(pluginTypes, library, run, i);
      if r.err.Some? {
        return false;
      }
    }
    return true;
  }

  /** update.Install: preinstall, then install; on a failure the status is
      "Failed" and the rollback plugins run once, whatever their outcome. */
  method Install(result: Status, library: string, host: Machine) returns (ok: bool)
    modifies result, host
    ensures var run := host.oracle.runPlugins;
            var n := Attempted(InstallStages, library, run);
            var failed := !AllSucceed(InstallStages, library, run);
            ok == !failed &&
            result.install == old(result.install) + Statuses(InstallStages, library, run, n) +
                              (if failed then [run(RollbackStage, library).status] else []) &&
            result.status == (if failed then StatusFail else StatusOk) &&
            host.trace == old(host.trace) + PluginEffects(InstallStages, library, n) +
                          (if failed then [RunPlugins(RollbackStage, library)] else [])
    ensures result.commit == old(result.commit) && result.reboot == old(result.reboot) &&
            result.rollback == old(result.rollback) && result.stdOutErr == old(result.stdOutErr)
  {
    var pluginTypes := InstallStages;
    ghost var run := host.oracle.runPlugins;
    var err: Option<string> := None;
    var i := 0;
    while i < |pluginTypes|
      invariant 0 <= i <= |pluginTypes|
      invariant FirstFailure(pluginTypes, library, run, 0) == FirstFailure(pluginTypes, library, run, i)
      invariant result.install == old(result.install) + Statuses(pluginTypes, library, run, i)
      invariant host.trace == old(host.trace) + PluginEffects(pluginTypes, library, i)
      invariant result.status == old(result.status)
      invariant result.commit == old(result.commit) && result.reboot == old(result.reboot) &&
                result.rollback == old(result.rollback) && result.stdOutErr == old(result.stdOutErr)
    {
      var r := host.RunPM(pluginTypes[i], library);
      result.install := result.install + [r.status];
      StatusesGrow(pluginTypes, library, run, i);
      if r.err.Some? {
        err := r.err;
        result.status := StatusFail;
        break;
      }
      i := i + 1;
    }

    if err.Some? {
      var discarded := host.RunPM(RollbackStage, library);
      result.install := result.install + [discarded.status];
      return false;
    }

    result.status := StatusOk;
    return true;
  }

  /** update.Reboot: prereboot, then `systemctl reboot`. A prereboot failure
      sets the status and the error text and runs the rollback plugins
      instead of rebooting; a failed reboot only sets the error text. */
  method Reboot(result: Status, library: string, host: Machine) returns (ok: bool)
    modifies result, host
    ensures var run := host.oracle.runPlugins;
            var n := Attempted(RebootStages, library, run);
            var f := FirstFailure(RebootStages, library, run, 0);
            var failed := f < |RebootStages|;
            ok == (!failed && host.oracle.rebootSucceeds) &&
            result.reboot == old(result.reboot) + Statuses(RebootStages, library, run, n) +
                             (if failed then [run(RollbackStage, library).status] else []) &&
            host.trace == old(host.trace) + PluginEffects(RebootStages, library, n) +
                          (if failed then [RunPlugins(RollbackStage, library)] else [SystemReboot]) &&
            result.status == (if failed then StatusFail else old(result.status)) &&
            result.stdOutErr == (if failed then run(RebootStages[f], library).err.value
                                 else if host.oracle.rebootSucceeds then old(result.stdOutErr)
                                 else RebootFailed)
    ensures result.install == old(result.install) && result.commit == old(result.commit) &&
            result.rollback == old(result.rollback)
  {
    var pluginTypes := RebootStages;
    ghost var run := host.oracle.runPlugins;
    for i := 0 to |pluginTypes|
      invariant FirstFailure(pluginTypes, library, run, 0) == FirstFailure(pluginTypes, library, run, i)
      invariant result.reboot == old(result.reboot) + Statuses(pluginTypes, library, run, i)
      invariant host.trace == old(host.trace) + PluginEffects(pluginTypes, library, i)
      invariant result.status == old(result.status) && result.stdOutErr == old(result.stdOutErr)
      invariant result.install == old(result.install) && result.commit == old(result.commit) &&
                result.rollback == old(result.rollback)
    {
      var r := host.RunPM(pluginTypes[i], library);
      result.reboot := result.reboot + [r.status];
      StatusesGrow(pluginTypes, library, run, i);
      if r.err.Some? {
        result.status := StatusFail;
        result.stdOutErr := r.err.value;
        var discarded := host.RunPM(RollbackStage, library);
        result.reboot := result.reboot + [discarded.status];
        return false;
      }
    }

    var rebooted := host.Reboot();
    if !rebooted {
      result.stdOutErr := RebootFailed;
      return false;
    }
    return true;
  }

  /** update.Rollback: rollback-precheck, then prerollback; the status becomes
      "Succeeded" only when both succeed and is left alone otherwise. */
  method Rollback(result: Status, library: string, host: Machine) returns (ok: bool)
    modifies result, host
    ensures var run := host.oracle.runPlugins;
            var n := Attempted(RollbackStages, library, run);
            ok == AllSucceed(RollbackStages, library, run) &&
            result.rollback == old(result.rollback) + Statuses(RollbackStages, library, run, n) &&
            host.trace == old(host.trace) + PluginEffects(RollbackStages, library, n) &&
            result.status == (if ok then StatusOk else old(result.status))
    ensures result.install == old(result.install) && result.reboot == old(result.reboot) &&
            result.commit == old(result.commit) && result.stdOutErr == old(result.stdOutErr)
  {
    var pluginTypes := RollbackStages;
    ghost var run := host.oracle.runPlugins;
    for i := 0 to |pluginTypes|
      invariant FirstFailure(pluginTypes, library, run, 0) == FirstFailure(pluginTypes, library, run, i)
      invariant result.rollback == old(result.rollback) + Statuses(pluginTypes, library, run, i)
      invariant host.trace == old(host.trace) + PluginEffects(pluginTypes, library, i)
      invariant result.status == old(result.status)
      invariant result.install == old(result.install) && result.reboot == old(result.reboot) &&
                result.commit == old(result.commit) && result.stdOutErr == old(result.stdOutErr)
    {
      var r := host.RunPM(pluginTypes[i], library);
      result.rollback := result.rollback + [r.status];
      StatusesGrow(pluginTypes, library, run, i);
      if r.err.Some? {
        return false;
      }
    }
    result.status := StatusOk;
    return true;
  }

  /** Whether an update command succeeds; a command other than the four
      operations never does. */
  predicate Succeeds(cmd: string, library: string, oracle: Oracle)
  {
    if cmd == "commit" then AllSucceed(CommitStages, library, oracle.runPlugins)
    else if cmd == "install" then AllSucceed(InstallStages, library, oracle.runPlugins)
    else if cmd == "reboot" then AllSucceed(RebootStages, library, oracle.runPlugins) && oracle.rebootSucceeds
    else if cmd == "rollback" then AllSucceed(RollbackStages, library, oracle.runPlugins)
    else false
  }

  /** The error ScanCommandOptions reports for a failed operation. */
  function UpdateFailed(cmd: string): string
  {
    "Failed to " + cmd + " the update."
  }

  /** The operation branch of update.ScanCommandOptions: a fresh Status, the
      operation named by `cmd`, and the final status and error. */
  method RunUpdate(cmd: string, library: string, host: Machine) returns (status: Status, err: Option<string>)
    modifies host
    ensures fresh(status)
    ensures var ok := Succeeds(cmd, library, host.oracle);
            status.status == (if ok then StatusOk else StatusFail) &&
            err == (if ok then None else Some(UpdateFailed(cmd))) &&
            status.stdOutErr == (if ok then "" else UpdateFailed(cmd))
    ensures var run := host.oracle.runPlugins;
            var n := Attempted(CommitStages, library, run);
            cmd == "commit" ==>
              status.commit == Statuses(CommitStages, library, run, n) &&
              status.install == [] && status.reboot == [] && status.rollback == [] &&
              host.trace == old(host.trace) + PluginEffects(CommitStages, library, n)
    ensures var run := host.oracle.runPlugins;
            var n := Attempted(InstallStages, library, run);
            var failed := !AllSucceed(InstallStages, library, run);
            cmd == "install" ==>
              status.install == Statuses(InstallStages, library, run, n) +
                                (if failed then [run(RollbackStage, library).status] else []) &&
              status.commit == [] && status.reboot == [] && status.rollback == [] &&
              host.trace == old(host.trace) + PluginEffects(InstallStages, library, n) +
                            (if failed then [RunPlugins(RollbackStage, library)] else [])
    ensures var run := host.oracle.runPlugins;
            var n := Attempted(RebootStages, library, run);
            var failed := FirstFailure(RebootStages, library, run, 0) < |RebootStages|;
            cmd == "reboot" ==>
              status.reboot == Statuses(RebootStages, library, run, n) +
                               (if failed then [run(RollbackStage, library).status] else []) &&
              status.commit == [] && status.install == [] && status.rollback == [] &&
              host.trace == old(host.trace) + PluginEffects(RebootStages, library, n) +
                            (if failed then [RunPlugins(RollbackStage, library)] else [SystemReboot])
    ensures var run := host.oracle.runPlugins;
            var n := Attempted(RollbackStages, library, run);
            cmd == "rollback" ==>
              status.rollback == Statuses(RollbackStages, library, run, n) &&
              status.commit == [] && status.install == [] && status.reboot == [] &&
              host.trace == old(host.trace) + PluginEffects(RollbackStages, library, n)
    ensures cmd !in {"commit", "install", "reboot", "rollback"} ==>
              status.commit == [] && status.install == [] && status.reboot == [] && status.rollback == [] &&
              host.trace == old(host.trace)
  {
    status := new Status();
    var ret := false;
    if cmd == "commit" {
      ret := Commit(status, library, host);
    } else if cmd == "install" {
      ret := Install(status, library, host);
    } else if cmd == "reboot" {
      ret := Reboot(status, library, host);
    } else if cmd == "rollback" {
      ret := Rollback(status, library, host);
    }
    if ret {
      status.status := StatusOk;
      err := None;
    } else {
      err := Some(UpdateFailed(cmd));
      status.status := StatusFail;
      status.stdOutErr := UpdateFailed(cmd);
    }
  }

  // ---------------------------------------------------------------------
  // Running a package's script from the repository

  const NameMissing := "Invalid usage. Software name must be specified."
  const TypeMissing := "Invalid usage. Software type must be specified."
  const InstallFailed := "Failed to install software."

  function NotFound(swType: string, swName: string): string
  {
    "Unable to install " + swType + " software " + swName + ". Specified software not found."
  }

  function DetailsMissing(swName: string): string
  {
    "Failed to get details of " + swName + " software."
  }

  function ActionFailed(action: string): string
  {
    "Failed to " + action + " software."
  }

  /** The repository runCmdFromRPM uses: the given one, or the default. */
  function RepoOf(params: map<string, string>): string
  {
    if Param(params, "softwareRepo") == "" then SoftwareRepoPath else Param(params, "softwareRepo")
  }

  /** The package file inside the repository. */
  function SoftwarePath(swRepo: string, swType: string, swName: string): string
  {
    Clean(swRepo + "/" + swType + "/" + swName)
  }

  /** The checks made before the listing: a name, then a type, then a package
      file that exists. */
  function Guard(swName: string, swType: string, params: map<string, string>, fs: FileSystem): Option<string>
  {
    if swName == "" then Some(NameMissing)
    else if swType == "" then Some(TypeMissing)
    else if !fs.stat(SoftwarePath(RepoOf(params), swType, swName)).Found? then Some(NotFound(swType, swName))
    else None
  }

  /** Whether runCmdFromRPM goes on to run the package's script, and with
      which path and record. */
  datatype Plan = Refused(msg: string) | Proceed(softwarePath: string, rpmInfo: RpmInfo)

  /** The listing must succeed and hold exactly one record. */
  function PlanFrom(listing: InfoListing, swName: string, softwarePath: string): Plan
  {
    if listing.err.Some? then Refused(listing.err.value)
    else if |listing.info| != 1 then Refused(DetailsMissing(swName))
    else Proceed(softwarePath, listing.info[0])
  }

  /** The parameters runCmdFromRPM lists with, as written: the caller's
      parameters with the name and the type set, and the repository left as
      the caller gave it, even when empty. */
  function ListParamsAsWritten(params: map<string, string>, swName: string, swType: string): map<string, string>
  {
    params["softwareName" := swName]["softwareType" := swType]
  }

  /** The parameters to list with, the repository defaulted as for the
      package path. */
  function ListParams(params: map<string, string>, swName: string, swType: string): map<string, string>
  {
    params["softwareRepo" := RepoOf(params)]["softwareName" := swName]["softwareType" := swType]
  }

  /** runCmdFromRPM up to the listing, as written. */
  function PrepareAsWritten(swName: string, swType: string, params: map<string, string>,
                            fs: FileSystem, tools: Tools): Plan
  {
    match Guard(swName, swType, params, fs)
    case Some(msg) => Refused(msg)
    case None =>
      PlanFrom(ListResult(ListParamsAsWritten(params, swName, swType), fs, tools), swName,
               SoftwarePath(RepoOf(params), swType, swName))
  }

  /** runCmdFromRPM up to the listing, listing the repository it checked. */
  function Prepare(swName: string, swType: string, params: map<string, string>,
                   fs: FileSystem, tools: Tools): Plan
  {
    match Guard(swName, swType, params, fs)
    case Some(msg) => Refused(msg)
    case None =>
      PlanFrom(ListResult(ListParams(params, swName, swType), fs, tools), swName,
               SoftwarePath(RepoOf(params), swType, swName))
  }

  /** The script a package provides for an action. */
  function ScriptPath(swType: string, rpmInfo: RpmInfo, action: string): string
  {
    RPMInstallRepoPath + swType + "/" + rpmInfo.GetRPMName() + "-" + rpmInfo.GetRPMVersion() + "-" +
    rpmInfo.GetRPMRelease() + "/" + action
  }

  /** The effects of running an action once the package is known. Only
      "install" installs the package first, removing an earlier install, and
      removes it again when the script fails. */
  function ActionEffects(action: string, swType: string, softwarePath: string, rpmInfo: RpmInfo,
                         oracle: Oracle): seq<Effect>
  {
    var name := rpmInfo.GetRPMName();
    var script := ScriptPath(swType, rpmInfo, action);
    if action == "install" then
      var setup := (if oracle.isInstalled(name) then [RpmUninstall(name)] else []) + [RpmInstall(softwarePath)];
      if !oracle.installSucceeds(softwarePath) then setup
      else setup + [RunScript(script)] + (if oracle.scriptSucceeds(script) then [] else [RpmUninstall(name)])
    else [RunScript(script)]
  }

  /** The result of running an action once the package is known. */
  function ActionResult(action: string, swType: string, softwarePath: string, rpmInfo: RpmInfo,
                        oracle: Oracle): Option<string>
  {
    var script := ScriptPath(swType, rpmInfo, action);
    if action == "install" && !oracle.installSucceeds(softwarePath) then Some(InstallFailed)
    else if !oracle.scriptSucceeds(script) then Some(ActionFailed(action))
    else None
  }

  /** The effects of a plan: none when it is refused, the action's otherwise. */
  function PlanEffects(action: string, swType: string, plan: Plan, oracle: Oracle): seq<Effect>
  {
    match plan
    case Refused(_) => []
    case Proceed(path, rpmInfo) => ActionEffects(action, swType, path, rpmInfo, oracle)
  }

  /** The result of a plan: its refusal, or the action's result. */
  function PlanResult(action: string, swType: string, plan: Plan, oracle: Oracle): Option<string>
  {
    match plan
    case Refused(msg) => Some(msg)
    case Proceed(path, rpmInfo) => ActionResult(action, swType, path, rpmInfo, oracle)
  }

  /** The effects of runCmdFromRPM, as written. */
  function CmdEffects(action: string, swName: string, swType: string, params: map<string, string>,
                      fs: FileSystem, tools: Tools, oracle: Oracle): seq<Effect>
  {
    PlanEffects(action, swType, PrepareAsWritten(swName, swType, params, fs, tools), oracle)
  }

  /** The result of runCmdFromRPM, as written. */
  function CmdResult(action: string, swName: string, swType: string, params: map<string, string>,
                     fs: FileSystem, tools: Tools, oracle: Oracle): Option<string>
  {
    PlanResult(action, swType, PrepareAsWritten(swName, swType, params, fs, tools), oracle)
  }

  /** The effects of runCmdFromRPM when it lists the repository it checked. */
  function CorrectedCmdEffects(action: string, swName: string, swType: string, params: map<string, string>,
                               fs: FileSystem, tools: Tools, oracle: Oracle): seq<Effect>
  {
    PlanEffects(action, swType, Prepare(swName, swType, params, fs, tools), oracle)
  }

  /** The result of runCmdFromRPM when it lists the repository it checked. */
  function CorrectedCmdResult(action: string, swName: string, swType: string, params: map<string, string>,
                              fs: FileSystem, tools: Tools, oracle: Oracle): Option<string>
  {
    PlanResult(action, swType, Prepare(swName, swType, params, fs, tools), oracle)
  }

  /** The checks of update.runCmdFromRPM before the listing: a name, a type,
      and a package file in the repository, defaulted when not given. */
  method CheckPackage(swName: string, swType: string, params: map<string, string>, fs: FileSystem)
    returns (refusal: Option<string>, absSwPath: string)
    ensures refusal == Guard(swName, swType, params, fs)
    ensures refusal.None? ==> absSwPath == SoftwarePath(RepoOf(params), swType, swName)
  {
    absSwPath := "";
    if swName == "" {
      return Some(NameMissing), absSwPath;
    }
    if swType == "" {
      return Some(TypeMissing), absSwPath;
    }
    var swRepo := Param(params, "softwareRepo");
    if swRepo == "" {
      swRepo := SoftwareRepoPath;
    }
    absSwPath := Clean(swRepo + "/" + swType + "/" + swName);
    if !fs.stat(absSwPath).Found? {
      return Some(NotFound(swType, swName)), absSwPath;
    }
    return None, absSwPath;
  }

  /** The listing of update.runCmdFromRPM: it must succeed with exactly one
      record. */
  method ListPlan(listParams: map<string, string>, swName: string, absSwPath: string,
                  fs: FileSystem, tools: Tools) returns (plan: Plan)
    ensures plan == PlanFrom(ListResult(listParams, fs, tools), swName, absSwPath)
  {
    var listInfo, listErr := List(listParams, fs, tools);
    if listErr.Some? {
      return Refused(listErr.value);
    }
    if |listInfo| != 1 {
      return Refused(DetailsMissing(swName));
    }
    return Proceed(absSwPath, listInfo[0]);
  }

  /** The checks and the listing of update.runCmdFromRPM, as written: the
      listing gets the caller's parameters with the name and the type set,
      and the repository parameter as the caller gave it. */
  method PrepareCmd(swName: string, swType: string, params: map<string, string>,
                    fs: FileSystem, tools: Tools)
    returns (plan: Plan)
    ensures plan == PrepareAsWritten(swName, swType, params, fs, tools)
  {
    var refusal, absSwPath := CheckPackage(swName, swType, params, fs);
    if refusal.Some? {
      return Refused(refusal.value);
    }
    var listParams := params["softwareName" := swName]["softwareType" := swType];
    plan := ListPlan(listParams, swName, absSwPath, fs, tools);
  }

  /** The checks and the listing, listing the repository whose package file
      was checked. */
  method PrepareCmdCorrected(swName: string, swType: string, params: map<string, string>,
                             fs: FileSystem, tools: Tools)
    returns (plan: Plan)
    ensures plan == Prepare(swName, swType, params, fs, tools)
  {
    var refusal, absSwPath := CheckPackage(swName, swType, params, fs);
    if refusal.Some? {
      return Refused(refusal.value);
    }
    var listParams := params["softwareRepo" := RepoOf(params)]["softwareName" := swName]["softwareType" := swType];
    plan := ListPlan(listParams, swName, absSwPath, fs, tools);
  }

  /** The action part of update.runCmdFromRPM, once the package is known. */
  method RunAction(action: string, swType: string, absSwPath: string, rpmInfo: RpmInfo, host: Machine)
    returns (err: Option<string>)
    modifies host
    ensures err == ActionResult(action, swType, absSwPath, rpmInfo, host.oracle)
    ensures host.trace == old(host.trace) + ActionEffects(action, swType, absSwPath, rpmInfo, host.oracle)
  {
    if action == "install" {
      var installed := host.IsInstalled(rpmInfo.GetRPMName());
      if installed {
        host.Uninstall(rpmInfo.GetRPMName());
      }
      var installedNow := host.Install(absSwPath);
      if !installedNow {
        return Some(InstallFailed);
      }
    }
    var script := RPMInstallRepoPath + swType + "/" + rpmInfo.GetRPMName() + "-" +
                  rpmInfo.GetRPMVersion() + "-" + rpmInfo.GetRPMRelease() + "/" + action;
    assert script == ScriptPath(swType, rpmInfo, action);
    var ran := host.RunPackageScript(script);
    if !ran {
      if action == "install" {
        host.Uninstall(rpmInfo.GetRPMName());
      }
      return Some(ActionFailed(action));
    }
    return None;
  }

  /** update.runCmdFromRPM, as written: the checks, the listing, then the
      action. */
  method RunCmdFromRpm(action: string, swName: string, swType: string, params: map<string, string>,
                       fs: FileSystem, tools: Tools, host: Machine)
    returns (err: Option<string>)
    modifies host
    ensures err == CmdResult(action, swName, swType, params, fs, tools, host.oracle)
    ensures host.trace == old(host.trace) + CmdEffects(action, swName, swType, params, fs, tools, host.oracle)
  {
    var plan := PrepareCmd(swName, swType, params, fs, tools);
    match plan
    case Refused(msg) =>
      err := Some(msg);
    case Proceed(path, rpmInfo) =>
      err := RunAction(action, swType, path, rpmInfo, host);
  }

  /** runCmdFromRPM listing the repository whose package file it checked. */
  method RunCmdFromRpmCorrected(action: string, swName: string, swType: string, params: map<string, string>,
                                fs: FileSystem, tools: Tools, host: Machine)
    returns (err: Option<string>)
    modifies host
    ensures err == CorrectedCmdResult(action, swName, swType, params, fs, tools, host.oracle)
    ensures host.trace == old(host.trace) + CorrectedCmdEffects(action, swName, swType, params, fs, tools, host.oracle)
  {
    var plan := PrepareCmdCorrected(swName, swType, params, fs, tools);
    match plan
    case Refused(msg) =>
      err := Some(msg);
    case Proceed(path, rpmInfo) =>
      err := RunAction(action, swType, path, rpmInfo, host);
  }

  /** The name is checked first, then the type, and nothing happens on the
      machine unless every check before the script passes. */
  lemma GuardOrder(action: string, swName: string, swType: string, params: map<string, string>,
                   fs: FileSystem, tools: Tools, oracle: Oracle)
    ensures swName == "" ==> CmdResult(action, swName, swType, params, fs, tools, oracle) == Some(NameMissing)
    ensures swName != "" && swType == "" ==>
            CmdResult(action, swName, swType, params, fs, tools, oracle) == Some(TypeMissing)
    ensures PrepareAsWritten(swName, swType, params, fs, tools).Refused? ==>
            CmdEffects(action, swName, swType, params, fs, tools, oracle) == []
  {
  }

  /** Without a repository parameter the package is looked for in the default
      repository. */
  lemma DefaultRepository(swName: string, swType: string, params: map<string, string>,
                          fs: FileSystem, tools: Tools)
    requires Param(params, "softwareRepo") == ""
    requires swName != "" && swType != ""
    ensures !fs.stat(Clean(SoftwareRepoPath + "/" + swType + "/" + swName)).Found? ==>
            PrepareAsWritten(swName, swType, params, fs, tools) == Refused(NotFound(swType, swName))
    ensures PrepareAsWritten(swName, swType, params, fs, tools).Proceed? ==>
            PrepareAsWritten(swName, swType, params, fs, tools).softwarePath ==
            Clean(SoftwareRepoPath + "/" + swType + "/" + swName)
  {
  }

  /** The script runs only for a listing of exactly one record, and that record
      is the one whose script runs. */
  lemma ExactlyOneRecord(swName: string, swType: string, params: map<string, string>,
                         fs: FileSystem, tools: Tools)
    ensures var plan := PrepareAsWritten(swName, swType, params, fs, tools);
            plan.Proceed? ==> ListResult(ListParamsAsWritten(params, swName, swType), fs, tools) ==
                              InfoListing([plan.rpmInfo], None)
  {
  }

  /** For "install": an installed package is removed before the install, a
      failed install stops there, and a failed script removes the package
      again. */
  lemma InstallSequence(swType: string, path: string, rpmInfo: RpmInfo, oracle: Oracle)
    ensures var name := rpmInfo.GetRPMName();
            var effects := ActionEffects("install", swType, path, rpmInfo, oracle);
            var k := if oracle.isInstalled(name) then 1 else 0;
            |effects| >= k + 1 &&
            (oracle.isInstalled(name) ==> effects[0] == RpmUninstall(name)) &&
            effects[k] == RpmInstall(path) &&
            (!oracle.installSucceeds(path) ==>
               (|effects| == k + 1 &&
                ActionResult("install", swType, path, rpmInfo, oracle) == Some(InstallFailed))) &&
            (oracle.installSucceeds(path) && !oracle.scriptSucceeds(ScriptPath(swType, rpmInfo, "install")) ==>
               (effects[|effects| - 1] == RpmUninstall(name) &&
                ActionResult("install", swType, path, rpmInfo, oracle) == Some(InstallFailed)))
  {
    assert ActionFailed("install") == InstallFailed;
  }

  /** An action other than "install" only runs the package's script. */
  lemma OtherActionsOnlyRunScript(action: string, swType: string, path: string, rpmInfo: RpmInfo,
                                  oracle: Oracle)
    requires action != "install"
    ensures ActionEffects(action, swType, path, rpmInfo, oracle) == [RunScript(ScriptPath(swType, rpmInfo, action))]
    ensures ActionResult(action, swType, path, rpmInfo, oracle) ==
            if oracle.scriptSucceeds(ScriptPath(swType, rpmInfo, action)) then None else Some(ActionFailed(action))
  {
  }

  /** A V1 package has no release, so its script directory ends in a dash. */
  lemma V1ScriptPath(swType: string, r: V1Record, action: string)
    ensures ScriptPath(swType, V1(r), action) ==
            RPMInstallRepoPath + swType + "/" + r.name + "-" + r.version + "-" + "/" + action
  {
  }

  /** The listing looks only at the requested file in the lowercased type's
      directory of the repository where the package file was checked. */
  lemma ListingUsesCheckedRepo(swName: string, swType: string, params: map<string, string>,
                               fs: FileSystem, f: string)
    requires swName != "" && swType != ""
    requires f in RepoListing(ListParams(params, swName, swType), fs).files
    ensures f == TypeDir(RepoOf(params), ToLower(swType)) + "/" + swName
  {
    var lp := ListParams(params, swName, swType);
    assert Param(lp, "softwareRepo") == RepoOf(params);
    assert Param(lp, "softwareName") == swName;
    assert Param(lp, "softwareType") == swType;
    ListedFiles(lp, fs, f);
  }

  /** As written, without a repository parameter the listing looks only in
      the type's directory under the root, not in the default repository. */
  lemma AsWrittenListsUnderRoot(swName: string, swType: string, params: map<string, string>,
                                fs: FileSystem, f: string)
    requires Param(params, "softwareRepo") == ""
    requires swName != "" && swType != ""
    requires f in RepoListing(ListParamsAsWritten(params, swName, swType), fs).files
    ensures f == TypeDir("", ToLower(swType)) + "/" + swName
  {
    var lp := ListParamsAsWritten(params, swName, swType);
    assert Param(lp, "softwareRepo") == "";
    assert Param(lp, "softwareName") == swName;
    assert Param(lp, "softwareType") == swType;
    ListedFiles(lp, fs, f);
  }

  /** The discrepancy: without a repository parameter, a package that exists
      in the default repository is refused as written when the type's
      directory under the root cannot be read. */
  lemma AsWrittenMissesDefaultRepo(action: string, swName: string, swType: string, params: map<string, string>,
                                   fs: FileSystem, tools: Tools, oracle: Oracle)
    requires Param(params, "softwareRepo") == ""
    requires swName != "" && swType != ""
    requires fs.stat(SoftwarePath(SoftwareRepoPath, swType, swName)).Found?
    requires fs.readDir(TypeDir("", ToLower(swType))).None?
    ensures PrepareAsWritten(swName, swType, params, fs, tools) == Refused(DetailsMissing(swName))
    ensures CmdResult(action, swName, swType, params, fs, tools, oracle) == Some(DetailsMissing(swName))
    ensures CmdEffects(action, swName, swType, params, fs, tools, oracle) == []
  {
    var lp := ListParamsAsWritten(params, swName, swType);
    assert Param(lp, "softwareRepo") == "";
    assert Param(lp, "softwareType") == swType;
    TypedListing(lp, fs);
    assert RepoListing(lp, fs) == Listing([], None);
  }

  /** The single listed file of a directory holding only that file. */
  lemma OneFileListed(dir: string, swName: string)
    requires HasSuffix(swName, ".rpm")
    ensures RpmFilesIn(dir, [swName], swName) == [dir + "/" + swName]
  {
    assert [swName][..0] == [];
  }

  /** A single file whose query succeeds gives a single record. */
  lemma OneRecordListed(file: string, query: string -> Option<string>, build: (string, string) -> RpmInfo)
    requires query(file).Some?
    ensures |Collect([file], query, build).info| == 1
    ensures Collect([file], query, build).err.None?
  {
    assert [file][..0] == [];
  }

  /** With the repository defaulted for the listing too, the same package is
      found whenever the default repository's type directory holds it. */
  lemma CorrectedFindsDefaultRepo(swName: string, swType: string,
                                  params: map<string, string>, fs: FileSystem, tools: Tools)
    requires Param(params, "softwareRepo") == ""
    requires swName != "" && swType != "" && HasSuffix(swName, ".rpm")
    requires fs.stat(SoftwarePath(SoftwareRepoPath, swType, swName)).Found?
    requires fs.readDir(TypeDir(SoftwareRepoPath, ToLower(swType))) == Some([swName])
    requires tools.queryInfo(TypeDir(SoftwareRepoPath, ToLower(swType)) + "/" + swName).Some?
    ensures Prepare(swName, swType, params, fs, tools).Proceed?
  {
    var lp := ListParams(params, swName, swType);
    var dir := TypeDir(SoftwareRepoPath, ToLower(swType));
    var file := dir + "/" + swName;
    assert Param(lp, "softwareRepo") == SoftwareRepoPath;
    assert Param(lp, "softwareName") == swName;
    assert Param(lp, "softwareType") == swType;
    TypedListing(lp, fs);
    OneFileListed(dir, swName);
    assert RepoListing(lp, fs) == Listing([file], None);
    OneRecordListed(file, tools.queryInfo,
                    (f, metaData) => RecordOf(f, metaData, Param(lp, "productVersion"), tools));
  }

  /** In that case the corrected command runs its action on the package file
      of the default repository. */
  lemma CorrectedRunsDefaultRepoAction(action: string, swName: string, swType: string,
                                       params: map<string, string>, fs: FileSystem, tools: Tools,
                                       oracle: Oracle)
    requires Param(params, "softwareRepo") == ""
    requires swName != "" && swType != "" && HasSuffix(swName, ".rpm")
    requires fs.stat(SoftwarePath(SoftwareRepoPath, swType, swName)).Found?
    requires fs.readDir(TypeDir(SoftwareRepoPath, ToLower(swType))) == Some([swName])
    requires tools.queryInfo(TypeDir(SoftwareRepoPath, ToLower(swType)) + "/" + swName).Some?
    ensures var plan := Prepare(swName, swType, params, fs, tools);
            plan.Proceed? && plan.softwarePath == SoftwarePath(SoftwareRepoPath, swType, swName) &&
            CorrectedCmdEffects(action, swName, swType, params, fs, tools, oracle) ==
            ActionEffects(action, swType, plan.softwarePath, plan.rpmInfo, oracle)
  {
    CorrectedFindsDefaultRepo(swName, swType, params, fs, tools);
  }
}
