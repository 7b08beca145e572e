/** The effects the update workflow has on the machine it runs on: plugin
    runs through the plugin manager, `systemctl reboot`, `rpm` installs and
    removals, and the package scripts run with `/bin/sh`. Their outcomes are
    inputs of the model; a trace records the order in which they happen. */
module Host {
  import opened Wrappers

  /** What the plugin manager records about one run of a plugin type. */
  datatype RunStatus = RunStatus(pluginType: string, report: string)

  /** The outcome of pm.Run for a plugin type: the run status it filled in and
      the error it returned, if any. */
  datatype PluginRun = PluginRun(status: RunStatus, err: Option<string>)

  /** A side effect on the machine. */
  datatype Effect =
    | RunPlugins(pluginType: string, library: string)
    | SystemReboot
    | RpmInstall(path: string)
    | RpmUninstall(name: string)
    | RunScript(script: string)

  /** The outcomes of the external commands. */
  datatype Oracle = Oracle(
    /** pm.Run of a plugin type with a plugins library. */
    runPlugins: (string, string) -> PluginRun,
    /** Whether `systemctl reboot` succeeds. */
    rebootSucceeds: bool,
    /** `rpm -q <name>`: whether the package is installed. */
    isInstalled: string -> bool,
    /** Whether `rpm -Uvh <path>` succeeds. */
    installSucceeds: string -> bool,
    /** Whether `/bin/sh <script>` succeeds. */
    scriptSucceeds: string -> bool)

  /** The machine: the outcomes of its commands and the effects so far. */
  class Machine {
    const oracle: Oracle
    var trace: seq<Effect>

    constructor(oracle: Oracle)
      ensures this.oracle == oracle && trace == []
    {
      this.oracle := oracle;
      trace := [];
    }

    /** update.runPM: pm.Run of one plugin type. */
    method RunPM(pluginType: string, library: string) returns (r: PluginRun)
      modifies this
      ensures r == oracle.runPlugins(pluginType, library)
      ensures trace == old(trace) + [RunPlugins(pluginType, library)]
    {
      r := oracle.runPlugins(pluginType, library);
      trace := trace + [RunPlugins(pluginType, library)];
    }

    /** `systemctl reboot`. */
    method Reboot() returns (ok: bool)
      modifies this
      ensures ok == oracle.rebootSucceeds
      ensures trace == old(trace) + [SystemReboot]
    {
      ok := oracle.rebootSucceeds;
      trace := trace + [SystemReboot];
    }

    /** rpm.IsInstalled: a query, with no effect. */
    method IsInstalled(name: string) returns (installed: bool)
      ensures installed == oracle.isInstalled(name)
    {
      installed := oracle.isInstalled(name);
    }

    /** rpm.Install. */
    method Install(path: string) returns (ok: bool)
      modifies this
      ensures ok == oracle.installSucceeds(path)
      ensures trace == old(trace) + [RpmInstall(path)]
    {
      ok := oracle.installSucceeds(path);
      trace := trace + [RpmInstall(path)];
    }

    /** rpm.Uninstall; its outcome is never looked at. */
    method Uninstall(name: string)
      modifies this
      ensures trace == old(trace) + [RpmUninstall(name)]
    {
      trace := trace + [RpmUninstall(name)];
    }

    /** `/bin/sh <script>`. */
    method RunPackageScript(script: string) returns (ok: bool)
      modifies this
      ensures ok == oracle.scriptSucceeds(script)
      ensures trace == old(trace) + [RunScript(script)]
    {
      ok := oracle.scriptSucceeds(script);
      trace := trace + [RunScript(script)];
    }
  }
}
