/**
 * The parameter value objects of the Eisenhardt project: RunParams for an
 * ephemeral console container and StartParams for starting the stack.
 * Both are immutable: their constructors set every field once and they
 * only offer getters, so they are datatypes, and each getter is the
 * datatype's field of the same name.
 */
module Params {
  import opened Wrappers

  /**
   * new RunParams($command, $workingDirectory, $debug, $phpVersion,
   * $asRoot, $interactive), with the constructor's default values:
   * `bash`, in /mnt/magento, without Xdebug, with the project's own PHP
   * version, not as root, interactively.
   */
  datatype RunParams = RunParams(
    command: seq<string> := ["bash"],
    workingDirectory: string := "/mnt/magento",
    debug: bool := false,
    phpVersion: Option<string> := None,
    asRoot: bool := false,
    interactive: bool := true)

  /** new StartParams($mapPorts, $includeContrib): both flags must be given. */
  datatype StartParams = StartParams(mapPorts: bool, includeContrib: bool)

  /** The defaults the RunParams constructor fills in. */
  lemma RunParamsDefaults()
    ensures RunParams().command == ["bash"]
    ensures RunParams().workingDirectory == "/mnt/magento"
    ensures !RunParams().debug && RunParams().phpVersion == None
    ensures !RunParams().asRoot && RunParams().interactive
  {
  }

  /**
   * The run command passes four arguments; the last two take their
   * defaults: not as root, interactive.
   */
  lemma RunParamsFourArguments(command: seq<string>, workingDirectory: string, debug: bool, phpVersion: Option<string>)
    ensures RunParams(command, workingDirectory, debug, phpVersion)
         == RunParams(command, workingDirectory, debug, phpVersion, false, true)
  {
  }

  /** Every getter returns what was passed to the constructor. */
  lemma RunParamsGetters(command: seq<string>, workingDirectory: string, debug: bool,
                         phpVersion: Option<string>, asRoot: bool, interactive: bool)
    ensures var p := RunParams(command, workingDirectory, debug, phpVersion, asRoot, interactive);
      && p.command == command && p.workingDirectory == workingDirectory
      && p.debug == debug && p.phpVersion == phpVersion
      && p.asRoot == asRoot && p.interactive == interactive
  {
  }

  /** isMapPorts() and isIncludeContrib() return the constructor's flags. */
  lemma StartParamsGetters(mapPorts: bool, includeContrib: bool)
    ensures StartParams(mapPorts, includeContrib).mapPorts == mapPorts
    ensures StartParams(mapPorts, includeContrib).includeContrib == includeContrib
  {
  }
}
