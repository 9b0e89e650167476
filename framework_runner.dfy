/** `AbstractFrameworkRunner`: turns an OSGi run configuration and the bundles
    selected for it into the parameters of the JVM that starts the framework,
    computes the framework start level, and cleans up a generated working
    directory afterwards.

    The IDE services the runner consults are gathered in `Host`; the runner's
    own fields (`myRunConfiguration`, `myBundles`, `myWorkingDir`) are the
    fields of class `Runner`. */
module FrameworkRunner {
  import opened Wrappers
  import opened JavaText
  import opened JavaParametersModel

  /** A bundle chosen for the run (`SelectedBundle`). */
  datatype SelectedBundle = SelectedBundle(
    bundleUrl: Option<string>,
    isDefaultStartLevel: bool,
    startLevel: int)

  /** The entries of the run's additional-properties map that the runner reads
      through `GenericRunProperties`. */
  datatype AdditionalProperties = AdditionalProperties(
    startConsole: bool,
    bootDelegation: string,
    systemPackages: string)

  /** The settings of `OsgiRunConfiguration` the runner reads. */
  datatype RunConfiguration = RunConfiguration(
    useAlternativeJre: bool,
    alternativeJrePath: string,
    generateWorkingDir: bool,
    workingDir: string,
    includeAllBundlesInClassPath: bool,
    vmParameters: string,
    programParameters: string,
    autoStartLevel: bool,
    frameworkStartLevel: int,
    defaultStartLevel: int,
    additionalProperties: AdditionalProperties)

  /** What the IDE answers when the runner asks: the paths that hold a JRE
      (`JdkUtil.checkForJre`), whether the project has an SDK, the IDE system
      directory, the clock, the directories that exist and those `mkdirs` can
      create, the framework instance's system and shell bundles, the proxy VM
      arguments, the URL-to-path conversion and the splitting of a parameter
      string into arguments. */
  datatype Host = Host(
    jreHomes: set<string>,
    hasProjectSdk: bool,
    systemPath: string,
    currentTimeMillis: nat,
    directories: set<string>,
    creatableDirectories: set<string>,
    systemBundles: seq<SelectedBundle>,
    shellBundles: seq<SelectedBundle>,
    proxyVmArguments: seq<string>,
    urlToPath: string -> string,
    parseParameters: string -> seq<string>)

  /** The `CantRunException`s `createJavaParameters` throws. */
  datatype RunError =
    | NoJdkConfigured
      // "Cannot create work directory '<path>'"
    | CannotCreateWorkDir(path: string)
      // "Libraries required to start the framework not found - please check the installation"
    | SystemLibrariesNotFound
      // "Console requested but no shell bundles can be found - please check the installation"
    | ShellBundlesNotFound

  const BootDelegationProperty := "org.osgi.framework.bootdelegation"
  const SystemPackagesExtraProperty := "org.osgi.framework.system.packages.extra"

  /** A JDK is found: the alternative JRE path is non-empty and holds a JRE,
      or, without an alternative JRE, the project has an SDK. */
  predicate JdkResolved(c: RunConfiguration, host: Host) {
    if c.useAlternativeJre then |c.alternativeJrePath| > 0 && c.alternativeJrePath in host.jreHomes
    else host.hasProjectSdk
  }

  /** `new File(PathManager.getSystemPath(), "osmorc/run." + millis)`. */
  function GeneratedWorkingDir(systemPath: string, millis: nat): string {
    systemPath + "/osmorc/run." + Decimal(millis)
  }

  /** The working directory the run uses. */
  function WorkingDirPath(c: RunConfiguration, host: Host): string {
    if c.generateWorkingDir then GeneratedWorkingDir(host.systemPath, host.currentTimeMillis)
    else c.workingDir
  }

  /** The directory exists already, or `mkdirs` creates it. */
  predicate WorkingDirReady(host: Host, dir: string) {
    dir in host.directories || dir in host.creatableDirectories
  }

  /** The framework's system bundles all have a URL (asserted by the runner). */
  predicate HasUrls(bundles: seq<SelectedBundle>) {
    forall i :: 0 <= i < |bundles| ==> bundles[i].bundleUrl.Some?
  }

  /** The class-path entries of the system bundles: one per bundle, in order. */
  function SystemClassPath(urlToPath: string -> string, bundles: seq<SelectedBundle>): (r: seq<string>)
    requires HasUrls(bundles)
    ensures |r| == |bundles|
    ensures forall i :: 0 <= i < |bundles| ==> r[i] == urlToPath(bundles[i].bundleUrl.value)
  {
    if bundles == [] then []
    else SystemClassPath(urlToPath, bundles[..|bundles| - 1]) + [urlToPath(bundles[|bundles| - 1].bundleUrl.value)]
  }

  /** The class-path entries of bundles that may lack a URL: those without one
      are skipped. */
  function BundleClassPath(urlToPath: string -> string, bundles: seq<SelectedBundle>): (r: seq<string>)
    ensures |r| <= |bundles|
    ensures HasUrls(bundles) ==> r == SystemClassPath(urlToPath, bundles)
  {
    if bundles == [] then []
    else
      var last := bundles[|bundles| - 1];
      BundleClassPath(urlToPath, bundles[..|bundles| - 1])
        + (if last.bundleUrl.Some? then [urlToPath(last.bundleUrl.value)] else [])
  }

  /** `myBundles` once the console's shell bundles have been put in front. */
  function BundlesForRun(c: RunConfiguration, host: Host, bundles: seq<SelectedBundle>): seq<SelectedBundle> {
    if c.additionalProperties.startConsole then host.shellBundles + bundles else bundles
  }

  /** The OSGi properties appended to the VM parameters, each only when its
      value is not blank. */
  function OsgiPropertyArguments(bootDelegation: string, systemPackages: string): seq<string> {
    (if IsEmptyOrSpaces(bootDelegation) then [] else [PropertyArgument(BootDelegationProperty, bootDelegation)])
      + (if IsEmptyOrSpaces(systemPackages) then [] else [PropertyArgument(SystemPackagesExtraProperty, systemPackages)])
  }

  /** The VM parameters: the proxy arguments, the configured VM parameters,
      then the OSGi properties. */
  function VmParameters(c: RunConfiguration, host: Host): seq<string> {
    host.proxyVmArguments + host.parseParameters(c.vmParameters)
      + OsgiPropertyArguments(c.additionalProperties.bootDelegation, c.additionalProperties.systemPackages)
  }

  /** The program parameters, added only when not blank. */
  function ProgramParameters(c: RunConfiguration, host: Host): seq<string> {
    if IsEmptyOrSpaces(c.programParameters) then [] else host.parseParameters(c.programParameters)
  }

  /** The parameters of a run that passes every check. */
  function Assemble(c: RunConfiguration, host: Host, bundles: seq<SelectedBundle>): LaunchParameters
    requires HasUrls(host.systemBundles)
  {
    var forRun := BundlesForRun(c, host, bundles);
    LaunchParameters(
      Some(WorkingDirPath(c, host)),
      SystemClassPath(host.urlToPath, host.systemBundles)
        + (if c.includeAllBundlesInClassPath then BundleClassPath(host.urlToPath, forRun) else []),
      forRun != [],
      VmParameters(c, host),
      ProgramParameters(c, host))
  }

  /** The checks `createJavaParameters` makes before it assembles anything,
      in its order: a JDK, the working directory, the system bundles, and the
      shell bundles when a console is requested. The first that fails is the
      error of the run. */
  function FirstFailure(c: RunConfiguration, host: Host): (r: Option<RunError>)
    ensures !JdkResolved(c, host) ==> r == Some(NoJdkConfigured)
    ensures JdkResolved(c, host) && !WorkingDirReady(host, WorkingDirPath(c, host))
      ==> r == Some(CannotCreateWorkDir(WorkingDirPath(c, host)))
    ensures JdkResolved(c, host) && WorkingDirReady(host, WorkingDirPath(c, host)) && host.systemBundles == []
      ==> r == Some(SystemLibrariesNotFound)
    ensures r == Some(ShellBundlesNotFound)
      <==> JdkResolved(c, host) && WorkingDirReady(host, WorkingDirPath(c, host)) && host.systemBundles != []
           && c.additionalProperties.startConsole && host.shellBundles == []
    ensures r.None?
      <==> JdkResolved(c, host) && WorkingDirReady(host, WorkingDirPath(c, host))
           && host.systemBundles != [] && (c.additionalProperties.startConsole ==> host.shellBundles != [])
  {
    if !JdkResolved(c, host) then Some(NoJdkConfigured)
    else if !WorkingDirReady(host, WorkingDirPath(c, host)) then Some(CannotCreateWorkDir(WorkingDirPath(c, host)))
    else if host.systemBundles == [] then Some(SystemLibrariesNotFound)
    else if c.additionalProperties.startConsole && host.shellBundles == [] then Some(ShellBundlesNotFound)
    else None
  }

  /** `createJavaParameters` as a function: the first failing check, or the
      assembled parameters. */
  function Launch(c: RunConfiguration, host: Host, bundles: seq<SelectedBundle>): Result<LaunchParameters, RunError>
    requires HasUrls(host.systemBundles)
  {
    match FirstFailure(c, host)
    case Some(e) => Err(e)
    case None => Ok(Assemble(c, host, bundles))
  }

  /** `myBundles` after `createJavaParameters`: the shell bundles are put in
      front only when the run gets past every check. */
  function BundlesAfterLaunch(c: RunConfiguration, host: Host, bundles: seq<SelectedBundle>): seq<SelectedBundle> {
    if FirstFailure(c, host).None? then BundlesForRun(c, host, bundles) else bundles
  }

  /** `myWorkingDir` after `createJavaParameters`: set once a JDK is found,
      left as it was otherwise. */
  function WorkingDirAfterLaunch(c: RunConfiguration, host: Host, previous: Option<string>): Option<string> {
    if JdkResolved(c, host) then Some(WorkingDirPath(c, host)) else previous
  }

  /** `getBundleStartLevel`: the configured default for a bundle marked
      default, its own level otherwise. */
  function BundleStartLevel(defaultStartLevel: int, bundle: SelectedBundle): (r: int)
    ensures bundle.isDefaultStartLevel ==> r == defaultStartLevel
    ensures !bundle.isDefaultStartLevel ==> r == bundle.startLevel
  {
    if bundle.isDefaultStartLevel then defaultStartLevel else bundle.startLevel
  }

  function Max(a: int, b: int): int {
    if a >= b then a else b
  }

  /** The automatic framework start level: the highest bundle start level,
      and never below 0. */
  function AutoStartLevel(defaultStartLevel: int, bundles: seq<SelectedBundle>): (r: int)
    ensures r >= 0
    ensures forall i :: 0 <= i < |bundles| ==> BundleStartLevel(defaultStartLevel, bundles[i]) <= r
    ensures r == 0 || exists i :: 0 <= i < |bundles| && BundleStartLevel(defaultStartLevel, bundles[i]) == r
  {
    if bundles == [] then 0
    else
      var init := bundles[..|bundles| - 1];
      var previous := AutoStartLevel(defaultStartLevel, init);
      assert previous == 0 || exists i :: 0 <= i < |bundles| && BundleStartLevel(defaultStartLevel, bundles[i]) == previous by {
        if previous != 0 {
          var i :| 0 <= i < |init| && BundleStartLevel(defaultStartLevel, init[i]) == previous;
          assert init[i] == bundles[i];
        }
      }
      Max(BundleStartLevel(defaultStartLevel, bundles[|bundles| - 1]), previous)
  }

  /** `getFrameworkStartLevel`. */
  function FrameworkStartLevel(c: RunConfiguration, bundles: seq<SelectedBundle>): (r: int)
    ensures !c.autoStartLevel ==> r == c.frameworkStartLevel
    ensures c.autoStartLevel ==> r >= 0 && forall i :: 0 <= i < |bundles| ==> BundleStartLevel(c.defaultStartLevel, bundles[i]) <= r
    ensures c.autoStartLevel ==> r == 0 || exists i :: 0 <= i < |bundles| && BundleStartLevel(c.defaultStartLevel, bundles[i]) == r
  {
    if c.autoStartLevel then AutoStartLevel(c.defaultStartLevel, bundles) else c.frameworkStartLevel
  }

  /** The loop over the system bundles: each one's path is appended to the
      class path, in order. */
  method AddSystemClassPath(params: JavaParameters, urlToPath: string -> string, systemBundles: seq<SelectedBundle>)
    requires HasUrls(systemBundles)
    modifies params
    ensures params.classPath == old(params.classPath) + SystemClassPath(urlToPath, systemBundles)
    ensures params.workingDirectory == old(params.workingDirectory)
    ensures params.useDynamicVMOptions == old(params.useDynamicVMOptions)
    ensures params.vmParameters == old(params.vmParameters) && params.programParameters == old(params.programParameters)
  {
    for i := 0 to |systemBundles|
      invariant params.classPath == old(params.classPath) + SystemClassPath(urlToPath, systemBundles[..i])
      invariant params.workingDirectory == old(params.workingDirectory)
      invariant params.useDynamicVMOptions == old(params.useDynamicVMOptions)
      invariant params.vmParameters == old(params.vmParameters) && params.programParameters == old(params.programParameters)
    {
      var url := systemBundles[i].bundleUrl.value;
      params.AddClassPath(urlToPath(url));
      assert systemBundles[..i + 1][..i] == systemBundles[..i];
    }
    assert systemBundles[..|systemBundles|] == systemBundles;
  }

  /** The loop over `myBundles` when every bundle goes on the class path:
      bundles without a URL are skipped. */
  method AddBundleClassPath(params: JavaParameters, urlToPath: string -> string, bundles: seq<SelectedBundle>)
    modifies params
    ensures params.classPath == old(params.classPath) + BundleClassPath(urlToPath, bundles)
    ensures params.workingDirectory == old(params.workingDirectory)
    ensures params.useDynamicVMOptions == old(params.useDynamicVMOptions)
    ensures params.vmParameters == old(params.vmParameters) && params.programParameters == old(params.programParameters)
  {
    for i := 0 to |bundles|
      invariant params.classPath == old(params.classPath) + BundleClassPath(urlToPath, bundles[..i])
      invariant params.workingDirectory == old(params.workingDirectory)
      invariant params.useDynamicVMOptions == old(params.useDynamicVMOptions)
      invariant params.vmParameters == old(params.vmParameters) && params.programParameters == old(params.programParameters)
    {
      var url := bundles[i].bundleUrl;
      if url.Some? {
        params.AddClassPath(urlToPath(url.value));
      }
      assert bundles[..i + 1][..i] == bundles[..i];
    }
    assert bundles[..|bundles|] == bundles;
  }

  /** The runner options: the dynamic-VM-options flag from the bundles of
      the run, the proxy and configured VM parameters, the program parameters
      when not blank, and the two OSGi properties when not blank. */
  method AddRunnerOptions(params: JavaParameters, c: RunConfiguration, host: Host, bundles: seq<SelectedBundle>)
    requires params.vmParameters == [] && params.programParameters == []
    modifies params
    ensures params.useDynamicVMOptions == (bundles != [])
    ensures params.vmParameters == VmParameters(c, host)
    ensures params.programParameters == ProgramParameters(c, host)
    ensures params.workingDirectory == old(params.workingDirectory) && params.classPath == old(params.classPath)
  {
    params.SetUseDynamicVMOptions(|bundles| != 0);

    params.AddVmParameters(host.proxyVmArguments);
    assert params.vmParameters == host.proxyVmArguments;
    params.AddVmParameters(host.parseParameters(c.vmParameters));

    var additionalProgramParams := c.programParameters;
    if !IsEmptyOrSpaces(additionalProgramParams) {
      params.AddProgramParameters(host.parseParameters(additionalProgramParams));
    }

    AddOsgiProperties(params, c.additionalProperties.bootDelegation, c.additionalProperties.systemPackages);
  }

  /** The two OSGi framework properties, each added only when its value is
      not blank. */
  method AddOsgiProperties(params: JavaParameters, bootDelegation: string, systemPackages: string)
    modifies params
    ensures params.vmParameters == old(params.vmParameters) + OsgiPropertyArguments(bootDelegation, systemPackages)
    ensures params.workingDirectory == old(params.workingDirectory) && params.classPath == old(params.classPath)
    ensures params.useDynamicVMOptions == old(params.useDynamicVMOptions)
    ensures params.programParameters == old(params.programParameters)
  {
    if !IsEmptyOrSpaces(bootDelegation) {
      params.AddVmProperty(BootDelegationProperty, bootDelegation);
    }

    if !IsEmptyOrSpaces(systemPackages) {
      params.AddVmProperty(SystemPackagesExtraProperty, systemPackages);
    }
  }

  /** The runner's state between `createJavaParameters` and `dispose`. */
  class Runner {
    var runConfiguration: Option<RunConfiguration>
    var bundles: seq<SelectedBundle>
    var workingDir: Option<string>

    constructor ()
      ensures runConfiguration == None && bundles == [] && workingDir == None
    {
      runConfiguration := None;
      bundles := [];
      workingDir := None;
    }

    /** `createJavaParameters(runConfiguration, bundles)`: records the run,
        checks JDK, working directory, system and shell bundles in that order,
        and fills a fresh `JavaParameters` step by step. */
    method CreateJavaParameters(c: RunConfiguration, host: Host, selected: seq<SelectedBundle>)
      returns (r: Result<JavaParameters, RunError>)
      requires HasUrls(host.systemBundles)
      modifies this
      ensures runConfiguration == Some(c)
      ensures bundles == BundlesAfterLaunch(c, host, selected)
      ensures workingDir == WorkingDirAfterLaunch(c, host, old(workingDir))
      ensures r.Err? ==> FirstFailure(c, host) == Some(r.error)
      ensures r.Ok? ==> FirstFailure(c, host) == None && fresh(r.value) && r.value.Value() == Assemble(c, host, selected)
    {
      runConfiguration := Some(c);
      bundles := selected;

      var jdkForRun: bool;
      if c.useAlternativeJre {
        var path := c.alternativeJrePath;
        jdkForRun := !(|path| == 0 || path !in host.jreHomes);
      } else {
        jdkForRun := host.hasProjectSdk;
      }
      if !jdkForRun {
        return Err(NoJdkConfigured);
      }

      var params := new JavaParameters();

      if c.generateWorkingDir {
        workingDir := Some(GeneratedWorkingDir(host.systemPath, host.currentTimeMillis));
      } else {
        workingDir := Some(c.workingDir);
      }
      var dir := workingDir.value;
      if dir !in host.directories && dir !in host.creatableDirectories {
        return Err(CannotCreateWorkDir(dir));
      }
      params.SetWorkingDirectory(dir);

      var error := ConfigureClassPathAndOptions(params, c, host);
      if error.Some? {
        return Err(error.value);
      }
      r := Ok(params);
    }

    /** The rest of `createJavaParameters`, once the working directory is
        set: the system bundles' class path, the shell bundles put in front of
        `myBundles` when a console is requested, the bundles' class path when
        all bundles are included, and the runner options. */
    method ConfigureClassPathAndOptions(params: JavaParameters, c: RunConfiguration, host: Host)
      returns (error: Option<RunError>)
      requires HasUrls(host.systemBundles)
      requires params.workingDirectory.Some? && params.classPath == []
      requires !params.useDynamicVMOptions && params.vmParameters == [] && params.programParameters == []
      modifies this`bundles, params
      ensures error == (if host.systemBundles == [] then Some(SystemLibrariesNotFound)
                        else if c.additionalProperties.startConsole && host.shellBundles == [] then Some(ShellBundlesNotFound)
                        else None)
      ensures bundles == if error.None? then BundlesForRun(c, host, old(bundles)) else old(bundles)
      ensures error.None? ==> params.Value() == Assemble(c, host, old(bundles)).(workingDirectory := params.workingDirectory)
      ensures params.workingDirectory == old(params.workingDirectory)
    {
      var systemBundles := host.systemBundles;
      if |systemBundles| == 0 {
        return Some(SystemLibrariesNotFound);
      }
      AddSystemClassPath(params, host.urlToPath, systemBundles);
      ghost var systemClassPath := SystemClassPath(host.urlToPath, systemBundles);
      assert params.classPath == systemClassPath;

      if c.additionalProperties.startConsole {
        var shellBundles := host.shellBundles;
        if |shellBundles| == 0 {
          return Some(ShellBundlesNotFound);
        }
        var allBundles := shellBundles + bundles;
        bundles := allBundles;
      }

      if c.includeAllBundlesInClassPath {
        AddBundleClassPath(params, host.urlToPath, bundles);
      } else {
        assert params.classPath == systemClassPath + [];
      }

      AddRunnerOptions(params, c, host, bundles);
      error := None;
    }

    /** `getFrameworkStartLevel`: with automatic start level, the running
        maximum of 0 and every bundle's start level; otherwise the configured
        framework start level. */
    method GetFrameworkStartLevel() returns (level: int)
      requires runConfiguration.Some?
      ensures level == FrameworkStartLevel(runConfiguration.value, bundles)
    {
      var c := runConfiguration.value;
      if c.autoStartLevel {
        var startLevel := 0;
        for i := 0 to |bundles|
          invariant startLevel == AutoStartLevel(c.defaultStartLevel, bundles[..i])
        {
          var bundleStartLevel := BundleStartLevel(c.defaultStartLevel, bundles[i]);
          startLevel := Max(bundleStartLevel, startLevel);
          assert bundles[..i + 1][..i] == bundles[..i];
        }
        assert bundles[..|bundles|] == bundles;
        level := startLevel;
      } else {
        level := c.frameworkStartLevel;
      }
    }

    /** `dispose`: the directory handed to `FileUtil.asyncDelete`, if any. The
        working directory is deleted exactly when the run configuration
        generates it and one has been set. */
    method Dispose() returns (deleted: Option<string>)
      requires runConfiguration.Some?
      ensures deleted.Some? <==> runConfiguration.value.generateWorkingDir && workingDir.Some?
      ensures deleted.Some? ==> deleted == workingDir
    {
      if runConfiguration.value.generateWorkingDir && workingDir.Some? {
        deleted := workingDir;
      } else {
        deleted := None;
      }
    }
  }
}
