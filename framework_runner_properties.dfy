/** What `createJavaParameters`, `getFrameworkStartLevel` and `dispose`
    guarantee, stated over the functions that specify the runner. */
module FrameworkRunnerProperties {
  import opened Wrappers
  import opened JavaText
  import opened JavaParametersModel
  import opened FrameworkRunner

  /** A run fails exactly when one of its checks fails, with the error of the
      first that does; a failed run returns no parameters and leaves
      `myBundles` as it was given. */
  lemma FailedLaunchKeepsBundles(c: RunConfiguration, host: Host, selected: seq<SelectedBundle>)
    requires HasUrls(host.systemBundles)
    ensures Launch(c, host, selected).Err? <==> FirstFailure(c, host).Some?
    ensures Launch(c, host, selected).Err? ==> Some(Launch(c, host, selected).error) == FirstFailure(c, host)
    ensures Launch(c, host, selected).Err? ==> BundlesAfterLaunch(c, host, selected) == selected
  {
  }

  /** A successful run puts the system bundles' paths first, one per bundle
      and in their order; without "include all bundles" nothing follows
      them, with it the paths of the run's bundles follow. */
  lemma SuccessfulClassPath(c: RunConfiguration, host: Host, selected: seq<SelectedBundle>)
    requires HasUrls(host.systemBundles)
    requires Launch(c, host, selected).Ok?
    ensures var cp := Launch(c, host, selected).value.classPath;
      var system := host.systemBundles;
      && |system| > 0 && |cp| >= |system|
      && (forall i :: 0 <= i < |system| ==> cp[i] == host.urlToPath(system[i].bundleUrl.value))
      && (!c.includeAllBundlesInClassPath ==> |cp| == |system|)
      && (c.includeAllBundlesInClassPath
          ==> cp[|system|..] == BundleClassPath(host.urlToPath, BundlesAfterLaunch(c, host, selected)))
  {
  }

  /** The class path of a concatenation is the concatenation of the class
      paths. */
  lemma {:induction false} BundleClassPathAppend(urlToPath: string -> string, a: seq<SelectedBundle>, b: seq<SelectedBundle>)
    ensures BundleClassPath(urlToPath, a + b) == BundleClassPath(urlToPath, a) + BundleClassPath(urlToPath, b)
    decreases |b|
  {
    if b == [] {
      assert a + b == a;
    } else {
      var init := b[..|b| - 1];
      assert (a + b)[..|a + b| - 1] == a + init;
      assert (a + b)[|a + b| - 1] == b[|b| - 1];
      BundleClassPathAppend(urlToPath, a, init);
    }
  }

  /** A path is on a bundle class path exactly when some bundle with a URL
      maps to it: bundles without a URL contribute nothing, every other one
      contributes its path. */
  lemma {:induction false} BundleClassPathMembers(urlToPath: string -> string, bundles: seq<SelectedBundle>, path: string)
    ensures path in BundleClassPath(urlToPath, bundles)
      <==> exists i :: 0 <= i < |bundles| && bundles[i].bundleUrl.Some? && path == urlToPath(bundles[i].bundleUrl.value)
    decreases |bundles|
  {
    if bundles != [] {
      var init := bundles[..|bundles| - 1];
      var last := bundles[|bundles| - 1];
      BundleClassPathMembers(urlToPath, init, path);
      if exists i :: 0 <= i < |bundles| && bundles[i].bundleUrl.Some? && path == urlToPath(bundles[i].bundleUrl.value) {
        var i :| 0 <= i < |bundles| && bundles[i].bundleUrl.Some? && path == urlToPath(bundles[i].bundleUrl.value);
        if i < |bundles| - 1 {
          assert init[i] == bundles[i];
        }
      }
      if exists i :: 0 <= i < |init| && init[i].bundleUrl.Some? && path == urlToPath(init[i].bundleUrl.value) {
        var i :| 0 <= i < |init| && init[i].bundleUrl.Some? && path == urlToPath(init[i].bundleUrl.value);
        assert bundles[i] == init[i];
      }
    }
  }

  /** With a console, a successful run has put the shell bundles in front of
      the selected ones, and with "include all bundles" the shell bundles'
      paths come before those of the selected bundles. */
  lemma ShellBundlesComeFirst(c: RunConfiguration, host: Host, selected: seq<SelectedBundle>)
    requires HasUrls(host.systemBundles)
    requires c.additionalProperties.startConsole
    requires Launch(c, host, selected).Ok?
    ensures host.shellBundles != []
    ensures BundlesAfterLaunch(c, host, selected) == host.shellBundles + selected
    ensures c.includeAllBundlesInClassPath ==>
      Launch(c, host, selected).value.classPath
        == SystemClassPath(host.urlToPath, host.systemBundles)
           + BundleClassPath(host.urlToPath, host.shellBundles)
           + BundleClassPath(host.urlToPath, selected)
  {
    BundleClassPathAppend(host.urlToPath, host.shellBundles, selected);
  }

  /** The dynamic-VM-options flag is set exactly when the run has bundles:
      selected ones, or the shell bundles a console brings. */
  lemma DynamicVmOptionsIffBundles(c: RunConfiguration, host: Host, selected: seq<SelectedBundle>)
    requires HasUrls(host.systemBundles)
    requires Launch(c, host, selected).Ok?
    ensures Launch(c, host, selected).value.useDynamicVMOptions
      <==> selected != [] || c.additionalProperties.startConsole
  {
  }

  /** The two OSGi properties: each is passed exactly when its value has a
      character `trim()` keeps, and nothing else is passed. */
  lemma OsgiPropertiesWhenNotBlank(bootDelegation: string, systemPackages: string)
    ensures PropertyArgument(BootDelegationProperty, bootDelegation) in OsgiPropertyArguments(bootDelegation, systemPackages)
      <==> exists i :: 0 <= i < |bootDelegation| && bootDelegation[i] > ' '
    ensures PropertyArgument(SystemPackagesExtraProperty, systemPackages) in OsgiPropertyArguments(bootDelegation, systemPackages)
      <==> exists i :: 0 <= i < |systemPackages| && systemPackages[i] > ' '
    ensures forall a :: a in OsgiPropertyArguments(bootDelegation, systemPackages) ==>
      a == PropertyArgument(BootDelegationProperty, bootDelegation)
      || a == PropertyArgument(SystemPackagesExtraProperty, systemPackages)
  {
    IsEmptyOrSpacesIffAllSpaces(bootDelegation);
    IsEmptyOrSpacesIffAllSpaces(systemPackages);
    PropertyArgumentsDiffer(bootDelegation, systemPackages);
  }

  /** The two property arguments never coincide: their names differ at the
      character after "org.osgi.framework.". */
  lemma PropertyArgumentsDiffer(bootDelegation: string, systemPackages: string)
    ensures PropertyArgument(BootDelegationProperty, bootDelegation)
      != PropertyArgument(SystemPackagesExtraProperty, systemPackages)
  {
    var b := PropertyArgument(BootDelegationProperty, bootDelegation);
    var s := PropertyArgument(SystemPackagesExtraProperty, systemPackages);
    assert b[21] == ("-D" + BootDelegationProperty)[21] == BootDelegationProperty[19] == 'b';
    assert s[21] == ("-D" + SystemPackagesExtraProperty)[21] == SystemPackagesExtraProperty[19] == 's';
  }

  /** The VM parameters of a successful run: the proxy arguments, then the
      configured VM parameters, then the OSGi properties that are not blank. */
  lemma SuccessfulVmParameters(c: RunConfiguration, host: Host, selected: seq<SelectedBundle>)
    requires HasUrls(host.systemBundles)
    requires Launch(c, host, selected).Ok?
    ensures var vm := Launch(c, host, selected).value.vmParameters;
      var prefix := host.proxyVmArguments + host.parseParameters(c.vmParameters);
      var bootDelegation := c.additionalProperties.bootDelegation;
      var systemPackages := c.additionalProperties.systemPackages;
      && vm[..|prefix|] == prefix
      && (PropertyArgument(BootDelegationProperty, bootDelegation) in vm[|prefix|..]
          <==> exists i :: 0 <= i < |bootDelegation| && bootDelegation[i] > ' ')
      && (PropertyArgument(SystemPackagesExtraProperty, systemPackages) in vm[|prefix|..]
          <==> exists i :: 0 <= i < |systemPackages| && systemPackages[i] > ' ')
  {
    var vm := Launch(c, host, selected).value.vmParameters;
    var prefix := host.proxyVmArguments + host.parseParameters(c.vmParameters);
    var osgi := OsgiPropertyArguments(c.additionalProperties.bootDelegation, c.additionalProperties.systemPackages);
    assert vm == prefix + osgi;
    assert vm[..|prefix|] == prefix;
    assert vm[|prefix|..] == osgi;
    OsgiPropertiesWhenNotBlank(c.additionalProperties.bootDelegation, c.additionalProperties.systemPackages);
  }

  /** Program parameters are passed only when the configured string is not
      blank. */
  lemma SuccessfulProgramParameters(c: RunConfiguration, host: Host, selected: seq<SelectedBundle>)
    requires HasUrls(host.systemBundles)
    requires Launch(c, host, selected).Ok?
    ensures AllSpaces(c.programParameters) ==> Launch(c, host, selected).value.programParameters == []
    ensures !AllSpaces(c.programParameters)
      ==> Launch(c, host, selected).value.programParameters == host.parseParameters(c.programParameters)
  {
    IsEmptyOrSpacesIffAllSpaces(c.programParameters);
  }

  /** Two runs started at different times get different generated working
      directories. */
  lemma GeneratedWorkingDirsDiffer(systemPath: string, millis1: nat, millis2: nat)
    requires millis1 != millis2
    ensures GeneratedWorkingDir(systemPath, millis1) != GeneratedWorkingDir(systemPath, millis2)
  {
    var prefix := systemPath + "/osmorc/run.";
    var s1 := GeneratedWorkingDir(systemPath, millis1);
    var s2 := GeneratedWorkingDir(systemPath, millis2);
    if s1 == s2 {
      assert Decimal(millis1) == s1[|prefix|..] == s2[|prefix|..] == Decimal(millis2);
      DecimalInjective(millis1, millis2);
    }
  }

  /** The automatic start level does not depend on the order of the bundles. */
  lemma AutoStartLevelOrderIndependent(defaultStartLevel: int, s: seq<SelectedBundle>, t: seq<SelectedBundle>)
    requires multiset(s) == multiset(t)
    ensures AutoStartLevel(defaultStartLevel, s) == AutoStartLevel(defaultStartLevel, t)
  {
    AutoStartLevelBelow(defaultStartLevel, s, t);
    AutoStartLevelBelow(defaultStartLevel, t, s);
  }

  /** Every bundle of `s` also in `t` keeps the level of `s` at most that of `t`. */
  lemma AutoStartLevelBelow(defaultStartLevel: int, s: seq<SelectedBundle>, t: seq<SelectedBundle>)
    requires multiset(s) == multiset(t)
    ensures AutoStartLevel(defaultStartLevel, s) <= AutoStartLevel(defaultStartLevel, t)
  {
    var r := AutoStartLevel(defaultStartLevel, s);
    if r != 0 {
      var i :| 0 <= i < |s| && BundleStartLevel(defaultStartLevel, s[i]) == r;
      assert s[i] in multiset(t);
      var j :| 0 <= j < |t| && t[j] == s[i];
    }
  }

  /** Bundles at levels 2, 5 and 3 give an automatic framework start level
      of 5; with the automatic level off, the configured 7 is used whatever
      the bundles' levels. */
  lemma FrameworkStartLevelExample(c: RunConfiguration)
    ensures var bundles := [SelectedBundle(None, false, 2), SelectedBundle(None, false, 5), SelectedBundle(None, false, 3)];
      && FrameworkStartLevel(c.(autoStartLevel := true), bundles) == 5
      && FrameworkStartLevel(c.(autoStartLevel := false, frameworkStartLevel := 7), bundles) == 7
  {
    var bundles := [SelectedBundle(None, false, 2), SelectedBundle(None, false, 5), SelectedBundle(None, false, 3)];
    var d := c.defaultStartLevel;
    assert bundles[..1][..0] == [];
    assert AutoStartLevel(d, bundles[..1]) == 2;
    assert bundles[..2][..1] == bundles[..1];
    assert AutoStartLevel(d, bundles[..2]) == 5;
    assert bundles[..|bundles| - 1] == bundles[..2];
  }

  /** One system bundle "core.jar", one selected bundle "a.jar" at level 1,
      every bundle on the class path, VM parameters "-Xmx256m" and no program
      parameters: the class path is core.jar then a.jar, the VM parameters
      hold -Xmx256m, and no program parameters are passed. */
  lemma ScenarioSingleBundle(c: RunConfiguration, host: Host)
    requires c.includeAllBundlesInClassPath && c.vmParameters == "-Xmx256m" && c.programParameters == ""
    requires !c.additionalProperties.startConsole
    requires host.systemBundles == [SelectedBundle(Some("core.jar"), false, 1)]
    requires forall u :: host.urlToPath(u) == u
    requires forall p :: host.parseParameters(p) == [p]
    requires JdkResolved(c, host) && WorkingDirReady(host, WorkingDirPath(c, host))
    ensures var result := Launch(c, host, [SelectedBundle(Some("a.jar"), false, 1)]);
      && result.Ok?
      && result.value.classPath == ["core.jar", "a.jar"]
      && "-Xmx256m" in result.value.vmParameters
      && result.value.programParameters == []
  {
  }

  /** A whole run: `createJavaParameters` on a new runner, the start level a
      framework-specific setup reads, then `dispose`. The parameters are those
      `Launch` specifies; the start level covers the shell bundles too; a
      generated working directory is the one deleted and, with the
      configuration as recorded at the run, a configured one never is;
      nothing is deleted when no JDK was found. */
  method RunAndDispose(c: RunConfiguration, host: Host, selected: seq<SelectedBundle>)
    returns (result: Result<LaunchParameters, RunError>, level: Option<int>, deleted: Option<string>)
    requires HasUrls(host.systemBundles)
    ensures result == Launch(c, host, selected)
    ensures result.Ok? ==> level == Some(FrameworkStartLevel(c, BundlesForRun(c, host, selected)))
    ensures result.Err? ==> level == None
    ensures c.generateWorkingDir && JdkResolved(c, host)
      ==> deleted == Some(GeneratedWorkingDir(host.systemPath, host.currentTimeMillis))
    ensures !c.generateWorkingDir || !JdkResolved(c, host) ==> deleted == None
  {
    var runner := new Runner();
    var r := runner.CreateJavaParameters(c, host, selected);
    match r {
      case Ok(params) =>
        result := Ok(params.Value());
        var l := runner.GetFrameworkStartLevel();
        level := Some(l);
      case Err(e) =>
        result := Err(e);
        level := None;
    }
    deleted := runner.Dispose();
  }
}
