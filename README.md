# OSGi framework runner: launch parameters, start level and cleanup

This project models `AbstractFrameworkRunner` from the Osmorc OSGi plugin for IntelliJ IDEA. The runner takes an OSGi run configuration and the bundles selected for it, and builds the parameters of the JVM that starts the OSGi framework. It works in this order:

1. It resolves a JDK (an alternative JRE or the project SDK).
2. It picks and creates a working directory: a generated `<system>/osmorc/run.<millis>`, or a configured path.
3. It puts the framework's system bundles on the class path.
4. When a console is requested, it puts the shell bundles in front of the selected bundles.
5. When asked, it adds every bundle with a URL to the class path.
6. It sets the dynamic-VM-options flag.
7. It appends the proxy arguments, the configured VM parameters, the program parameters when they are not blank, and the `org.osgi.framework.bootdelegation` and `org.osgi.framework.system.packages.extra` properties when their values are not blank.

The runner also computes the framework start level: in automatic mode, the highest bundle start level and never below 0. On `dispose`, it deletes a generated working directory.

Files:

- `wrappers.dfy`: `Option` (a Java reference that may be null) and `Result` (a value or a `CantRunException`).
- `java_text.dfy`: `StringUtil.isEmptyOrSpaces` through `String.trim()`, and the decimal rendering of a `long`.
- `java_parameters.dfy`: the platform's `JavaParameters` as a class whose working directory, class path, flag and parameter lists the runner sets or appends to in place.
- `framework_runner.dfy`:
  - The data model: selected bundles, the run configuration, the run errors, and `Host`, which gathers the answers of the IDE services the runner calls.
  - The functions that specify a run: `FirstFailure`, `Assemble`, `Launch`, `BundlesAfterLaunch`, `WorkingDirAfterLaunch` and `FrameworkStartLevel`.
  - The class `Runner`, whose fields are `myRunConfiguration`, `myBundles` and `myWorkingDir`. `CreateJavaParameters` sets those fields and fills a fresh `JavaParameters` step by step; `GetFrameworkStartLevel` and `Dispose` only read them. Each method is proved against those functions.
- `framework_runner_properties.dfy`: lemmas relating the specification functions to the guarantees of the runner, and a whole run (`RunAndDispose`).

All source paths below are relative to the repository root. The runner is `osmorc/src/org/osmorc/frameworkintegration/impl/AbstractFrameworkRunner.java`.

## Model

| member | source | states |
|---|---|---|
| FrameworkRunner.FirstFailure | osmorc/src/org/osmorc/frameworkintegration/impl/AbstractFrameworkRunner.java:82-137 | The checks run in source order: JDK, working directory, system bundles, then shell bundles when a console is requested. The first that fails is the error. No error occurs exactly when all four pass. |
| FrameworkRunner.SystemClassPath | osmorc/src/org/osmorc/frameworkintegration/impl/AbstractFrameworkRunner.java:123-127 | One entry per system bundle, in order; entry i is `urlToPath` of bundle i's URL. |
| FrameworkRunner.BundleClassPath | osmorc/src/org/osmorc/frameworkintegration/impl/AbstractFrameworkRunner.java:139-146 | At most one entry per bundle. When every bundle has a URL, it agrees with the system-bundle class path. |
| FrameworkRunner.BundleStartLevel | osmorc/src/org/osmorc/frameworkintegration/impl/AbstractFrameworkRunner.java:179-181 | A bundle marked default gets the configured default start level; any other bundle gets its own level. |
| FrameworkRunner.AutoStartLevel | osmorc/src/org/osmorc/frameworkintegration/impl/AbstractFrameworkRunner.java:184-190 | The running maximum from 0 is at least 0 and at least every bundle's start level. It is 0 or equal to some bundle's start level. |
| FrameworkRunner.FrameworkStartLevel | osmorc/src/org/osmorc/frameworkintegration/impl/AbstractFrameworkRunner.java:183-195 | Automatic mode: at least 0, at least every bundle's level, and 0 or some bundle's level. Otherwise: the configured framework start level, unchanged. |
| FrameworkRunner.AddSystemClassPath | osmorc/src/org/osmorc/frameworkintegration/impl/AbstractFrameworkRunner.java:123-127 | The loop appends exactly `SystemClassPath` of the system bundles to the class path and changes nothing else in the parameters. |
| FrameworkRunner.AddBundleClassPath | osmorc/src/org/osmorc/frameworkintegration/impl/AbstractFrameworkRunner.java:140-145 | The loop appends exactly `BundleClassPath` of `myBundles`, skipping bundles without a URL, and changes nothing else. |
| FrameworkRunner.AddRunnerOptions | osmorc/src/org/osmorc/frameworkintegration/impl/AbstractFrameworkRunner.java:150-168 | On fresh lists: the flag is true iff the run has bundles. The VM parameters are proxy args, then parsed VM parameters, then the non-blank OSGi properties. The program parameters appear only when not blank. Working directory and class path are untouched. |
| FrameworkRunner.AddOsgiProperties | osmorc/src/org/osmorc/frameworkintegration/impl/AbstractFrameworkRunner.java:160-168 | Appends exactly the OSGi property arguments, each only when its value is not blank, and changes nothing else. |
| FrameworkRunner.Runner.constructor | osmorc/src/org/osmorc/frameworkintegration/impl/AbstractFrameworkRunner.java:59-66 | A new runner has no configuration, no bundles and no working directory. |
| FrameworkRunner.Runner.CreateJavaParameters | osmorc/src/org/osmorc/frameworkintegration/impl/AbstractFrameworkRunner.java:68-175 | Records the configuration. On failure, returns the first failed check's error. On success, returns fresh parameters equal to `Assemble`. `myBundles` gets the shell bundles in front only on success. `myWorkingDir` is set once a JDK is found. |
| FrameworkRunner.Runner.ConfigureClassPathAndOptions | osmorc/src/org/osmorc/frameworkintegration/impl/AbstractFrameworkRunner.java:117-168 | Fails on missing system bundles, then on missing shell bundles for a console. Otherwise it prepends the shell bundles to `myBundles` and fills the class path and options as `Assemble` specifies, keeping the working directory. |
| FrameworkRunner.Runner.GetFrameworkStartLevel | osmorc/src/org/osmorc/frameworkintegration/impl/AbstractFrameworkRunner.java:183-195 | The loop's result equals `FrameworkStartLevel` of the recorded configuration and `myBundles`. |
| FrameworkRunner.Runner.Dispose | osmorc/src/org/osmorc/frameworkintegration/impl/AbstractFrameworkRunner.java:197-202 | A directory is handed over for deletion exactly when the configuration generates one and a working directory is set, and it is that working directory. |
| JavaParametersModel.JavaParameters.constructor | osmorc/src/org/osmorc/frameworkintegration/impl/AbstractFrameworkRunner.java:99 | New parameters have no working directory, empty lists and the flag off. |
| JavaParametersModel.JavaParameters.SetWorkingDirectory | osmorc/src/org/osmorc/frameworkintegration/impl/AbstractFrameworkRunner.java:112 | Sets the working directory, nothing else. |
| JavaParametersModel.JavaParameters.AddClassPath | osmorc/src/org/osmorc/frameworkintegration/impl/AbstractFrameworkRunner.java:126 | Appends one class-path entry at the end, nothing else. |
| JavaParametersModel.JavaParameters.SetUseDynamicVMOptions | osmorc/src/org/osmorc/frameworkintegration/impl/AbstractFrameworkRunner.java:150 | Sets the flag, nothing else. |
| JavaParametersModel.JavaParameters.AddVmParameters | osmorc/src/org/osmorc/frameworkintegration/impl/AbstractFrameworkRunner.java:152-153 | Appends arguments to the VM parameters, nothing else. |
| JavaParametersModel.JavaParameters.AddVmProperty | osmorc/src/org/osmorc/frameworkintegration/impl/AbstractFrameworkRunner.java:162 | Appends one `-D<name>=<value>` argument to the VM parameters, nothing else. |
| JavaParametersModel.JavaParameters.AddProgramParameters | osmorc/src/org/osmorc/frameworkintegration/impl/AbstractFrameworkRunner.java:157 | Appends arguments to the program parameters, nothing else. |
| JavaText.TrimStart | osmorc/src/org/osmorc/frameworkintegration/impl/AbstractFrameworkRunner.java:156 | The result is empty or starts with a character above the space; `TrimStartDropsSpaces` and `TrimStartEmpty` carry what it keeps. |
| JavaText.TrimStartDropsSpaces | osmorc/src/org/osmorc/frameworkintegration/impl/AbstractFrameworkRunner.java:156 | Trimming the start keeps a suffix of the string and removes only characters at or below the space. |
| JavaText.TrimStartEmpty | osmorc/src/org/osmorc/frameworkintegration/impl/AbstractFrameworkRunner.java:156 | Trimming the start empties a string exactly when every character is at or below the space. |
| JavaText.TrimEnd | osmorc/src/org/osmorc/frameworkintegration/impl/AbstractFrameworkRunner.java:156 | The result is empty or ends with a character above the space; `TrimEndDropsSpaces` carries what it keeps. |
| JavaText.TrimEndDropsSpaces | osmorc/src/org/osmorc/frameworkintegration/impl/AbstractFrameworkRunner.java:156 | Trimming the end keeps a prefix of the string and removes only characters at or below the space. |
| JavaText.IsEmptyOrSpacesIffAllSpaces | osmorc/src/org/osmorc/frameworkintegration/impl/AbstractFrameworkRunner.java:156 | A string is blank exactly when every character is at or below the space. |
| JavaText.Decimal | osmorc/src/org/osmorc/frameworkintegration/impl/AbstractFrameworkRunner.java:104 | A rendered number is non-empty and all digits, with two or more digits from 10 up. |
| JavaText.DecimalInjective | osmorc/src/org/osmorc/frameworkintegration/impl/AbstractFrameworkRunner.java:104 | Distinct numbers render differently. |
| FrameworkRunnerProperties.FailedLaunchKeepsBundles | osmorc/src/org/osmorc/frameworkintegration/impl/AbstractFrameworkRunner.java:78-137 | A run fails exactly when some check fails, with the first failed check's error and no parameters. A failed run leaves `myBundles` as given. |
| FrameworkRunnerProperties.SuccessfulClassPath | osmorc/src/org/osmorc/frameworkintegration/impl/AbstractFrameworkRunner.java:119-146 | On success there is at least one system bundle. The first entries are the system bundles' paths, in order. Nothing follows them unless all bundles are included; then `BundleClassPath` of the final `myBundles` follows. |
| FrameworkRunnerProperties.BundleClassPathAppend | osmorc/src/org/osmorc/frameworkintegration/impl/AbstractFrameworkRunner.java:134-145 | The class path of concatenated bundle lists is the concatenation of their class paths. |
| FrameworkRunnerProperties.BundleClassPathMembers | osmorc/src/org/osmorc/frameworkintegration/impl/AbstractFrameworkRunner.java:139-146 | A path is on the bundle class path iff some bundle with a URL maps to it: bundles without URL are skipped, the others all appear. |
| FrameworkRunnerProperties.ShellBundlesComeFirst | osmorc/src/org/osmorc/frameworkintegration/impl/AbstractFrameworkRunner.java:129-146 | With a console, a successful run had shell bundles, and `myBundles` becomes shell then selected bundles. With all bundles included, the shell paths precede the selected bundles' paths. |
| FrameworkRunnerProperties.DynamicVmOptionsIffBundles | osmorc/src/org/osmorc/frameworkintegration/impl/AbstractFrameworkRunner.java:150 | On success the flag is set iff there are selected bundles or a console (which brings shell bundles). |
| FrameworkRunnerProperties.OsgiPropertiesWhenNotBlank | osmorc/src/org/osmorc/frameworkintegration/impl/AbstractFrameworkRunner.java:160-168 | Each OSGi property is passed iff its value has a non-space character, and no other argument is passed. |
| FrameworkRunnerProperties.PropertyArgumentsDiffer | osmorc/src/org/osmorc/frameworkintegration/impl/AbstractFrameworkRunner.java:162-167 | The boot-delegation and system-packages arguments never coincide. |
| FrameworkRunnerProperties.SuccessfulVmParameters | osmorc/src/org/osmorc/frameworkintegration/impl/AbstractFrameworkRunner.java:152-168 | On success the VM parameters start with proxy then configured VM parameters; after them each OSGi property appears iff its value is not blank. |
| FrameworkRunnerProperties.SuccessfulProgramParameters | osmorc/src/org/osmorc/frameworkintegration/impl/AbstractFrameworkRunner.java:155-158 | On success, blank program parameters give none; otherwise the parsed string. |
| FrameworkRunnerProperties.GeneratedWorkingDirsDiffer | osmorc/src/org/osmorc/frameworkintegration/impl/AbstractFrameworkRunner.java:103-105 | Runs at different clock readings get different generated working directories. |
| FrameworkRunnerProperties.AutoStartLevelOrderIndependent | osmorc/src/org/osmorc/frameworkintegration/impl/AbstractFrameworkRunner.java:184-190 | The automatic start level depends only on the multiset of bundles, not their order. |
| FrameworkRunnerProperties.AutoStartLevelBelow | osmorc/src/org/osmorc/frameworkintegration/impl/AbstractFrameworkRunner.java:184-190 | For two lists holding the same bundles, the automatic level of one is at most that of the other. |
| FrameworkRunnerProperties.FrameworkStartLevelExample | osmorc/src/org/osmorc/frameworkintegration/impl/AbstractFrameworkRunner.java:183-195 | Levels 2, 5, 3 in automatic mode give 5; with automatic mode off and level 7 configured, 7. |
| FrameworkRunnerProperties.ScenarioSingleBundle | osmorc/src/org/osmorc/frameworkintegration/impl/AbstractFrameworkRunner.java:119-158 | System bundle core.jar plus selected a.jar with all bundles included, VM parameters -Xmx256m and no program parameters: class path core.jar, a.jar; VM parameters contain -Xmx256m; no program parameters. |
| FrameworkRunnerProperties.RunAndDispose | osmorc/src/org/osmorc/frameworkintegration/impl/AbstractFrameworkRunner.java:68-202 | A whole run on a new runner: the parameters are those `Launch` specifies. The start level covers the shell bundles too. The generated directory is deleted after a run that found a JDK; with the configuration as recorded at the run, a configured directory never is, and nothing is deleted if no JDK was found. |

## Left out

- JDK resolution (`JdkUtil.checkForJre`, `JavaSdk.createJdk`, `ProjectRootManager.getProjectSdk`) is an input: the set of paths holding a JRE and whether the project has an SDK. The created `Sdk` object is not modelled.
- The clock, `PathManager.getSystemPath`, `isDirectory` and `mkdirs` are inputs of `Host`. Creating the directory is not modelled, only whether it exists or can be created. The path separator is written as `/`.
- `params.configureByProject(..., JDK_ONLY, jdk)` is library behaviour not shown; the JDK classes it adds are not part of the modelled class path.
- The proxy arguments from `HttpConfigurable` are an input sequence.
- The splitting of a parameter string by `addParametersString` is an input function from string to arguments.
- `OsgiFileUtil.urlToPath` is an input function.
- JavaParametersModel.JavaParameters.AddVmProperty: assumes `addProperty(name, value)` appends `-D<name>=<value>`. The platform's `ParametersList` is not part of this model.
- The framework integrator registry and the instance manager's `getFrameworkBundles` are inputs: the system and shell bundle lists. The fields `myInstance`, `myIntegrator`, `myInstanceManager` and `myAdditionalProperties` are not kept; the additional properties are read once into `AdditionalProperties`.
- The `assert`s on a non-null instance and integrator are not modelled.
- The assertion that every system bundle has a URL is a precondition (`HasUrls`).
- The abstract `setupParameters` hook is not modelled: each framework implements it, and those implementations are not part of this model.
- `FileUtil.asyncDelete` itself is not modelled. `Dispose` returns the directory it would be given.
- Java `null` strings are modelled as the empty string, which `isEmpty` and `isEmptyOrSpaces` treat alike. A `null` configured working directory is the exception: `new File(null)` throws a `NullPointerException`, while the model tries the directory "" and, unless "" is a ready directory, fails with `CannotCreateWorkDir("")`.
- `java.io.File` path normalisation is not modelled: the source's error message, working directory and deleted directory use `File.getPath()`, which drops a trailing or doubled separator, while the model keeps the configured string as it is (a configured "/tmp/run/" is "/tmp/run" in the source and "/tmp/run/" in the model).
- JavaParametersModel.JavaParameters.AddClassPath: assumes `getClassPath().add(path)` appends the path as one entry. The platform's `PathsList` is not part of this model; it skips entries already on the list and empty ones and splits a string at the path separator, so when two bundles map to the same path the source's class path holds it once where the model, and `SuccessfulClassPath`, `ShellBundlesComeFirst` and `ScenarioSingleBundle`, count it twice.
- FrameworkRunner.Runner: keeps the run configuration as a value recorded by `CreateJavaParameters`. The source keeps a reference to the mutable `OsgiRunConfiguration` and reads `getDefaultStartLevel`, `isAutoStartLevel`, `getFrameworkStartLevel` and `isGenerateWorkingDir` again when `getFrameworkStartLevel` and `dispose` run; a configuration changed in between is not modelled, so `Dispose` (and `RunAndDispose`) decide on the recorded flag, not on whether the directory was in fact generated.
- FrameworkRunner.Runner.GetFrameworkStartLevel and FrameworkRunner.Runner.Dispose require a recorded configuration; called before `createJavaParameters`, the source throws a `NullPointerException`, which the model does not represent.
- FrameworkRunner.Runner.CreateJavaParameters: it is the Java method's body split into helper methods (`ConfigureClassPathAndOptions`, `AddSystemClassPath`, `AddBundleClassPath`, `AddRunnerOptions`, `AddOsgiProperties`) so each proof stays small. The order of every step is kept.
- FrameworkRunner.AddRunnerOptions: states its VM and program parameters for parameter lists that are still empty, which is how the runner calls it.
- Repeated runs with the same inputs give the same parameters because `Launch` is a function of its inputs. No separate idempotence lemma is stated.
