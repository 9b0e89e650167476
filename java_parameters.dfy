/** The part of the platform's `JavaParameters` object that the runner fills in:
    a working directory, a class path, the dynamic-VM-options flag, and the VM
    and program parameter lists, each appended to in place. */
module JavaParametersModel {
  import opened Wrappers

  /** The observable contents of a `JavaParameters` object. */
  datatype LaunchParameters = LaunchParameters(
    workingDirectory: Option<string>,
    classPath: seq<string>,
    useDynamicVMOptions: bool,
    vmParameters: seq<string>,
    programParameters: seq<string>)

  const Empty := LaunchParameters(None, [], false, [], [])

  /** The argument `ParametersList.addProperty(name, value)` appends. */
  function PropertyArgument(name: string, value: string): string {
    "-D" + name + "=" + value
  }

  class JavaParameters {
    var workingDirectory: Option<string>
    var classPath: seq<string>
    var useDynamicVMOptions: bool
    var vmParameters: seq<string>
    var programParameters: seq<string>

    function Value(): LaunchParameters
      reads this
    {
      LaunchParameters(workingDirectory, classPath, useDynamicVMOptions, vmParameters, programParameters)
    }

    /** `new JavaParameters()`: nothing set yet. */
    constructor ()
      ensures workingDirectory == None && classPath == [] && !useDynamicVMOptions
      ensures vmParameters == [] && programParameters == []
    {
      workingDirectory := None;
      classPath := [];
      useDynamicVMOptions := false;
      vmParameters := [];
      programParameters := [];
    }

    /** `setWorkingDirectory(dir)`. */
    method SetWorkingDirectory(dir: string)
      modifies this
      ensures workingDirectory == Some(dir)
      ensures classPath == old(classPath) && useDynamicVMOptions == old(useDynamicVMOptions)
      ensures vmParameters == old(vmParameters) && programParameters == old(programParameters)
    {
      workingDirectory := Some(dir);
    }

    /** `getClassPath().add(path)`: one entry at the end of the class path. */
    method AddClassPath(path: string)
      modifies this
      ensures classPath == old(classPath) + [path]
      ensures workingDirectory == old(workingDirectory) && useDynamicVMOptions == old(useDynamicVMOptions)
      ensures vmParameters == old(vmParameters) && programParameters == old(programParameters)
    {
      classPath := classPath + [path];
    }

    /** `setUseDynamicVMOptions(flag)`. */
    method SetUseDynamicVMOptions(flag: bool)
      modifies this
      ensures useDynamicVMOptions == flag
      ensures workingDirectory == old(workingDirectory) && classPath == old(classPath)
      ensures vmParameters == old(vmParameters) && programParameters == old(programParameters)
    {
      useDynamicVMOptions := flag;
    }

    /** `getVMParametersList().addAll(args)`, and `addParametersString` once
        its string has been split into arguments. */
    method AddVmParameters(args: seq<string>)
      modifies this
      ensures vmParameters == old(vmParameters) + args
      ensures workingDirectory == old(workingDirectory) && classPath == old(classPath)
      ensures useDynamicVMOptions == old(useDynamicVMOptions) && programParameters == old(programParameters)
    {
      vmParameters := vmParameters + args;
    }

    /** `getVMParametersList().addProperty(name, value)`. */
    method AddVmProperty(name: string, value: string)
      modifies this
      ensures vmParameters == old(vmParameters) + [PropertyArgument(name, value)]
      ensures workingDirectory == old(workingDirectory) && classPath == old(classPath)
      ensures useDynamicVMOptions == old(useDynamicVMOptions) && programParameters == old(programParameters)
    {
      vmParameters := vmParameters + [PropertyArgument(name, value)];
    }

    /** `getProgramParametersList().addParametersString(s)`, once split. */
    method AddProgramParameters(args: seq<string>)
      modifies this
      ensures programParameters == old(programParameters) + args
      ensures workingDirectory == old(workingDirectory) && classPath == old(classPath)
      ensures useDynamicVMOptions == old(useDynamicVMOptions) && vmParameters == old(vmParameters)
    {
      programParameters := programParameters + args;
    }
  }
}
