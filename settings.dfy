/**
 * The names, build settings and command lines the builder derives from the pod
 * specification.  Each is a plain string function; the properties the builder
 * relies on (which suffix a target gets, which architectures are requested,
 * how the flags and the failure report read back) are proved next to them.
 */
module BuildSettings {
  import opened Results
  import opened Text
  import opened Sequences

  /** What the builder reads from the CocoaPods specification; CocoaPods computes each field. */
  datatype PodSpec = PodSpec(
    name: string,
    availablePlatforms: seq<string>,  // only how many there are matters
    platformString: string,           // the display name of the platform being built
    compilerFlags: seq<string>,       // the consumer's compiler flags for that platform
    licenseFile: Option<string>)      // the `:file` entry of the license, if any

  /** The Xcode target: the pod's name, qualified by the platform when the pod has several. */
  function TargetName(spec: PodSpec): string {
    if |spec.availablePlatforms| > 1 then spec.name + "-" + spec.platformString
    else spec.name
  }

  /** The target begins with the pod's name; it is qualified by `-<platform>` exactly when the pod has several platforms. */
  lemma TargetNameQualified(spec: PodSpec)
    ensures var r := TargetName(spec);
      |r| >= |spec.name| && r[..|spec.name|] == spec.name &&
      (|spec.availablePlatforms| > 1 ==> r[|spec.name|..] == "-" + spec.platformString) &&
      (r == spec.name <==> |spec.availablePlatforms| <= 1)
  {
    var r := TargetName(spec);
    if |spec.availablePlatforms| > 1 {
      assert |r| > |spec.name|;
    }
  }

  const FrameworkSuffix := ".framework"

  /** The bundle directory the build produces: the pod's name with the framework extension. */
  function FrameworkName(spec: PodSpec): string {
    spec.name + FrameworkSuffix
  }

  /** The framework's name splits into the pod's name and the extension. */
  lemma FrameworkNameParts(spec: PodSpec)
    ensures var r := FrameworkName(spec);
      |r| == |spec.name| + |FrameworkSuffix| &&
      r[..|spec.name|] == spec.name && r[|spec.name|..] == FrameworkSuffix
  {
  }

  /** The architectures every device build asks for, whatever the vendored binaries hold. */
  const IosArchitectures: seq<string> := ["x86_64", "arm64", "armv7", "armv7s", "i386"]

  const ArchsKey := "ARCHS='"
  const OtherCFlags := "' OTHER_CFLAGS='-fembed-bitcode -Qunused-arguments'"

  /** The extra settings of the device build: the architecture list and bitcode flags. */
  function IosBuildOptions(): string {
    ArchsKey + JoinSpace(IosArchitectures) + OtherCFlags
  }

  /** The quoted ARCHS value of the device build reads back as exactly the five architectures, in order. */
  lemma IosBuildOptionsArchs()
    ensures var opts := IosBuildOptions();
      var n := |JoinSpace(IosArchitectures)|;
      |opts| == |ArchsKey| + n + |OtherCFlags| &&
      opts[..|ArchsKey|] == ArchsKey &&
      SplitSpace(opts[|ArchsKey|..|ArchsKey| + n]) == IosArchitectures &&
      opts[|ArchsKey| + n..] == OtherCFlags
  {
    var archs := JoinSpace(IosArchitectures);
    var opts := IosBuildOptions();
    forall i | 0 <= i < |IosArchitectures| ensures NoSpace(IosArchitectures[i]) {
      assert IosArchitectures[i] in {"x86_64", "arm64", "armv7", "armv7s", "i386"};
    }
    SplitJoin(IosArchitectures);
    assert opts[|ArchsKey|..|ArchsKey| + |archs|] == archs;
  }

  const DefinesHead := "GCC_PREPROCESSOR_DEFINITIONS='$(inherited)' "

  /**
   * The defines text both builds put on the `xcodebuild` command line: the
   * inherited preprocessor definitions, then the pod's flags. Once the shell
   * splits the command line, each flag is an `xcodebuild` argument of its own
   * rather than part of `GCC_PREPROCESSOR_DEFINITIONS`; only the text is modelled.
   */
  function Defines(flags: seq<string>): string {
    DefinesHead + JoinSpace(flags)
  }

  /** The defines text starts with the inherited definitions, and the rest splits back into the pod's compiler flags. */
  lemma DefinesReadBack(flags: seq<string>)
    requires flags != []
    requires forall i :: 0 <= i < |flags| ==> NoSpace(flags[i])
    ensures var d := Defines(flags);
      |d| >= |DefinesHead| && d[..|DefinesHead|] == DefinesHead &&
      SplitSpace(d[|DefinesHead|..]) == flags
  {
    var d := Defines(flags);
    assert d[..|DefinesHead|] == DefinesHead;
    assert d[|DefinesHead|..] == JoinSpace(flags);
    SplitJoin(flags);
  }

  const BuildDirKey := "CONFIGURATION_BUILD_DIR="
  const ReleaseTarget := " clean build -configuration Release -target "
  const ProjectTail := " -project ./Pods.xcodeproj 2>&1"

  /** The shell command of one `xcodebuild` run. */
  function XcodebuildCommand(defines: string, args: string, buildDir: string, target: string): string {
    ("xcodebuild " + defines + " " + args + " ") + (BuildDirKey + buildDir + ReleaseTarget + target + ProjectTail)
  }

  /**
   * The command passes the settings and arguments first, then the build
   * directory, the Release configuration, the target and the Pods project.
   */
  lemma XcodebuildCommandParts(defines: string, args: string, buildDir: string, target: string)
    ensures var r := XcodebuildCommand(defines, args, buildDir, target);
      var head := "xcodebuild " + defines + " " + args + " ";
      var tail := BuildDirKey + buildDir + ReleaseTarget + target + ProjectTail;
      |r| == |head| + |tail| && r[..|head|] == head && r[|head|..] == tail
  {
    var head := "xcodebuild " + defines + " " + args + " ";
    var tail := BuildDirKey + buildDir + ReleaseTarget + target + ProjectTail;
    PrefixKept(head, tail);
    SuffixKept(head, tail);
  }

  const FailedHead := "Build command failed: "
  const OutputHead := "\nOutput:\n"

  /** The output lines, each behind four spaces (each line keeps its own line break). */
  function Indented(output: seq<string>): (r: string)
    ensures |r| == 4 * |output| + TotalLength(output)
    decreases |output|
  {
    if output == [] then "" else "    " + output[0] + Indented(output[1..])
  }

  function TotalLength(lines: seq<string>): nat
    decreases |lines|
  {
    if lines == [] then 0 else |lines[0]| + TotalLength(lines[1..])
  }

  /** Where the k-th output line starts inside `Indented(output)`: after the earlier lines and their indents. */
  function LineStart(output: seq<string>, k: nat): nat
    requires k <= |output|
  {
    4 * k + TotalLength(output[..k])
  }

  lemma {:induction false} TotalLengthPrefix(output: seq<string>, k: nat)
    requires 0 < k <= |output|
    ensures TotalLength(output[..k]) == |output[0]| + TotalLength(output[1..][..k - 1])
  {
    assert output[..k][1..] == output[1..][..k - 1];
  }

  /** Every output line appears verbatim, behind four spaces, at its place in the indented block. */
  lemma {:induction false} IndentedShowsLine(output: seq<string>, k: nat)
    requires k < |output|
    ensures var s := LineStart(output, k);
      s + 4 + |output[k]| <= |Indented(output)| &&
      Indented(output)[s..s + 4 + |output[k]|] == "    " + output[k]
    decreases k
  {
    var rest := Indented(output[1..]);
    assert Indented(output) == "    " + output[0] + rest;
    if k == 0 {
      assert output[..0] == [];
    } else {
      IndentedShowsLine(output[1..], k - 1);
      TotalLengthPrefix(output, k);
      var s' := LineStart(output[1..], k - 1);
      assert LineStart(output, k) == 4 + |output[0]| + s';
      assert Indented(output)[4 + |output[0]|..] == rest;
    }
  }

  /** The error an `xcodebuild` run that did not exit with status 0 raises. */
  function FailureMessage(command: string, output: seq<string>): (r: string)
    ensures |r| == |FailedHead| + |command| + |OutputHead| + 4 * |output| + TotalLength(output) + 1
  {
    FailedHead + command + OutputHead + Indented(output) + "\n"
  }

  /** The failure message names the command that failed, right after its heading. */
  lemma FailureMessageShowsCommand(command: string, output: seq<string>)
    ensures var msg := FailureMessage(command, output);
      msg[..|FailedHead|] == FailedHead && msg[|FailedHead|..|FailedHead| + |command|] == command
  {
  }

  /** The failure message shows the command and then each output line behind four spaces, in order. */
  lemma FailureMessageShowsOutput(command: string, output: seq<string>, k: nat)
    requires k < |output|
    ensures var s := |FailedHead| + |command| + |OutputHead| + LineStart(output, k);
      var msg := FailureMessage(command, output);
      s + 4 + |output[k]| <= |msg| && msg[s..s + 4 + |output[k]|] == "    " + output[k]
  {
    var base := |FailedHead| + |command| + |OutputHead|;
    var msg := FailureMessage(command, output);
    IndentedShowsLine(output, k);
    assert msg[base..base + |Indented(output)|] == Indented(output);
  }

  const LipoHead := "lipo -create -output "

  /** The shell command that joins the binaries into the universal binary at `output`. */
  function LipoCommand(output: string, inputs: seq<string>): (r: string)
    ensures |r| > |LipoHead| + |output|
  {
    LipoHead + output + " " + JoinSpace(inputs)
  }

  /** The command creates the universal binary at `output`. */
  lemma LipoCommandOutput(output: string, inputs: seq<string>)
    ensures var cmd := LipoCommand(output, inputs);
      cmd[..|LipoHead| + |output| + 1] == LipoHead + output + " "
  {
  }

  /** The inputs can be read back from the command, in order, when no path holds a space. */
  lemma LipoCommandInputs(output: string, inputs: seq<string>)
    requires inputs != []
    requires forall i :: 0 <= i < |inputs| ==> NoSpace(inputs[i])
    ensures var cmd := LipoCommand(output, inputs);
      var k := |LipoHead| + |output| + 1;
      k <= |cmd| && SplitSpace(cmd[k..]) == inputs
  {
    var cmd := LipoCommand(output, inputs);
    assert cmd[|LipoHead| + |output| + 1..] == JoinSpace(inputs);
    SplitJoin(inputs);
  }
}
