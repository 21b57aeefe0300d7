/**
 * The builder itself: an object over the working copy that runs the two Xcode
 * builds, assembles the universal framework, merges the Swift header, copies
 * resources and license, and delivers the framework to the pod's directory.
 * Every shell command it runs is recorded, in order, in `commands`; `xcodebuild`
 * and `lipo` are external tools whose results the builder is given.
 */
module FrameworkBuilder {
  import opened Results
  import opened Text
  import opened FileSystem
  import opened BuildSettings
  import opened SwiftHeader
  import opened Assembly
  import opened Sequences

  /** What an `xcodebuild` run reports: its exit status (none if killed by a signal), its output lines, and the working copy it leaves. */
  datatype Exec = Exec(exitStatus: Option<int>, output: seq<string>, after: FS)

  /** Why a build stops: a failed `xcodebuild`, or a header path that is a directory and cannot be read. */
  datatype Failure = BuildFailed(message: string) | ReadFailed(path: Path)

  /** A step of the build as a function of the working copy: how it ends, the working copy after it, the commands it runs. */
  datatype Run = Run(res: Result<(), Failure>, fs: FS, log: seq<string>)

  const SimulatorArgs := "-sdk iphonesimulator"

  /** How a finished `xcodebuild` run ends the call: normally on exit status 0, with the report otherwise. */
  function Outcome(command: string, run: Exec): (r: Result<(), Failure>)
    ensures r.Ok? <==> run.exitStatus == Some(0)
    ensures r.Err? ==> r.error == BuildFailed(FailureMessage(command, run.output))
  {
    if run.exitStatus == Some(0) then Ok(()) else Err(BuildFailed(FailureMessage(command, run.output)))
  }

  class Builder {
    const spec: PodSpec
    const platformDir: Path                         // the platform's directory name in the working copy
    const sourceDir: Path                           // where the finished framework is delivered
    const vendoredLibraries: seq<Path>
    const useFramework: bool
    const fwkPath: Path                             // the framework directory being assembled
    const headersPath: Path                         // its Headers directory
    const xcode: (string, FS) -> Exec               // runs one xcodebuild command line
    const lipo: (seq<Path>, FS) -> Option<seq<string>>  // the universal binary, or None if lipo fails
    var fs: FS
    var commands: seq<string>

    constructor(spec: PodSpec, staticFrameworks: seq<Path>, staticLibraries: seq<Path>,
                platformDir: Path, sourceDir: Path, useFramework: bool,
                fwkPath: Path, headersPath: Path,
                xcode: (string, FS) -> Exec, lipo: (seq<Path>, FS) -> Option<seq<string>>, fs: FS)
      ensures this.spec == spec && this.platformDir == platformDir && this.sourceDir == sourceDir
      ensures vendoredLibraries == staticFrameworks + staticLibraries
      ensures this.useFramework == useFramework
      ensures this.fwkPath == fwkPath && this.headersPath == headersPath
      ensures this.xcode == xcode && this.lipo == lipo
      ensures this.fs == fs && commands == []
    {
      this.spec := spec;
      this.platformDir := platformDir;
      this.sourceDir := sourceDir;
      this.vendoredLibraries := staticFrameworks + staticLibraries;
      this.useFramework := useFramework;
      this.fwkPath := fwkPath;
      this.headersPath := headersPath;
      this.xcode := xcode;
      this.lipo := lipo;
      this.fs := fs;
      this.commands := [];
    }

    function DeviceCommand(): string {
      XcodebuildCommand(Defines(spec.compilerFlags), IosBuildOptions(), DeviceBuildDir, TargetName(spec))
    }

    function SimulatorCommand(): string {
      XcodebuildCommand(Defines(spec.compilerFlags), SimulatorArgs, SimulatorBuildDir, TargetName(spec))
    }

    /** The binary `lipo` writes: the pod's name inside the framework directory. */
    function Output(): Path {
      Join(fwkPath, spec.name)
    }

    /** The generated Swift header inside the framework built into `buildDir`. */
    function SwiftHeaderIn(buildDir: Path): Path {
      Join(Join(BuiltFramework(spec, buildDir), "Headers"), TargetName(spec) + "-Swift.h")
    }

    /** The framework's place in the platform directory, and its place in the source directory. */
    function DeliverySource(): Path { Join(platformDir, FrameworkName(spec)) }
    function DeliveryTarget(): Path { Join(sourceDir, FrameworkName(spec)) }

    /** Runs one `xcodebuild`; a run that does not exit with status 0 raises its report. */
    method Xcodebuild(defines: string := "", args: string := "", buildDir: Path := DeviceBuildDir) returns (res: Result<(), Failure>)
      modifies this
      ensures var command := XcodebuildCommand(defines, args, buildDir, TargetName(spec));
        var run := xcode(command, old(fs));
        commands == old(commands) + [command] && fs == run.after && res == Outcome(command, run)
    {
      var command := XcodebuildCommand(defines, args, buildDir, TargetName(spec));
      var run := xcode(command, fs);
      commands := commands + [command];
      fs := run.after;
      if run.exitStatus != Some(0) {
        return Err(BuildFailed(FailureMessage(command, run.output)));
      }
      return Ok(());
    }

    /** The device build, into `build`, for the fixed architectures; yields the shared defines. */
    method Compile() returns (res: Result<string, Failure>)
      modifies this
      ensures var run := xcode(DeviceCommand(), old(fs));
        commands == old(commands) + [DeviceCommand()] && fs == run.after &&
        (res.Ok? <==> run.exitStatus == Some(0)) &&
        (res.Ok? ==> res.value == Defines(spec.compilerFlags)) &&
        (res.Err? ==> Outcome(DeviceCommand(), run) == Err(res.error))
    {
      var defines := Defines(spec.compilerFlags);
      var options := IosBuildOptions();
      var r := Xcodebuild(defines, options);
      if r.Err? {
        return Err(r.error);
      }
      return Ok(defines);
    }

    /** The simulator build, into `build-simulator`, with the same defines. */
    method BuildSimDynamicFramework(defines: string) returns (res: Result<(), Failure>)
      modifies this
      ensures var command := XcodebuildCommand(defines, SimulatorArgs, SimulatorBuildDir, TargetName(spec));
        commands == old(commands) + [command] && fs == xcode(command, old(fs)).after &&
        res == Outcome(command, xcode(command, old(fs)))
    {
      res := Xcodebuild(defines, SimulatorArgs, SimulatorBuildDir);
    }

    /** Assembles the universal framework at `fwkPath` from the two build trees. */
    method BuildDynamicFrameworkForIos(output: Path)
      modifies this
      ensures fs == AssembledFramework(old(fs), spec, fwkPath, output, vendoredLibraries, lipo)
      ensures commands == old(commands) +
        AssemblyCommands(spec, fwkPath, output, LipoInputs(old(fs), spec, vendoredLibraries))
    {
      var libs := LipoInputs(fs, spec, vendoredLibraries);
      commands := commands + AssemblyCommands(spec, fwkPath, output, libs);
      // The two removals and the two copies the first four commands make.
      var unsigned := Unsigned(fs, spec, fwkPath);
      var made := lipo(libs, unsigned);
      if made.Some? {
        fs := unsigned[output := made.value];
      } else {
        fs := unsigned;
      }
    }

    /**
     * The header merge: nothing happens unless both Swift headers exist; a header
     * that is a directory cannot be read; otherwise the device header becomes the
     * merged header and is copied into the framework's headers.
     */
    function MergeRun(fs: FS): Run {
      var sim := SwiftHeaderIn(SimulatorBuildDir);
      var dev := SwiftHeaderIn(DeviceBuildDir);
      if !(Exists(fs, sim) && Exists(fs, dev)) then Run(Ok(()), fs, [])
      else if sim !in fs then Run(Err(ReadFailed(sim)), fs, [])
      else if dev !in fs then Run(Err(ReadFailed(dev)), fs, [])
      else
        var merged := Merged(fs[sim], fs[dev]);
        Run(Ok(()), fs[dev := merged][Join(headersPath, Basename(dev)) := merged],
            ["cp -fa " + dev + " " + headersPath])
    }

    /**
     * Merges the simulator's Swift header into the device's, in place, and
     * copies the result into the framework's headers; does nothing unless both
     * headers exist.
     */
    method MergeSwiftHeader() returns (res: Result<(), Failure>)
      modifies this
      ensures var m := MergeRun(old(fs));
        res == m.res && fs == m.fs && commands == old(commands) + m.log
    {
      var sim := SwiftHeaderIn(SimulatorBuildDir);
      var dev := SwiftHeaderIn(DeviceBuildDir);
      if !(Exists(fs, sim) && Exists(fs, dev)) {
        return Ok(());
      }
      if sim !in fs {
        return Err(ReadFailed(sim));
      }
      var simLines := fs[sim];
      var items: seq<Item> := seq(|simLines|, i requires 0 <= i < |simLines| => Line(simLines[i]));
      ghost var simItems := items;
      items := [Line(SimOpen), Line(Gate)] + items;
      items := items + [Line(SimClose)];
      items := items + [Line(Else)];
      items := items + [Line(DevOpen)];
      if dev !in fs {
        return Err(ReadFailed(dev));
      }
      var devLines := fs[dev];
      items := items + [Lines(devLines)];
      items := items + [Line(DevClose)];
      items := items + [Line(EndIf)];

      // Truncate the device header and put the elements one by one.
      var written := PutEach(items);
      assert items == [Line(SimOpen), Line(Gate)] + simItems +
        [Line(SimClose), Line(Else), Line(DevOpen), Lines(devLines), Line(DevClose), Line(EndIf)];
      MergedItems(simLines, devLines);
      fs := fs[dev := written];

      commands := commands + ["cp -fa " + dev + " " + headersPath];
      fs := fs[Join(headersPath, Basename(dev)) := written];
      return Ok(());
    }

    /**
     * What the merge does to the working copy: it runs exactly when both headers
     * exist as files; it then rewrites the device header as the merged header,
     * puts a copy of it into the framework's headers, and leaves every other
     * file, the simulator header among them, as it was.  Otherwise nothing changes.
     */
    lemma MergeRunEffect(fs: FS)
      ensures var m := MergeRun(fs);
        var sim, dev := SwiftHeaderIn(SimulatorBuildDir), SwiftHeaderIn(DeviceBuildDir);
        var copy := Join(headersPath, Basename(dev));
        sim != dev &&
        (m.log != [] <==> sim in fs && dev in fs) &&
        (m.res.Err? <==> Exists(fs, sim) && Exists(fs, dev) && (sim !in fs || dev !in fs)) &&
        (m.log == [] ==> m.fs == fs) &&
        (m.log != [] ==>
          dev in m.fs && m.fs[dev] == Merged(fs[sim], fs[dev]) &&
          copy in m.fs && m.fs[copy] == m.fs[dev] &&
          (sim != copy ==> sim in m.fs && m.fs[sim] == fs[sim]) &&
          forall p :: p != dev && p != copy ==> (p in m.fs <==> p in fs) && (p in fs ==> m.fs[p] == fs[p]))
    {
      var sim, dev := SwiftHeaderIn(SimulatorBuildDir), SwiftHeaderIn(DeviceBuildDir);
      assert sim[5] == '-' && dev[5] == '/';
    }

    /** `cp -fa <bundle> <fwk>`: one resource bundle copied whole into the framework. */
    method CopyBundle(bundle: Path)
      modifies this
      ensures fs == Overlay(old(fs), bundle, BundleTarget(fwkPath, bundle), true)
      ensures commands == old(commands) + ["cp -fa " + bundle + " " + fwkPath]
    {
      commands := commands + ["cp -fa " + bundle + " " + fwkPath];
      fs := Overlay(fs, bundle, BundleTarget(fwkPath, bundle), true);
    }

    /** Copies each resource bundle of the device build into the framework, in the order found. */
    method CopyResources(bundles: seq<Path>)
      modifies this
      ensures fs == CopiedBundles(old(fs), fwkPath, bundles)
      ensures commands == old(commands) + ResourceCommands(fwkPath, bundles)
    {
      if |bundles| > 0 {
        for k := 0 to |bundles|
          invariant fs == CopiedBundles(old(fs), fwkPath, bundles[..k])
          invariant commands == old(commands) + ResourceCommands(fwkPath, bundles[..k])
        {
          CopiedBundlesStep(old(fs), fwkPath, bundles, k);
          ResourceCommandsStep(fwkPath, bundles, k);
          Regroup(old(commands), ResourceCommands(fwkPath, bundles[..k]), ["cp -fa " + bundles[k] + " " + fwkPath]);
          CopyBundle(bundles[k]);
        }
        assert bundles[..|bundles|] == bundles;
      }
    }

    /** The license copy: `cp "<license>" .` runs only when the license path exists. */
    function LicenseRun(fs: FS): Run {
      var license := LicensePath(spec);
      if Exists(fs, license) then Run(Ok(()), LicenseCopied(fs, license), ["cp \"" + license + "\" ."])
      else Run(Ok(()), fs, [])
    }

    /**
     * The license step: without a `:file` entry the license is `LICENSE`. The
     * `cp` runs exactly when the path exists. A regular file in another
     * directory is then copied into the working directory under its base name,
     * and nothing else changes. In every other case the working copy stays as it was.
     */
    lemma LicenseRunEffect(fs: FS)
      ensures var l := LicenseRun(fs);
        var license := LicensePath(spec);
        l.res.Ok? &&
        (spec.licenseFile.None? ==> license == "LICENSE") &&
        (Exists(fs, license) ==> l.log == ["cp \"" + license + "\" ."]) &&
        (!Exists(fs, license) ==> l.log == []) &&
        (license in fs && '/' in license ==>
          Basename(license) in l.fs && l.fs[Basename(license)] == fs[license] &&
          forall p :: p != Basename(license) ==> (p in l.fs <==> p in fs) && (p in fs ==> l.fs[p] == fs[p])) &&
        (!(license in fs && '/' in license) ==> l.fs == fs)
    {
      var license := LicensePath(spec);
      if '/' in license {
        assert Basename(license) != license;
      }
    }

    /** Copies the license file into the working directory when it exists. */
    method CopyLicense()
      modifies this
      ensures fs == LicenseRun(old(fs)).fs && commands == old(commands) + LicenseRun(old(fs)).log
    {
      var license := LicensePath(spec);
      if Exists(fs, license) {
        commands := commands + ["cp \"" + license + "\" ."];
        fs := LicenseCopied(fs, license);
      }
    }

    /** Replaces the framework in the source directory by the one in the platform directory. */
    method CpToSourceDir()
      modifies this
      ensures fs == Delivered(old(fs), DeliverySource(), DeliveryTarget())
      ensures commands == old(commands) + ["cp -fa " + DeliverySource() + " " + sourceDir]
    {
      var target := DeliveryTarget();
      if Exists(fs, target) {
        fs := RemoveTree(fs, target);
      } else {
        RemoveAbsent(fs, target);
      }
      commands := commands + ["cp -fa " + DeliverySource() + " " + sourceDir];
      fs := Overlay(fs, DeliverySource(), target, true);
    }

    /**
     * What follows the two builds, as a function of the working copy they leave:
     * the framework assembly, the header merge, resources, license and delivery.
     * An unreadable header ends the build after the merge.
     */
    function PackageRun(built: FS, bundles: seq<Path>): Run {
      var head := AssemblyCommands(spec, fwkPath, Output(), LipoInputs(built, spec, vendoredLibraries));
      var merge := MergeRun(AssembledFramework(built, spec, fwkPath, Output(), vendoredLibraries, lipo));
      if merge.res.Err? then
        Run(merge.res, merge.fs, head + merge.log)
      else
        var license := LicenseRun(CopiedBundles(merge.fs, fwkPath, bundles));
        Run(Ok(()), Delivered(license.fs, DeliverySource(), DeliveryTarget()),
            head + (merge.log + ResourceCommands(fwkPath, bundles) + license.log +
                    ["cp -fa " + DeliverySource() + " " + sourceDir]))
    }

    /**
     * The whole build as a function of the working copy: the device build, then
     * the simulator build, then the rest.  A failed build ends it.
     */
    function BuildRun(fs: FS, bundles: seq<Path>): Run {
      var device := xcode(DeviceCommand(), fs);
      if device.exitStatus != Some(0) then
        Run(Outcome(DeviceCommand(), device), device.after, [DeviceCommand()])
      else
        var sim := xcode(SimulatorCommand(), device.after);
        if sim.exitStatus != Some(0) then
          Run(Outcome(SimulatorCommand(), sim), sim.after, [DeviceCommand()] + [SimulatorCommand()])
        else
          var rest := PackageRun(sim.after, bundles);
          Run(rest.res, rest.fs, [DeviceCommand()] + [SimulatorCommand()] + rest.log)
    }

    /**
     * What follows the two builds starts with the assembly commands; it fails
     * only on an unreadable header, and when it succeeds its last command is
     * the delivery.
     */
    lemma PackageRunShape(built: FS, bundles: seq<Path>)
      ensures var p := PackageRun(built, bundles);
        |p.log| >= 5 && p.log[..5] == AssemblyCommands(spec, fwkPath, Output(), LipoInputs(built, spec, vendoredLibraries)) &&
        (p.res.Err? ==> p.res.error.ReadFailed?) &&
        (p.res.Ok? ==> p.log[|p.log| - 1] == "cp -fa " + DeliverySource() + " " + sourceDir)
    {
      var head := AssemblyCommands(spec, fwkPath, Output(), LipoInputs(built, spec, vendoredLibraries));
      assert |head| == 5;
      var merge := MergeRun(AssembledFramework(built, spec, fwkPath, Output(), vendoredLibraries, lipo));
      if merge.res.Err? {
        assert PackageRun(built, bundles) == Run(merge.res, merge.fs, head + merge.log);
        PrefixKept(head, merge.log);
      } else {
        var license := LicenseRun(CopiedBundles(merge.fs, fwkPath, bundles));
        var last := "cp -fa " + DeliverySource() + " " + sourceDir;
        var tail := merge.log + ResourceCommands(fwkPath, bundles) + license.log + [last];
        var log := head + tail;
        assert PackageRun(built, bundles) == Run(Ok(()), Delivered(license.fs, DeliverySource(), DeliveryTarget()), log);
        PrefixKept(head, tail);
        assert log[|log| - 1] == last;
      }
    }

    /**
     * The order of the steps: the device build runs first, the simulator build
     * second, and the rest follows only when both builds exit with status 0.
     */
    lemma BuildRunOrder(fs: FS, bundles: seq<Path>)
      ensures var run := BuildRun(fs, bundles);
        var device := xcode(DeviceCommand(), fs);
        var sim := xcode(SimulatorCommand(), device.after);
        |run.log| >= 1 && run.log[0] == DeviceCommand() &&
        (|run.log| >= 2 <==> device.exitStatus == Some(0)) &&
        (|run.log| >= 2 ==> run.log[1] == SimulatorCommand()) &&
        (|run.log| > 2 <==> device.exitStatus == Some(0) && sim.exitStatus == Some(0)) &&
        (|run.log| > 2 ==> run.log[2..] == PackageRun(sim.after, bundles).log)
    {
      var run := BuildRun(fs, bundles);
      var device := xcode(DeviceCommand(), fs);
      var sim := xcode(SimulatorCommand(), device.after);
      var head := [DeviceCommand()] + [SimulatorCommand()];
      if device.exitStatus != Some(0) {
        assert run.log == [DeviceCommand()];
      } else if sim.exitStatus != Some(0) {
        assert run.log == head;
      } else {
        var rest := PackageRun(sim.after, bundles);
        PackageRunShape(sim.after, bundles);
        assert run.log == head + rest.log;
        IndexKept(head, rest.log, 0);
        IndexKept(head, rest.log, 1);
        SliceAfter(head, rest.log, |rest.log|);
      }
    }

    /**
     * A failed `xcodebuild` ends the build with its command and output, and is
     * the only way the build fails with a build report.
     */
    lemma BuildRunFailure(fs: FS, bundles: seq<Path>)
      ensures var run := BuildRun(fs, bundles);
        var device := xcode(DeviceCommand(), fs);
        var sim := xcode(SimulatorCommand(), device.after);
        (device.exitStatus != Some(0) ==>
          run.res == Err(BuildFailed(FailureMessage(DeviceCommand(), device.output))) && run.fs == device.after) &&
        (device.exitStatus == Some(0) && sim.exitStatus != Some(0) ==>
          run.res == Err(BuildFailed(FailureMessage(SimulatorCommand(), sim.output))) && run.fs == sim.after) &&
        (run.res.Err? && run.res.error.BuildFailed? <==>
          device.exitStatus != Some(0) || sim.exitStatus != Some(0))
    {
      var device := xcode(DeviceCommand(), fs);
      var sim := xcode(SimulatorCommand(), device.after);
      if device.exitStatus == Some(0) && sim.exitStatus == Some(0) {
        PackageRunShape(sim.after, bundles);
      }
    }

    /** What follows the builds succeeds exactly when the merge does, and then leaves the delivered tree. */
    lemma PackageRunFiles(built: FS, bundles: seq<Path>)
      ensures var merge := MergeRun(AssembledFramework(built, spec, fwkPath, Output(), vendoredLibraries, lipo));
        var p := PackageRun(built, bundles);
        (p.res.Ok? <==> merge.res.Ok?) &&
        (merge.res.Ok? ==>
          p.fs == Delivered(LicenseRun(CopiedBundles(merge.fs, fwkPath, bundles)).fs, DeliverySource(), DeliveryTarget()))
    {
      var head := AssemblyCommands(spec, fwkPath, Output(), LipoInputs(built, spec, vendoredLibraries));
      var merge := MergeRun(AssembledFramework(built, spec, fwkPath, Output(), vendoredLibraries, lipo));
      if merge.res.Ok? {
        var license := LicenseRun(CopiedBundles(merge.fs, fwkPath, bundles));
        assert PackageRun(built, bundles) ==
          Run(Ok(()), Delivered(license.fs, DeliverySource(), DeliveryTarget()),
              head + (merge.log + ResourceCommands(fwkPath, bundles) + license.log +
                      ["cp -fa " + DeliverySource() + " " + sourceDir]));
      }
    }

    /** When what follows the builds succeeds, the framework in the source directory mirrors the one in the platform directory. */
    lemma PackageRunDelivers(built: FS, bundles: seq<Path>)
      requires Apart(DeliverySource(), DeliveryTarget())
      requires ShellWord(DeliverySource()) && ShellWord(sourceDir)
      ensures var p := PackageRun(built, bundles);
        p.res.Ok? ==>
          forall r :: r != [] ==>
            (Join(DeliveryTarget(), r) in p.fs <==> Join(DeliverySource(), r) in p.fs) &&
            (Join(DeliveryTarget(), r) in p.fs ==> p.fs[Join(DeliveryTarget(), r)] == p.fs[Join(DeliverySource(), r)])
    {
      var merge := MergeRun(AssembledFramework(built, spec, fwkPath, Output(), vendoredLibraries, lipo));
      if merge.res.Ok? {
        var licensed := LicenseRun(CopiedBundles(merge.fs, fwkPath, bundles)).fs;
        PackageRunFiles(built, bundles);
        DeliveredMirrors(licensed, DeliverySource(), DeliveryTarget());
      }
    }

    /**
     * A build that succeeds leaves in the source directory a copy of the
     * framework in the platform directory: every file under one is under the
     * other at the same relative path, with the same contents.
     */
    lemma BuildRunDelivers(fs: FS, bundles: seq<Path>)
      requires Apart(DeliverySource(), DeliveryTarget())
      requires ShellWord(DeliverySource()) && ShellWord(sourceDir)
      ensures var run := BuildRun(fs, bundles);
        run.res.Ok? ==>
          forall r :: r != [] ==>
            (Join(DeliveryTarget(), r) in run.fs <==> Join(DeliverySource(), r) in run.fs) &&
            (Join(DeliveryTarget(), r) in run.fs ==> run.fs[Join(DeliveryTarget(), r)] == run.fs[Join(DeliverySource(), r)])
    {
      var device := xcode(DeviceCommand(), fs);
      var sim := xcode(SimulatorCommand(), device.after);
      if device.exitStatus == Some(0) && sim.exitStatus == Some(0) {
        var rest := PackageRun(sim.after, bundles);
        assert BuildRun(fs, bundles).fs == rest.fs && BuildRun(fs, bundles).res == rest.res;
        PackageRunDelivers(sim.after, bundles);
      }
    }

    /**
     * The layout the builder's paths have in practice: the framework it
     * assembles is the one it delivers (`<platform>/<name>.framework`), its
     * headers directory is `Headers` inside it, and it lies apart from the
     * delivery target, the two build trees and the bundles. The pod's name is a
     * plain name, and each bundle has its own name, which is none of the
     * framework's own entries, and does not hold the device header. The
     * framework, the source directory and the bundles are each a single shell
     * word, as the unquoted `cp` commands need them to be.
     */
    ghost predicate FrameworkLayout(bundles: seq<Path>) {
      DeliverySource() == fwkPath && Apart(fwkPath, DeliveryTarget()) &&
      ShellWord(fwkPath) && ShellWord(sourceDir) &&
      headersPath == Join(fwkPath, "Headers") &&
      spec.name != "" && '/' !in spec.name && spec.name != CodeSignature &&
      Separate(BuiltFramework(spec, DeviceBuildDir), fwkPath) &&
      Separate(BuiltFramework(spec, SimulatorBuildDir), fwkPath) &&
      (forall j :: 0 <= j < |bundles| ==>
        ShellWord(bundles[j]) && Separate(bundles[j], fwkPath) && !Under(SwiftHeaderIn(DeviceBuildDir), bundles[j]) &&
        Basename(bundles[j]) != "" && Basename(bundles[j]) != CodeSignature &&
        Basename(bundles[j]) != "Headers" && Basename(bundles[j]) != spec.name) &&
      (forall i, j :: 0 <= i < j < |bundles| ==> Basename(bundles[i]) != Basename(bundles[j]))
    }

    /** A Swift header lies inside the framework its build made, and has a base name. */
    lemma HeaderPlace(buildDir: Path)
      ensures Under(SwiftHeaderIn(buildDir), BuiltFramework(spec, buildDir))
      ensures Basename(SwiftHeaderIn(buildDir)) != ""
    {
      var h := SwiftHeaderIn(buildDir);
      var headers := Join(BuiltFramework(spec, buildDir), "Headers");
      RelOfJoin(headers, TargetName(spec) + "-Swift.h");
      UnderNested(h, BuiltFramework(spec, buildDir), "Headers");
      assert h[|h| - 1] == 'h';
    }

    /** Where the merged header's copy lands: `Headers/<base name>` inside the framework. */
    lemma HeaderCopyPlace()
      requires headersPath == Join(fwkPath, "Headers")
      ensures var base := Basename(SwiftHeaderIn(DeviceBuildDir));
        Join(headersPath, base) == Join(fwkPath, Join("Headers", base)) &&
        Under(Join(headersPath, base), fwkPath)
    {
      var base := Basename(SwiftHeaderIn(DeviceBuildDir));
      HeaderPlace(DeviceBuildDir);
      RelOfJoin(fwkPath, Join("Headers", base));
    }

    /** The merge leaves every path but the device header and its copy as it was. */
    lemma MergeKeeps(assembled: FS, q: Path)
      requires headersPath == Join(fwkPath, "Headers")
      requires q != SwiftHeaderIn(DeviceBuildDir)
      requires q != Join(fwkPath, Join("Headers", Basename(SwiftHeaderIn(DeviceBuildDir))))
      ensures var m := MergeRun(assembled).fs;
        (q in m <==> q in assembled) && (q in assembled ==> m[q] == assembled[q])
    {
      HeaderCopyPlace();
      MergeRunEffect(assembled);
    }

    /**
     * After the builds, what the delivered framework holds at `r` is what the
     * assembled framework held at `r` once the header was merged and the
     * bundles copied: neither the license copy nor the delivery alters it.
     */
    lemma PackageRunTarget(built: FS, bundles: seq<Path>, r: Path)
      requires DeliverySource() == fwkPath && Apart(fwkPath, DeliveryTarget()) && r != []
      requires ShellWord(DeliverySource()) && ShellWord(sourceDir)
      ensures var merge := MergeRun(AssembledFramework(built, spec, fwkPath, Output(), vendoredLibraries, lipo));
        var copied := CopiedBundles(merge.fs, fwkPath, bundles);
        var p := PackageRun(built, bundles);
        (p.res.Ok? <==> merge.res.Ok?) &&
        (p.res.Ok? ==>
          (Join(DeliveryTarget(), r) in p.fs <==> Join(fwkPath, r) in copied) &&
          (Join(DeliveryTarget(), r) in p.fs ==> p.fs[Join(DeliveryTarget(), r)] == copied[Join(fwkPath, r)]))
    {
      var merge := MergeRun(AssembledFramework(built, spec, fwkPath, Output(), vendoredLibraries, lipo));
      if merge.res.Ok? {
        var copied := CopiedBundles(merge.fs, fwkPath, bundles);
        var license := LicenseRun(copied);
        PackageRunFiles(built, bundles);
        DeliveredReplica(license.fs, DeliverySource(), DeliveryTarget(), r);
        LicenseRunEffect(copied);
        var q := Join(fwkPath, r);
        assert q[|fwkPath|] == '/' && '/' in q;
        assert q != Basename(LicensePath(spec));
      }
    }

    /** A successful build delivers the binary `lipo` made, as `<name>` inside the delivered framework. */
    lemma PackageRunBinary(built: FS, bundles: seq<Path>)
      requires FrameworkLayout(bundles)
      ensures var p := PackageRun(built, bundles);
        var made := lipo(LipoInputs(built, spec, vendoredLibraries), Unsigned(built, spec, fwkPath));
        var binary := Join(DeliveryTarget(), spec.name);
        p.res.Ok? && made.Some? ==> binary in p.fs && p.fs[binary] == made.value
    {
      var assembled := AssembledFramework(built, spec, fwkPath, Output(), vendoredLibraries, lipo);
      var out := Output();
      AssembledBinary(built, spec, fwkPath, out, vendoredLibraries, lipo);
      var dev := SwiftHeaderIn(DeviceBuildDir);
      HeaderPlace(DeviceBuildDir);
      SeparateAt(BuiltFramework(spec, DeviceBuildDir), fwkPath, Rel(dev, BuiltFramework(spec, DeviceBuildDir)));
      RelOfJoin(fwkPath, spec.name);
      var base := Basename(dev);
      HeaderCopyPlace();
      JoinCompare(fwkPath, spec.name, Join("Headers", base));
      assert Join("Headers", base)[7] == '/';
      MergeRunEffect(assembled);
      var merged := MergeRun(assembled).fs;
      forall b | b in bundles
        ensures !Under(out, BundleTarget(fwkPath, b))
      {
        PlainNameApart(fwkPath, spec.name, Basename(b));
      }
      CopiedBundlesAway(merged, fwkPath, bundles, out);
      PackageRunTarget(built, bundles, spec.name);
    }

    /** Nothing of the signature directory is left once the header is merged. */
    lemma SignatureNotMerged(built: FS, q: Path)
      requires headersPath == Join(fwkPath, "Headers")
      requires spec.name != "" && '/' !in spec.name && spec.name != CodeSignature
      requires Separate(BuiltFramework(spec, DeviceBuildDir), fwkPath)
      requires q == Join(fwkPath, CodeSignature) || Under(q, Join(fwkPath, CodeSignature))
      ensures q !in MergeRun(AssembledFramework(built, spec, fwkPath, Output(), vendoredLibraries, lipo)).fs
    {
      var assembled := AssembledFramework(built, spec, fwkPath, Output(), vendoredLibraries, lipo);
      // The output binary is not the signature directory, so the assembly leaves none of it.
      JoinCompare(fwkPath, spec.name, CodeSignature);
      PlainNameApart(fwkPath, spec.name, CodeSignature);
      if q in assembled {
        AssembledUnsigned(built, spec, fwkPath, Output(), vendoredLibraries, lipo, q);
      }
      // The merge writes the device header, outside the framework, and `Headers/<base>`.
      var dev := SwiftHeaderIn(DeviceBuildDir);
      HeaderPlace(DeviceBuildDir);
      SeparateAt(BuiltFramework(spec, DeviceBuildDir), fwkPath, Rel(dev, BuiltFramework(spec, DeviceBuildDir)));
      if q == Join(fwkPath, CodeSignature) {
        RelOfJoin(fwkPath, CodeSignature);
      } else {
        UnderNested(q, fwkPath, CodeSignature);
      }
      HeadersApartFromSignature(fwkPath, Basename(dev));
      MergeKeeps(assembled, q);
    }

    /** Nothing of the signature directory is left once the bundles are copied in. */
    lemma SignatureNotCopied(built: FS, bundles: seq<Path>, r: Path)
      requires FrameworkLayout(bundles) && r != []
      ensures var merged := MergeRun(AssembledFramework(built, spec, fwkPath, Output(), vendoredLibraries, lipo)).fs;
        var copied := CopiedBundles(merged, fwkPath, bundles);
        Join(fwkPath, CodeSignature) !in copied && Join(fwkPath, Join(CodeSignature, r)) !in copied
    {
      var merged := MergeRun(AssembledFramework(built, spec, fwkPath, Output(), vendoredLibraries, lipo)).fs;
      var cs := Join(fwkPath, CodeSignature);
      RelOfJoin(cs, r);
      JoinAssoc(fwkPath, CodeSignature, r);
      SignatureNotMerged(built, cs);
      SignatureNotMerged(built, Join(cs, r));
      SignatureApartFromBundles(bundles, r);
      CopiedBundlesAway(merged, fwkPath, bundles, cs);
      CopiedBundlesAway(merged, fwkPath, bundles, Join(cs, r));
    }

    /** The signature directory and what it holds are inside no copied bundle. */
    lemma SignatureApartFromBundles(bundles: seq<Path>, r: Path)
      requires FrameworkLayout(bundles) && r != []
      ensures forall b :: b in bundles ==>
        !Under(Join(fwkPath, CodeSignature), BundleTarget(fwkPath, b)) &&
        !Under(Join(fwkPath, Join(CodeSignature, r)), BundleTarget(fwkPath, b))
    {
      forall b | b in bundles
        ensures !Under(Join(fwkPath, CodeSignature), BundleTarget(fwkPath, b)) &&
          !Under(Join(fwkPath, Join(CodeSignature, r)), BundleTarget(fwkPath, b))
      {
        PlainNameApart(fwkPath, CodeSignature, Basename(b));
        EntryApart(fwkPath, CodeSignature, Basename(b), r);
      }
    }

    /** Nothing of the signature directory reaches the delivered framework. */
    lemma PackageRunUnsigned(built: FS, bundles: seq<Path>, r: Path)
      requires FrameworkLayout(bundles) && r != []
      ensures var p := PackageRun(built, bundles);
        var signature := Join(DeliveryTarget(), CodeSignature);
        p.res.Ok? ==> signature !in p.fs && Join(signature, r) !in p.fs
    {
      JoinAssoc(DeliveryTarget(), CodeSignature, r);
      SignatureNotCopied(built, bundles, r);
      PackageRunTarget(built, bundles, CodeSignature);
      PackageRunTarget(built, bundles, Join(CodeSignature, r));
    }

    /** When both Swift headers were built, the merge puts the merged header into the framework's headers. */
    lemma HeaderMerged(built: FS)
      requires headersPath == Join(fwkPath, "Headers") && spec.name != ""
      requires Separate(BuiltFramework(spec, DeviceBuildDir), fwkPath)
      requires Separate(BuiltFramework(spec, SimulatorBuildDir), fwkPath)
      ensures var merge := MergeRun(AssembledFramework(built, spec, fwkPath, Output(), vendoredLibraries, lipo));
        var sim, dev := SwiftHeaderIn(SimulatorBuildDir), SwiftHeaderIn(DeviceBuildDir);
        var copy := Join(fwkPath, Join("Headers", Basename(dev)));
        sim in built && dev in built ==>
          merge.res.Ok? && copy in merge.fs && merge.fs[copy] == Merged(built[sim], built[dev])
    {
      var assembled := AssembledFramework(built, spec, fwkPath, Output(), vendoredLibraries, lipo);
      var sim, dev := SwiftHeaderIn(SimulatorBuildDir), SwiftHeaderIn(DeviceBuildDir);
      if sim in built && dev in built {
        HeaderPlace(DeviceBuildDir);
        HeaderPlace(SimulatorBuildDir);
        SeparateAt(BuiltFramework(spec, DeviceBuildDir), fwkPath, Rel(dev, BuiltFramework(spec, DeviceBuildDir)));
        SeparateAt(BuiltFramework(spec, SimulatorBuildDir), fwkPath, Rel(sim, BuiltFramework(spec, SimulatorBuildDir)));
        RelOfJoin(fwkPath, spec.name);
        AssembledOutside(built, spec, fwkPath, Output(), vendoredLibraries, lipo, sim);
        AssembledOutside(built, spec, fwkPath, Output(), vendoredLibraries, lipo, dev);
        HeaderCopyPlace();
        MergeRunEffect(assembled);
      }
    }

    /** When both Swift headers were built, the merged header is still in place once the bundles are copied in. */
    lemma HeaderCopied(built: FS, bundles: seq<Path>)
      requires FrameworkLayout(bundles)
      ensures var merged := MergeRun(AssembledFramework(built, spec, fwkPath, Output(), vendoredLibraries, lipo)).fs;
        var copied := CopiedBundles(merged, fwkPath, bundles);
        var sim, dev := SwiftHeaderIn(SimulatorBuildDir), SwiftHeaderIn(DeviceBuildDir);
        var copy := Join(fwkPath, Join("Headers", Basename(dev)));
        sim in built && dev in built ==> copy in copied && copied[copy] == Merged(built[sim], built[dev])
    {
      var merged := MergeRun(AssembledFramework(built, spec, fwkPath, Output(), vendoredLibraries, lipo)).fs;
      var sim, dev := SwiftHeaderIn(SimulatorBuildDir), SwiftHeaderIn(DeviceBuildDir);
      if sim in built && dev in built {
        var copy := Join(fwkPath, Join("Headers", Basename(dev)));
        assert copy in merged && merged[copy] == Merged(built[sim], built[dev]) by {
          HeaderMerged(built);
        }
        assert forall b :: b in bundles ==> !Under(copy, BundleTarget(fwkPath, b)) by {
          HeaderPlace(DeviceBuildDir);
          HeaderApartFromBundles(bundles, Basename(dev));
        }
        CopiedBundlesAway(merged, fwkPath, bundles, copy);
      }
    }

    /** A file in the framework's headers is not inside any copied bundle. */
    lemma HeaderApartFromBundles(bundles: seq<Path>, base: Path)
      requires FrameworkLayout(bundles) && base != []
      ensures forall b :: b in bundles ==> !Under(Join(fwkPath, Join("Headers", base)), BundleTarget(fwkPath, b))
    {
      forall b | b in bundles
        ensures !Under(Join(fwkPath, Join("Headers", base)), BundleTarget(fwkPath, b))
      {
        EntryApart(fwkPath, "Headers", Basename(b), base);
      }
    }

    /**
     * When both Swift headers were built, the delivered framework carries the
     * merged header as `Headers/<target>-Swift.h`.
     */
    lemma PackageRunHeader(built: FS, bundles: seq<Path>)
      requires FrameworkLayout(bundles)
      ensures var p := PackageRun(built, bundles);
        var sim, dev := SwiftHeaderIn(SimulatorBuildDir), SwiftHeaderIn(DeviceBuildDir);
        var header := Join(DeliveryTarget(), Join("Headers", Basename(dev)));
        p.res.Ok? && sim in built && dev in built ==>
          header in p.fs && p.fs[header] == Merged(built[sim], built[dev])
    {
      HeaderCopied(built, bundles);
      PackageRunTarget(built, bundles, Join("Headers", Basename(SwiftHeaderIn(DeviceBuildDir))));
    }

    /**
     * Every file of every bundle reaches the delivered framework, under the
     * bundle's name, with the contents the builds left.
     */
    lemma PackageRunBundle(built: FS, bundles: seq<Path>, i: nat, r: Path)
      requires FrameworkLayout(bundles) && i < |bundles| && r != []
      ensures var p := PackageRun(built, bundles);
        var from := Join(bundles[i], r);
        var delivered := Join(DeliveryTarget(), Join(Basename(bundles[i]), r));
        p.res.Ok? && from in built ==> delivered in p.fs && p.fs[delivered] == built[from]
    {
      var assembled := AssembledFramework(built, spec, fwkPath, Output(), vendoredLibraries, lipo);
      var merged := MergeRun(assembled).fs;
      var b, x := bundles[i], Basename(bundles[i]);
      if Join(b, r) in built {
        BundleFileKept(built, b, r);
        BundleCopiedAt(merged, fwkPath, bundles, i, r);
        JoinAssoc(fwkPath, x, r);
        PackageRunTarget(built, bundles, Join(x, r));
      }
    }

    /** A bundle's file comes through the assembly and the merge untouched. */
    lemma BundleFileKept(built: FS, b: Path, r: Path)
      requires Separate(b, fwkPath) && !Under(SwiftHeaderIn(DeviceBuildDir), b) && r != []
      requires headersPath == Join(fwkPath, "Headers") && spec.name != ""
      ensures var assembled := AssembledFramework(built, spec, fwkPath, Output(), vendoredLibraries, lipo);
        var merged := MergeRun(assembled).fs;
        var from := Join(b, r);
        (from in merged <==> from in built) && (from in built ==> merged[from] == built[from])
    {
      var assembled := AssembledFramework(built, spec, fwkPath, Output(), vendoredLibraries, lipo);
      var from := Join(b, r);
      SeparateAt(b, fwkPath, r);
      RelOfJoin(fwkPath, spec.name);
      AssembledOutside(built, spec, fwkPath, Output(), vendoredLibraries, lipo, from);
      RelOfJoin(b, r);
      HeaderCopyPlace();
      MergeKeeps(assembled, from);
    }

    /**
     * What a successful build delivers to the source directory, as
     * `<name>.framework`: the binary `lipo` made from the two builds, no
     * signature directory, the merged Swift header and every file of every
     * bundle.
     */
    lemma BuildRunFramework(fs: FS, bundles: seq<Path>)
      requires FrameworkLayout(bundles)
      ensures var run := BuildRun(fs, bundles);
        var built := xcode(SimulatorCommand(), xcode(DeviceCommand(), fs).after).after;
        var target := DeliveryTarget();
        var made := lipo(LipoInputs(built, spec, vendoredLibraries), Unsigned(built, spec, fwkPath));
        var sim, dev := SwiftHeaderIn(SimulatorBuildDir), SwiftHeaderIn(DeviceBuildDir);
        var header := Join(target, Join("Headers", Basename(dev)));
        run.res.Ok? ==>
          (made.Some? ==> Join(target, spec.name) in run.fs && run.fs[Join(target, spec.name)] == made.value) &&
          Join(target, CodeSignature) !in run.fs &&
          (forall r :: r != [] ==> Join(Join(target, CodeSignature), r) !in run.fs) &&
          (sim in built && dev in built ==> header in run.fs && run.fs[header] == Merged(built[sim], built[dev])) &&
          (forall i, r :: 0 <= i < |bundles| && r != [] && Join(bundles[i], r) in built ==>
            Join(target, Join(Basename(bundles[i]), r)) in run.fs &&
            run.fs[Join(target, Join(Basename(bundles[i]), r))] == built[Join(bundles[i], r)])
    {
      var device := xcode(DeviceCommand(), fs);
      var sim := xcode(SimulatorCommand(), device.after);
      if device.exitStatus == Some(0) && sim.exitStatus == Some(0) {
        var built := sim.after;
        var rest := PackageRun(built, bundles);
        assert BuildRun(fs, bundles).fs == rest.fs && BuildRun(fs, bundles).res == rest.res;
        PackageRunBinary(built, bundles);
        PackageRunHeader(built, bundles);
        PackageRunUnsigned(built, bundles, CodeSignature);
        forall r | r != []
          ensures rest.res.Ok? ==> Join(Join(DeliveryTarget(), CodeSignature), r) !in rest.fs
        {
          PackageRunUnsigned(built, bundles, r);
        }
        forall i, r | 0 <= i < |bundles| && r != [] && Join(bundles[i], r) in built
          ensures rest.res.Ok? ==>
            (Join(DeliveryTarget(), Join(Basename(bundles[i]), r)) in rest.fs &&
             rest.fs[Join(DeliveryTarget(), Join(Basename(bundles[i]), r))] == built[Join(bundles[i], r)])
        {
          PackageRunBundle(built, bundles, i, r);
        }
      }
    }

    /** Runs the whole build on the working copy. */
    method Build(bundles: seq<Path>) returns (res: Result<(), Failure>)
      modifies this
      ensures var run := BuildRun(old(fs), bundles);
        res == run.res && fs == run.fs && commands == old(commands) + run.log
    {
      ghost var before := commands;
      var compiled := Compile();
      if compiled.Err? {
        return Err(compiled.error);
      }
      var defines := compiled.value;
      var sim := BuildSimDynamicFramework(defines);
      ghost var head := [DeviceCommand()] + [SimulatorCommand()];
      Regroup(before, [DeviceCommand()], [SimulatorCommand()]);
      if sim.Err? {
        return sim;
      }
      ghost var mid, built := commands, fs;
      var output := Output();
      BuildDynamicFrameworkForIos(output);
      ghost var assembly := AssemblyCommands(spec, fwkPath, output, LipoInputs(built, spec, vendoredLibraries));
      ghost var assembled, afterAssembly := fs, commands;
      var merged := MergeSwiftHeader();
      ghost var tail := MergeRun(assembled).log;
      if merged.Err? {
        Regroup(mid, assembly, tail);
        Regroup(before, head, assembly + tail);
        return merged;
      }
      CopyResources(bundles);
      Regroup(afterAssembly, tail, ResourceCommands(fwkPath, bundles));
      tail := tail + ResourceCommands(fwkPath, bundles);
      ghost var resources := fs;
      CopyLicense();
      Regroup(afterAssembly, tail, LicenseRun(resources).log);
      tail := tail + LicenseRun(resources).log;
      CpToSourceDir();
      Regroup(afterAssembly, tail, ["cp -fa " + DeliverySource() + " " + sourceDir]);
      tail := tail + ["cp -fa " + DeliverySource() + " " + sourceDir];
      Regroup(mid, assembly, tail);
      Regroup(before, head, assembly + tail);
      return Ok(());
    }
  }
}
