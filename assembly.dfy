/**
 * What the builder's file-system steps do, as functions of the working copy:
 * the inputs handed to `lipo`, the universal framework assembled from the two
 * build trees, the resource bundles copied into it, the license copy and the
 * delivery of the framework into the pod's source directory.  The lemmas state
 * the layout each step leaves behind.
 */
module Assembly {
  import opened Results
  import opened Text
  import opened FileSystem
  import opened BuildSettings

  const DeviceBuildDir := "build"
  const SimulatorBuildDir := "build-simulator"
  const CodeSignature := "_CodeSignature"
  const DefaultLicense := "LICENSE"

  /** The framework directory one build leaves in `buildDir`. */
  function BuiltFramework(spec: PodSpec, buildDir: Path): Path {
    Join(buildDir, FrameworkName(spec))
  }

  /** The binary inside the framework one build leaves in `buildDir`. */
  function BuiltBinary(spec: PodSpec, buildDir: Path): Path {
    Join(BuiltFramework(spec, buildDir), spec.name)
  }

  /** The match list of the glob for the built binary: the binary itself, if there is one. */
  function LibsInSandbox(fs: FS, spec: PodSpec, buildDir: Path): (r: seq<Path>)
    ensures Exists(fs, BuiltBinary(spec, buildDir)) ==> r == [BuiltBinary(spec, buildDir)]
    ensures !Exists(fs, BuiltBinary(spec, buildDir)) ==> r == []
  {
    var binary := BuiltBinary(spec, buildDir);
    if Exists(fs, binary) then [binary] else []
  }

  /** The binaries `lipo` joins: the device build's, then the simulator build's, then the vendored ones. */
  function LipoInputs(fs: FS, spec: PodSpec, vendored: seq<Path>): seq<Path> {
    LibsInSandbox(fs, spec, DeviceBuildDir) + LibsInSandbox(fs, spec, SimulatorBuildDir) + vendored
  }

  /**
   * The order of the `lipo` inputs: the device binary (when built) comes first,
   * the simulator binary (when built) next, and every vendored library last, all
   * of them in their given order and none dropped for its architectures.
   */
  lemma LipoInputsOrder(fs: FS, spec: PodSpec, vendored: seq<Path>)
    ensures var dev := Exists(fs, BuiltBinary(spec, DeviceBuildDir));
      var sim := Exists(fs, BuiltBinary(spec, SimulatorBuildDir));
      var n := (if dev then 1 else 0) + (if sim then 1 else 0);
      var r := LipoInputs(fs, spec, vendored);
      |r| == n + |vendored| && r[n..] == vendored &&
      (dev ==> r[0] == BuiltBinary(spec, DeviceBuildDir)) &&
      (sim ==> r[n - 1] == BuiltBinary(spec, SimulatorBuildDir))
  {
  }

  /** The commands the framework assembly runs, in order. */
  function AssemblyCommands(spec: PodSpec, fwk: Path, output: Path, libs: seq<Path>): seq<string> {
    ["rm -rf " + fwk + "/*",
     "cp -fRap " + BuiltFramework(spec, SimulatorBuildDir) + "/* " + fwk + "/",
     "cp -fRap " + BuiltFramework(spec, DeviceBuildDir) + "/* " + fwk + "/",
     "rm -rf " + Join(fwk, CodeSignature),
     LipoCommand(output, libs)]
  }

  /** The framework directory emptied and filled with the simulator tree, then the device tree on top. */
  function Overlaid(fs: FS, spec: PodSpec, fwk: Path): FS {
    var cleared := ClearEntries(fs, fwk);
    var withSim := Overlay(cleared, BuiltFramework(spec, SimulatorBuildDir), fwk, false);
    Overlay(withSim, BuiltFramework(spec, DeviceBuildDir), fwk, false)
  }

  /** The overlaid framework without its signature directory. */
  function Unsigned(fs: FS, spec: PodSpec, fwk: Path): FS {
    RemoveTree(Overlaid(fs, spec, fwk), Join(fwk, CodeSignature))
  }

  /**
   * The framework directory `fwk` after assembly: emptied, filled from the
   * simulator tree, overlaid with the device tree, stripped of the signature
   * directory, and given the binary `lipo` makes from the inputs found before.
   */
  function AssembledFramework(fs: FS, spec: PodSpec, fwk: Path, output: Path, vendored: seq<Path>,
                              lipo: (seq<Path>, FS) -> Option<seq<string>>): FS
  {
    var unsigned := Unsigned(fs, spec, fwk);
    match lipo(LipoInputs(fs, spec, vendored), unsigned)
    case Some(binary) => unsigned[output := binary]
    case None => unsigned
  }

  /** Nothing under the directory `tree` lies under `dir`. */
  ghost predicate Separate(tree: Path, dir: Path) {
    forall q :: Under(q, tree) ==> !Under(q, dir)
  }

  /** Paths joined onto one directory compare as their relative parts do. */
  lemma JoinCompare(dir: Path, a: Path, b: Path)
    requires a != [] && b != []
    ensures Join(dir, a) == Join(dir, b) <==> a == b
    ensures Under(Join(dir, a), Join(dir, b)) <==> Under(a, b)
  {
    RelOfJoin(dir, a);
    RelOfJoin(dir, b);
    var k := |dir| + 1;
    var pa, pb := Join(dir, a), Join(dir, b);
    assert pa[k..] == a && pb[k..] == b;
    if Under(pa, pb) {
      assert pa[k..][..|b| + 1] == pa[..|pb| + 1][k..];
    }
    if Under(a, b) {
      assert pa[..|pb| + 1] == pa[..k] + a[..|b| + 1];
    }
  }

  /** `Separate` applied to one relative path. */
  lemma SeparateAt(tree: Path, dir: Path, r: Path)
    requires Separate(tree, dir) && r != []
    ensures !Under(Join(tree, r), dir)
  {
    RelOfJoin(tree, r);
  }

  /** After the two copies, a non-hidden entry holds the device file if there is one, else the simulator file. */
  lemma OverlaidAt(fs: FS, spec: PodSpec, fwk: Path, r: Path)
    requires r != [] && !Hidden(r)
    requires Separate(BuiltFramework(spec, DeviceBuildDir), fwk)
    requires Separate(BuiltFramework(spec, SimulatorBuildDir), fwk)
    ensures var o := Overlaid(fs, spec, fwk);
      var p := Join(fwk, r);
      var dev := Join(BuiltFramework(spec, DeviceBuildDir), r);
      var sim := Join(BuiltFramework(spec, SimulatorBuildDir), r);
      (p in o <==> dev in fs || sim in fs) &&
      (p in o ==> o[p] == if dev in fs then fs[dev] else fs[sim])
  {
    var devTree := BuiltFramework(spec, DeviceBuildDir);
    var simTree := BuiltFramework(spec, SimulatorBuildDir);
    var p, dev, sim := Join(fwk, r), Join(devTree, r), Join(simTree, r);
    var cleared := ClearEntries(fs, fwk);
    var withSim := Overlay(cleared, simTree, fwk, false);
    RelOfJoin(fwk, r);
    SeparateAt(devTree, fwk, r);
    SeparateAt(simTree, fwk, r);
    assert p !in cleared;
    assert dev in cleared <==> dev in fs;
    assert sim in cleared <==> sim in fs;
    OverlayInside(cleared, simTree, fwk, false, r);
    OverlayOutside(cleared, simTree, fwk, false, dev);
    OverlayInside(withSim, devTree, fwk, false, r);
  }

  /** Removing the signature directory leaves every other entry of the framework as it was. */
  lemma UnsignedAt(fs: FS, spec: PodSpec, fwk: Path, r: Path)
    requires r != [] && r != CodeSignature && !Under(r, CodeSignature)
    ensures var o := Overlaid(fs, spec, fwk);
      var u := Unsigned(fs, spec, fwk);
      var p := Join(fwk, r);
      (p in u <==> p in o) && (p in u ==> u[p] == o[p])
  {
    JoinCompare(fwk, r, CodeSignature);
  }

  /**
   * Device files win: a non-hidden entry of the framework other than the
   * signature directory and the binary holds the device tree's file where the
   * device build made one, else the simulator tree's, and nothing if neither
   * build made one (stale contents do not survive).
   */
  lemma AssembledFrameworkAt(fs: FS, spec: PodSpec, fwk: Path, output: Path, vendored: seq<Path>,
                             lipo: (seq<Path>, FS) -> Option<seq<string>>, r: Path)
    requires r != [] && !Hidden(r) && r != CodeSignature && !Under(r, CodeSignature)
    requires Join(fwk, r) != output
    requires Separate(BuiltFramework(spec, DeviceBuildDir), fwk)
    requires Separate(BuiltFramework(spec, SimulatorBuildDir), fwk)
    ensures var a := AssembledFramework(fs, spec, fwk, output, vendored, lipo);
      var p := Join(fwk, r);
      var dev := Join(BuiltFramework(spec, DeviceBuildDir), r);
      var sim := Join(BuiltFramework(spec, SimulatorBuildDir), r);
      (p in a <==> dev in fs || sim in fs) &&
      (p in a ==> a[p] == if dev in fs then fs[dev] else fs[sim])
  {
    OverlaidAt(fs, spec, fwk, r);
    UnsignedAt(fs, spec, fwk, r);
    AssembledOnlyBinary(fs, spec, fwk, output, vendored, lipo, Join(fwk, r));
  }

  /** No signature directory, and nothing inside one, is left in the assembled framework. */
  lemma AssembledUnsigned(fs: FS, spec: PodSpec, fwk: Path, output: Path, vendored: seq<Path>,
                          lipo: (seq<Path>, FS) -> Option<seq<string>>, q: Path)
    requires output != Join(fwk, CodeSignature) && !Under(output, Join(fwk, CodeSignature))
    requires q in AssembledFramework(fs, spec, fwk, output, vendored, lipo)
    ensures q != Join(fwk, CodeSignature) && !Under(q, Join(fwk, CodeSignature))
  {
  }

  /** The binary in the assembled framework is the one `lipo` made, not one copied from a build tree. */
  lemma AssembledBinary(fs: FS, spec: PodSpec, fwk: Path, output: Path, vendored: seq<Path>,
                        lipo: (seq<Path>, FS) -> Option<seq<string>>)
    ensures var a := AssembledFramework(fs, spec, fwk, output, vendored, lipo);
      var unsigned := Unsigned(fs, spec, fwk);
      var made := lipo(LipoInputs(fs, spec, vendored), unsigned);
      (made.Some? ==> output in a && a[output] == made.value) &&
      (made.None? ==> a == unsigned)
  {
  }

  /** Apart from the binary, the assembled framework is the unsigned overlay. */
  lemma AssembledOnlyBinary(fs: FS, spec: PodSpec, fwk: Path, output: Path, vendored: seq<Path>,
                            lipo: (seq<Path>, FS) -> Option<seq<string>>, p: Path)
    requires p != output
    ensures var a := AssembledFramework(fs, spec, fwk, output, vendored, lipo);
      var u := Unsigned(fs, spec, fwk);
      (p in a <==> p in u) && (p in u ==> a[p] == u[p])
  {
    var u := Unsigned(fs, spec, fwk);
    var made := lipo(LipoInputs(fs, spec, vendored), u);
    assert AssembledFramework(fs, spec, fwk, output, vendored, lipo) ==
      if made.Some? then u[output := made.value] else u;
  }

  /** Outside the framework directory the assembly changes nothing. */
  lemma AssembledOutside(fs: FS, spec: PodSpec, fwk: Path, output: Path, vendored: seq<Path>,
                         lipo: (seq<Path>, FS) -> Option<seq<string>>, p: Path)
    requires !Under(p, fwk) && p != output
    ensures var a := AssembledFramework(fs, spec, fwk, output, vendored, lipo);
      (p in a <==> p in fs) && (p in fs ==> a[p] == fs[p])
  {
    OverlaidOutside(fs, spec, fwk, p);
    AssembledOnlyBinary(fs, spec, fwk, output, vendored, lipo, p);
    UnsignedOutside(fs, spec, fwk, p);
  }

  lemma UnsignedOutside(fs: FS, spec: PodSpec, fwk: Path, p: Path)
    requires !Under(p, fwk)
    ensures var o := Overlaid(fs, spec, fwk);
      var u := Unsigned(fs, spec, fwk);
      (p in u <==> p in o) && (p in u ==> u[p] == o[p])
  {
    var cs := Join(fwk, CodeSignature);
    RelOfJoin(fwk, CodeSignature);
    if Under(p, cs) {
      UnderNested(p, fwk, CodeSignature);
    }
  }

  lemma OverlaidOutside(fs: FS, spec: PodSpec, fwk: Path, p: Path)
    requires !Under(p, fwk)
    ensures var o := Overlaid(fs, spec, fwk);
      (p in o <==> p in fs) && (p in fs ==> o[p] == fs[p])
  {
    var cleared := ClearEntries(fs, fwk);
    var withSim := Overlay(cleared, BuiltFramework(spec, SimulatorBuildDir), fwk, false);
    OverlayOutside(cleared, BuiltFramework(spec, SimulatorBuildDir), fwk, false, p);
    OverlayOutside(withSim, BuiltFramework(spec, DeviceBuildDir), fwk, false, p);
  }

  /** Nothing under the directory `tree` is, or lies under, `dir`. */
  ghost predicate Apart(tree: Path, dir: Path) {
    forall q :: Under(q, tree) ==> q != dir && !Under(q, dir)
  }

  /** `FileUtils.rm_rf(target)` and then `cp -fa src <destination>`, where `target` is the copy's place. */
  function Delivered(fs: FS, src: Path, target: Path): FS {
    Overlay(RemoveTree(fs, target), src, target, true)
  }

  /** Removing what does not exist changes nothing: the existence test before `rm_rf` is immaterial. */
  lemma RemoveAbsent(fs: FS, p: Path)
    requires !Exists(fs, p)
    ensures RemoveTree(fs, p) == fs
  {
  }

  /**
   * Replace, not merge: after delivery the destination holds exactly the files
   * of the framework it was copied from, hidden ones included, and nothing
   * that was at the destination before; everything elsewhere is unchanged.
   */
  lemma DeliveredReplica(fs: FS, src: Path, target: Path, r: Path)
    requires Apart(src, target) && r != []
    ensures var d := Delivered(fs, src, target);
      var from := Join(src, r);
      var p := Join(target, r);
      (p in d <==> from in fs) && (p in d ==> d[p] == fs[from]) && target !in d
  {
    var removed := RemoveTree(fs, target);
    var from := Join(src, r);
    RelOfJoin(src, r);
    assert from in removed <==> from in fs;
    RelOfJoin(target, r);
    assert Join(target, r) !in removed;
    OverlayInside(removed, src, target, true, r);
    OverlayOutside(removed, src, target, true, target);
  }

  /** After delivery the destination and the framework it was copied from hold the same files. */
  lemma DeliveredMirrors(fs: FS, src: Path, target: Path)
    requires Apart(src, target)
    ensures var d := Delivered(fs, src, target);
      forall r :: r != [] ==>
        (Join(target, r) in d <==> Join(src, r) in d) &&
        (Join(target, r) in d ==> d[Join(target, r)] == d[Join(src, r)])
  {
    forall r | r != []
      ensures var d := Delivered(fs, src, target);
        (Join(target, r) in d <==> Join(src, r) in d) &&
        (Join(target, r) in d ==> d[Join(target, r)] == d[Join(src, r)])
    {
      DeliveredReplica(fs, src, target, r);
      RelOfJoin(src, r);
      DeliveredOutside(fs, src, target, Join(src, r));
    }
  }

  /** Delivery touches nothing outside the destination. */
  lemma DeliveredOutside(fs: FS, src: Path, target: Path, p: Path)
    requires p != target && !Under(p, target)
    ensures var d := Delivered(fs, src, target);
      (p in d <==> p in fs) && (p in fs ==> d[p] == fs[p])
  {
    OverlayOutside(RemoveTree(fs, target), src, target, true, p);
  }

  /** The license file the specification names, or `LICENSE` when it names none. */
  function LicensePath(spec: PodSpec): Path {
    match spec.licenseFile
    case Some(f) => f
    case None => DefaultLicense
  }

  /**
   * `cp "<license>" .`: a regular file in another directory is copied, under its
   * own name, into the working directory; `cp` refuses a directory and a file
   * that is already there.
   */
  function LicenseCopied(fs: FS, license: Path): (r: FS)
    ensures '/' !in license ==> r == fs
    ensures license in fs && Basename(license) != license ==>
      r == fs[Basename(license) := fs[license]]
  {
    if license in fs && Basename(license) != license then fs[Basename(license) := fs[license]] else fs
  }

  /** The commands the resource copy runs: one `cp -fa` per bundle, in order. */
  function ResourceCommands(fwk: Path, bundles: seq<Path>): seq<string> {
    seq(|bundles|, i requires 0 <= i < |bundles| => "cp -fa " + bundles[i] + " " + fwk)
  }

  /** Where `cp -fa <bundle> <fwk>` puts a resource bundle: under its own name inside the framework. */
  function BundleTarget(fwk: Path, bundle: Path): Path {
    Join(fwk, Basename(bundle))
  }

  /** The resource bundles copied into the framework one after the other. */
  function CopiedBundles(fs: FS, fwk: Path, bundles: seq<Path>): FS
    decreases |bundles|
  {
    if bundles == [] then fs
    else
      var last := bundles[|bundles| - 1];
      Overlay(CopiedBundles(fs, fwk, bundles[..|bundles| - 1]), last, BundleTarget(fwk, last), true)
  }

  /** Copying one more bundle overlays it on what the earlier ones left. */
  lemma CopiedBundlesStep(fs: FS, fwk: Path, bundles: seq<Path>, k: nat)
    requires k < |bundles|
    ensures CopiedBundles(fs, fwk, bundles[..k + 1]) ==
      Overlay(CopiedBundles(fs, fwk, bundles[..k]), bundles[k], BundleTarget(fwk, bundles[k]), true)
  {
    assert bundles[..k + 1][..k] == bundles[..k];
  }

  /** One more bundle adds its own `cp` command at the end. */
  lemma ResourceCommandsStep(fwk: Path, bundles: seq<Path>, k: nat)
    requires k < |bundles|
    ensures ResourceCommands(fwk, bundles[..k + 1]) == ResourceCommands(fwk, bundles[..k]) + ["cp -fa " + bundles[k] + " " + fwk]
  {
  }

  /** Copying the bundles changes nothing outside the framework directory. */
  lemma {:induction false} CopiedBundlesOutside(fs: FS, fwk: Path, bundles: seq<Path>, p: Path)
    requires !Under(p, fwk)
    ensures var c := CopiedBundles(fs, fwk, bundles);
      (p in c <==> p in fs) && (p in fs ==> c[p] == fs[p])
    decreases |bundles|
  {
    if bundles != [] {
      var n := |bundles| - 1;
      var last, init := bundles[n], bundles[..n];
      var prev := CopiedBundles(fs, fwk, init);
      assert CopiedBundles(fs, fwk, bundles) == Overlay(prev, last, BundleTarget(fwk, last), true);
      CopiedBundlesOutside(fs, fwk, init, p);
      if Under(p, BundleTarget(fwk, last)) {
        UnderNested(p, fwk, Basename(last));
      }
      OverlayOutside(prev, last, BundleTarget(fwk, last), true, p);
    }
  }

  /**
   * A path that lies under no bundle's target keeps what it held before the
   * bundles were copied.
   */
  lemma {:induction false} CopiedBundlesAway(fs: FS, fwk: Path, bundles: seq<Path>, p: Path)
    requires forall b :: b in bundles ==> !Under(p, BundleTarget(fwk, b))
    ensures var c := CopiedBundles(fs, fwk, bundles);
      (p in c <==> p in fs) && (p in fs ==> c[p] == fs[p])
    decreases |bundles|
  {
    if bundles != [] {
      var n := |bundles| - 1;
      var last, init := bundles[n], bundles[..n];
      var prev := CopiedBundles(fs, fwk, init);
      assert CopiedBundles(fs, fwk, bundles) == Overlay(prev, last, BundleTarget(fwk, last), true);
      CopiedBundlesAway(fs, fwk, init, p);
      OverlayOutside(prev, last, BundleTarget(fwk, last), true, p);
    }
  }

  /** Two different names without a slash never nest. */
  lemma DistinctNamesApart(x: Path, y: Path, r: Path)
    requires '/' !in x && '/' !in y && x != y
    ensures !Under(Join(x, r), y)
  {
    var p := Join(x, r);
    if |y| < |x| {
      assert p[|y|] == x[|y|] && x[|y|] in x;
      assert (y + "/")[|y|] == '/';
    } else if |y| > |x| {
      assert p[|x|] == '/' && y[|x|] in y;
      assert |p| > |y| + 1 ==> p[..|y| + 1][|x|] == '/';
    } else {
      assert p[..|y| + 1][..|y|] == x;
      assert (y + "/")[..|y|] == y;
    }
  }

  /** Inside a directory, what lies in the entry named `x` lies outside the entry named `y`. */
  lemma EntryApart(fwk: Path, x: Path, y: Path, r: Path)
    requires '/' !in x && '/' !in y && x != y && y != "" && r != []
    ensures !Under(Join(fwk, Join(x, r)), Join(fwk, y))
  {
    JoinCompare(fwk, Join(x, r), y);
    DistinctNamesApart(x, y, r);
  }

  /** A file of the `Headers` directory is neither the signature directory nor inside it. */
  lemma HeadersApartFromSignature(fwk: Path, base: Path)
    requires base != ""
    ensures var file := Join(fwk, Join("Headers", base));
      file != Join(fwk, CodeSignature) && !Under(file, Join(fwk, CodeSignature))
  {
    JoinCompare(fwk, CodeSignature, Join("Headers", base));
    assert CodeSignature[0] == '_' && Join("Headers", base)[0] == 'H';
    EntryApart(fwk, "Headers", CodeSignature, base);
  }

  /** A name without a slash never lies inside another entry of the same directory. */
  lemma PlainNameApart(fwk: Path, name: Path, y: Path)
    requires '/' !in name && name != "" && y != ""
    ensures !Under(Join(fwk, name), Join(fwk, y))
  {
    JoinCompare(fwk, name, y);
    if |y| + 1 < |name| {
      assert name[..|y| + 1][|y|] == name[|y|] && name[|y|] in name;
      assert (y + "/")[|y|] == '/';
    }
  }

  /** An entry of one bundle's target lies outside the target of a bundle with another name. */
  lemma TargetsApart(fwk: Path, a: Path, b: Path, r: Path)
    requires Basename(a) != "" && Basename(b) != "" && Basename(a) != Basename(b) && r != []
    ensures !Under(Join(BundleTarget(fwk, a), r), BundleTarget(fwk, b))
  {
    var x, y := Basename(a), Basename(b);
    assert Join(BundleTarget(fwk, a), r) == Join(fwk, Join(x, r));
    EntryApart(fwk, x, y, r);
  }

  /** The last bundle's entries land under its target. */
  lemma BundleCopiedLast(fs: FS, fwk: Path, bundles: seq<Path>, r: Path)
    requires bundles != [] && r != []
    requires forall j :: 0 <= j < |bundles| ==> Separate(bundles[j], fwk)
    requires Join(bundles[|bundles| - 1], r) in fs
    ensures var c := CopiedBundles(fs, fwk, bundles);
      var p := Join(BundleTarget(fwk, bundles[|bundles| - 1]), r);
      p in c && c[p] == fs[Join(bundles[|bundles| - 1], r)]
  {
    var n := |bundles| - 1;
    var last, init := bundles[n], bundles[..n];
    SeparateAt(last, fwk, r);
    CopiedBundlesOutside(fs, fwk, init, Join(last, r));
    OverlayInside(CopiedBundles(fs, fwk, init), last, BundleTarget(fwk, last), true, r);
  }

  /**
   * Each resource bundle arrives whole inside the framework, under its own
   * name, unless a later bundle of the same name replaces it; the bundles live
   * outside the framework, so copying one never alters another.
   */
  lemma {:induction false} BundleCopiedAt(fs: FS, fwk: Path, bundles: seq<Path>, i: nat, r: Path)
    requires i < |bundles| && r != []
    requires forall j :: 0 <= j < |bundles| ==> Separate(bundles[j], fwk) && Basename(bundles[j]) != ""
    requires forall j :: i < j < |bundles| ==> Basename(bundles[j]) != Basename(bundles[i])
    requires Join(bundles[i], r) in fs
    ensures var c := CopiedBundles(fs, fwk, bundles);
      var p := Join(BundleTarget(fwk, bundles[i]), r);
      p in c && c[p] == fs[Join(bundles[i], r)]
    decreases |bundles|
  {
    var n := |bundles| - 1;
    var last := bundles[n];
    var init := bundles[..n];
    var prev := CopiedBundles(fs, fwk, init);
    if i == n {
      BundleCopiedLast(fs, fwk, bundles, r);
    } else {
      BundleCopiedAt(fs, fwk, init, i, r);
      TargetsApart(fwk, bundles[i], last, r);
      OverlayOutside(prev, last, BundleTarget(fwk, last), true, Join(BundleTarget(fwk, bundles[i]), r));
    }
  }
}
