# cocoapods-bin framework builder, modelled in Dafny

This project models `CBin::Framework::Builder` from cocoapods-bin, the helper
that packages a CocoaPods pod as a universal iOS dynamic framework. It does this
in six steps:

1. It runs `xcodebuild` twice. The device build goes into `build`, for the
   architectures `x86_64 arm64 armv7 armv7s i386`. The simulator build goes
   into `build-simulator`.
2. It assembles the framework directory from the two build trees. The
   directory's entries are removed, except hidden ones, which `rm -rf dir/*`
   does not match. It is filled with the simulator tree, then overlaid with
   the device tree. `_CodeSignature` is removed, and `lipo` writes the
   universal binary last.
3. It merges the two generated `<target>-Swift.h` headers into one, gated by
   `#if TARGET_IPHONE_SIMULATOR … #else … #endif`, and copies it into the
   framework's headers.
4. It copies the resource bundles into the framework.
5. It copies the license into the working directory.
6. It replaces the framework in the pod's source directory with the new one.

The model is organised as follows:

- **Working copy.** It is a map from file paths to their lines (`FileSystem.FS`).
  Directories are implied by path prefixes. `cp`, `cp src/* dst/`, `rm -rf` and
  `rm -rf dir/*` are modelled as functions on that map (`filesystem.dfy`).
- **Tools.** `xcodebuild` and `lipo` are external. The builder is given them as
  functions:
  - A command line and a working copy yield an exit status, output lines and a
    new working copy.
  - The `lipo` inputs yield the universal binary, or nothing.
- **Builder.** `FrameworkBuilder.Builder` is a class. It holds the working
  copy `fs` and the log `commands` of every shell command run, in order. Its
  methods update both, as the Ruby methods update the disk.
- **Specifications.** Each method is specified against a function of the
  working copy it starts from: `MergeRun`, `LicenseRun`, `CopiedBundles`,
  `AssembledFramework`, `Delivered`, and for the whole build `BuildRun`. The
  lemmas state what those functions guarantee.
- **Pure parts.** Names, build settings and command lines are string functions
  with read-back lemmas (`settings.dfy`). The header merge is a sequence
  function (`swift_header.dfy`). It comes with a small model of the
  preprocessor's conditional directives, which shows what each side of the gate
  compiles.

Behaviour of the code worth knowing:

- The device build (`compile`) runs before the simulator build.
- Among the shell commands, only a failed `xcodebuild` stops the build. Its
  exit status can be non-zero, or missing when the process was killed. A Swift
  header path that is a directory also ends the build, because it cannot be
  read (`ReadFailed`). The other commands run in backticks, and their failures
  are ignored:
  - A failing `lipo` leaves the binary the tree copies put there: the device build's, else the simulator's.
  - An empty `lipo` input list is not an error.
- `puts` of an empty device header writes one empty line. So the merged header
  has `|sim| + |device| + 7` lines when the device header has lines, and
  `|sim| + 8` when it is empty.

## Model

| member | source | states |
|---|---|---|
| FrameworkBuilder.Builder.constructor | lib/cocoapods-bin/helpers/framework_builder.rb:13-20 | the vendored libraries are the static frameworks followed by the static libraries; the other settings are kept as given and the command log starts empty |
| FrameworkBuilder.Builder.Build | lib/cocoapods-bin/helpers/framework_builder.rb:22-36 | the build's result, final working copy and command log are those of `BuildRun` on the initial working copy |
| FrameworkBuilder.Builder.BuildRunOrder | lib/cocoapods-bin/helpers/framework_builder.rb:22-36 | the device `xcodebuild` is always the first command. The simulator build is the second command exactly when the device build exited with 0. Anything further runs exactly when both exited with 0, and it is what follows the builds |
| FrameworkBuilder.Builder.BuildRunFailure | lib/cocoapods-bin/helpers/framework_builder.rb:22-29 | a failed device build ends the build with that build's report and working copy. So does a failed simulator build. A build report comes out if and only if one of the two builds failed |
| FrameworkBuilder.Builder.PackageRunShape | lib/cocoapods-bin/helpers/framework_builder.rb:28-34 | after the builds, the first five commands are the assembly commands. The only failure left is an unreadable header. On success, the delivery `cp` is the last command |
| FrameworkBuilder.Builder.PackageRunDelivers | lib/cocoapods-bin/helpers/framework_builder.rb:31-44 | when the steps after the builds succeed, the source directory's framework holds the same files with the same contents as the platform directory's framework |
| FrameworkBuilder.Builder.BuildRunDelivers | lib/cocoapods-bin/helpers/framework_builder.rb:22-44 | a successful build leaves in the source directory an exact mirror of the framework in the platform directory |
| FrameworkBuilder.Builder.PackageRunTarget | lib/cocoapods-bin/helpers/framework_builder.rb:28-45 | after the builds, the rest succeeds exactly when the header merge does. The delivered framework then holds at each relative path what the assembled framework held there once the header was merged and the bundles copied in: neither the license copy nor the delivery alters it |
| FrameworkBuilder.Builder.PackageRunBinary | lib/cocoapods-bin/helpers/framework_builder.rb:28-45 | when `lipo` made a binary, the delivered framework holds it as `<name>`: neither the header merge nor the bundles overwrite it |
| FrameworkBuilder.Builder.PackageRunUnsigned | lib/cocoapods-bin/helpers/framework_builder.rb:28-45 | no `_CodeSignature` entry, nor anything under it, reaches the delivered framework |
| FrameworkBuilder.Builder.PackageRunHeader | lib/cocoapods-bin/helpers/framework_builder.rb:28-45 | when both Swift headers were built, the delivered framework holds the merged header as `Headers/<target>-Swift.h` |
| FrameworkBuilder.Builder.PackageRunBundle | lib/cocoapods-bin/helpers/framework_builder.rb:28-45 | every file a bundle held after the builds is delivered under `<bundle name>/` at the same relative path with the same contents |
| FrameworkBuilder.Builder.BuildRunFramework | lib/cocoapods-bin/helpers/framework_builder.rb:22-45 | after a successful build, the source directory's `<name>.framework` holds the `lipo` binary as `<name>`, no `_CodeSignature`, the merged Swift header, and every bundle file under its bundle's name |
| FrameworkBuilder.Builder.CpToSourceDir | lib/cocoapods-bin/helpers/framework_builder.rb:40-45 | the working copy becomes `Delivered`: the old target removed, then the platform framework copied there, hidden files included. The `cp -fa` command is logged |
| Assembly.DeliveredReplica | lib/cocoapods-bin/helpers/framework_builder.rb:40-45 | replace, not merge: after delivery, a file lies under the target exactly when it lies at the same relative place under the source, with the source's contents, and nothing of the old target survives |
| Assembly.DeliveredMirrors | lib/cocoapods-bin/helpers/framework_builder.rb:40-45 | after delivery, source and target hold the same relative paths with the same contents |
| Assembly.DeliveredOutside | lib/cocoapods-bin/helpers/framework_builder.rb:40-45 | delivery changes nothing outside the target |
| Assembly.RemoveAbsent | lib/cocoapods-bin/helpers/framework_builder.rb:42 | removing a path that does not exist leaves the working copy unchanged, so the `exist?` test does not matter |
| FrameworkBuilder.Builder.BuildSimDynamicFramework | lib/cocoapods-bin/helpers/framework_builder.rb:47-50 | runs exactly one `xcodebuild` into `build-simulator` with `-sdk iphonesimulator` and the given defines; result, log and working copy follow that run |
| FrameworkBuilder.Builder.MergeSwiftHeader | lib/cocoapods-bin/helpers/framework_builder.rb:52-78 | the result, working copy and command log are those of `MergeRun` |
| FrameworkBuilder.Builder.MergeRunEffect | lib/cocoapods-bin/helpers/framework_builder.rb:54-76 | the merge runs exactly when both headers exist as files. A header that is a directory is an error. Otherwise nothing changes. When it runs, the device header becomes the merged header, a copy goes into the headers directory, and every other file, including the simulator header, is unchanged |
| SwiftHeader.PutEach | lib/cocoapods-bin/helpers/framework_builder.rb:69-74 | putting the elements one by one writes the concatenation of what `puts` writes for each (`Written`) |
| SwiftHeader.Puts | lib/cocoapods-bin/helpers/framework_builder.rb:72 | `puts` writes at least one line, and writes a non-empty array element by element |
| SwiftHeader.DeviceBody | lib/cocoapods-bin/helpers/framework_builder.rb:64 | the device part is the device header's lines, or one empty line when it has none |
| SwiftHeader.Merged | lib/cocoapods-bin/helpers/framework_builder.rb:59-66 | the merged header has as many lines as both headers together plus 7, or the simulator header's lines plus 8 for an empty device header |
| SwiftHeader.MergedLayout | lib/cocoapods-bin/helpers/framework_builder.rb:59-66 | the opening marker and `#if TARGET_IPHONE_SIMULATOR` come first. Then every simulator line, verbatim and in order. Then the closing marker, `#else` and the device marker. Then every device line, verbatim and in order. Then the closing device marker and `#endif` |
| SwiftHeader.MergedItems | lib/cocoapods-bin/helpers/framework_builder.rb:59-74 | writing the array the method builds (markers, simulator lines, markers, the device lines as one element, markers) gives exactly `Merged` |
| SwiftHeader.WrittenAppend | lib/cocoapods-bin/helpers/framework_builder.rb:71-73 | what the loop writes for two arrays in a row is what it writes for each, concatenated |
| SwiftHeader.WrittenLines | lib/cocoapods-bin/helpers/framework_builder.rb:59-73 | the lines read from a file, put one by one, are written back unchanged |
| SwiftHeader.WrittenTail | lib/cocoapods-bin/helpers/framework_builder.rb:61-66 | the elements appended after the simulator lines write the markers around the device part |
| SwiftHeader.GateResolves | lib/cocoapods-bin/helpers/framework_builder.rb:59-66 | for balanced headers, resolving the gate keeps the simulator lines when the simulator is defined, and the device lines otherwise |
| SwiftHeader.MergedResolvesOn | lib/cocoapods-bin/helpers/framework_builder.rb:59-66 | the preprocessed merged header is the opening marker followed by the branch the gate selects |
| SwiftHeader.MergedResolves | lib/cocoapods-bin/helpers/framework_builder.rb:59-66 | for balanced headers, the preprocessed merged header is, for the simulator, the simulator header's lines framed by the simulator marker comments. Otherwise it is the device part framed by the opening marker and the device marker comments. The device part is the device header's lines, or one empty line when that header is empty |
| SwiftHeader.DeviceBodyBalanced | lib/cocoapods-bin/helpers/framework_builder.rb:64 | a balanced device header stays balanced as the device part |
| SwiftHeader.BranchEndSkips | lib/cocoapods-bin/helpers/framework_builder.rb:59-66 | balanced conditionals inside a branch never end that branch |
| SwiftHeader.MarkersAreNotDirectives | lib/cocoapods-bin/helpers/framework_builder.rb:60-66 | the marker comments are not preprocessor directives; `#else` switches and `#endif` closes |
| SwiftHeader.MergeTwiceNests | lib/cocoapods-bin/helpers/framework_builder.rb:54-74 | merging again into an already merged header is not idempotent: it wraps the whole previous result as the device part, adding the simulator header's lines plus 7 |
| FrameworkBuilder.Builder.CopyLicense | lib/cocoapods-bin/helpers/framework_builder.rb:80-84 | copies the license only when it exists, logging `cp "<license>" .`; otherwise changes nothing (`LicenseRun`) |
| FrameworkBuilder.Builder.LicenseRunEffect | lib/cocoapods-bin/helpers/framework_builder.rb:80-84 | the license step never fails. Without a license file in the spec it looks for `LICENSE`. It logs `cp "<license>" .` exactly when the license exists. A license in another directory is copied under its base name and nothing else changes; otherwise the working copy is unchanged |
| Assembly.LicenseCopied | lib/cocoapods-bin/helpers/framework_builder.rb:83 | a license file in another directory is copied into the working directory under its base name. A license already in the working directory leaves the working copy unchanged |
| FrameworkBuilder.Builder.CopyResources | lib/cocoapods-bin/helpers/framework_builder.rb:86-94 | each bundle is copied whole into the framework, in order (`CopiedBundles`), with one `cp -fa` per bundle logged, and no command when there are none |
| FrameworkBuilder.Builder.CopyBundle | lib/cocoapods-bin/helpers/framework_builder.rb:91 | one bundle is overlaid onto `<fwk>/<basename>` and its `cp -fa` is logged |
| Assembly.CopiedBundlesOutside | lib/cocoapods-bin/helpers/framework_builder.rb:86-94 | copying the bundles changes nothing outside the framework directory |
| Assembly.BundleCopiedAt | lib/cocoapods-bin/helpers/framework_builder.rb:86-94 | every file of a bundle appears at the same relative place under `<fwk>/<basename>` with its contents, unless a later bundle with the same name replaces it |
| BuildSettings.FrameworkNameParts | lib/cocoapods-bin/helpers/framework_builder.rb:100-102 | the framework name is always the pod name followed by `.framework` |
| Assembly.LibsInSandbox | lib/cocoapods-bin/helpers/framework_builder.rb:104-106 | definition of the glob: the built binary is listed exactly when it exists, otherwise nothing is |
| FrameworkBuilder.Builder.BuildDynamicFrameworkForIos | lib/cocoapods-bin/helpers/framework_builder.rb:108-126 | the working copy becomes `AssembledFramework`. The log gains the five assembly commands in order: clear, simulator copy, device copy, signature removal, `lipo` |
| Assembly.LipoInputsOrder | lib/cocoapods-bin/helpers/framework_builder.rb:110-113 | the inputs are the device binary (when built), then the simulator binary (when built), then every vendored library in order, none filtered |
| Assembly.OverlaidAt | lib/cocoapods-bin/helpers/framework_builder.rb:115-120 | after the two tree copies, a visible entry holds the device build's file when there is one, else the simulator build's |
| Assembly.UnsignedAt | lib/cocoapods-bin/helpers/framework_builder.rb:123 | removing `_CodeSignature` leaves every other entry as the copies left it |
| Assembly.AssembledUnsigned | lib/cocoapods-bin/helpers/framework_builder.rb:123 | nothing of `_CodeSignature` survives the assembly |
| Assembly.AssembledFrameworkAt | lib/cocoapods-bin/helpers/framework_builder.rb:115-125 | in the assembled framework, each entry other than the binary and the signature holds the device file if built, else the simulator file |
| Assembly.AssembledBinary | lib/cocoapods-bin/helpers/framework_builder.rb:125 | `lipo` writes the output binary last. When it fails, the framework is left as the copies and the signature removal made it |
| Assembly.AssembledOnlyBinary | lib/cocoapods-bin/helpers/framework_builder.rb:125 | `lipo` changes nothing but the output binary |
| Assembly.AssembledOutside | lib/cocoapods-bin/helpers/framework_builder.rb:115-125 | the assembly touches nothing outside the framework directory except the output binary |
| BuildSettings.LipoCommandOutput | lib/cocoapods-bin/helpers/framework_builder.rb:125 | the `lipo` command starts `lipo -create -output <output> ` |
| BuildSettings.LipoCommandInputs | lib/cocoapods-bin/helpers/framework_builder.rb:125 | the rest of the `lipo` command splits back into exactly the inputs, in order |
| BuildSettings.IosBuildOptionsArchs | lib/cocoapods-bin/helpers/framework_builder.rb:128-139 | the options request exactly `x86_64 arm64 armv7 armv7s i386`, in that order, followed by the bitcode and warning flags |
| FrameworkBuilder.Builder.Compile | lib/cocoapods-bin/helpers/framework_builder.rb:141-150 | runs one device `xcodebuild` with the iOS options and returns the defines on exit status 0, or the build report otherwise |
| BuildSettings.DefinesReadBack | lib/cocoapods-bin/helpers/framework_builder.rb:142-144 | the defines are `GCC_PREPROCESSOR_DEFINITIONS='$(inherited)' ` followed by the flags, which split back into exactly the flags |
| Text.SplitJoin | lib/cocoapods-bin/helpers/framework_builder.rb:144 | words without spaces joined with single spaces split back into the same words |
| BuildSettings.TargetNameQualified | lib/cocoapods-bin/helpers/framework_builder.rb:152-158 | the target is `<name>-<platform>` when the pod has more than one platform, and exactly `<name>` if and only if it has at most one |
| FrameworkBuilder.Builder.Xcodebuild | lib/cocoapods-bin/helpers/framework_builder.rb:160-173 | logs the command, takes the working copy the run leaves, and fails with the report exactly when the exit status is not 0 |
| FrameworkBuilder.Outcome | lib/cocoapods-bin/helpers/framework_builder.rb:164-172 | definition of the result: success exactly on exit status 0 (a missing status fails), with the failure message otherwise |
| BuildSettings.XcodebuildCommandParts | lib/cocoapods-bin/helpers/framework_builder.rb:161 | the command is `xcodebuild <defines> <args> ` followed by `CONFIGURATION_BUILD_DIR=<dir> clean build -configuration Release -target <target> -project ./Pods.xcodeproj 2>&1` |
| BuildSettings.FailureMessage | lib/cocoapods-bin/helpers/framework_builder.rb:165-169 | the report's length accounts for the heading, the command, and every output line indented by four spaces |
| BuildSettings.FailureMessageShowsCommand | lib/cocoapods-bin/helpers/framework_builder.rb:165-166 | the report starts `Build command failed: ` followed by the full command |
| BuildSettings.FailureMessageShowsOutput | lib/cocoapods-bin/helpers/framework_builder.rb:165-168 | every output line appears in the report, in order, after four spaces |
| BuildSettings.IndentedShowsLine | lib/cocoapods-bin/helpers/framework_builder.rb:168 | each line of the indented output sits at its own offset, after four spaces |
| FileSystem.ClearEntries | lib/cocoapods-bin/helpers/framework_builder.rb:115 | definition of `rm -rf dir/*`: it removes every entry of the directory except hidden ones, and nothing else |
| FileSystem.RemoveTree | lib/cocoapods-bin/helpers/framework_builder.rb:123 | definition of `rm -rf p`: it removes `p` and everything under it, and nothing else |
| FileSystem.OverlayInside | lib/cocoapods-bin/helpers/framework_builder.rb:118-120 | a copied file lands at the same relative place and overwrites what was there; files of the destination that the source lacks stay |
| FileSystem.OverlayOutside | lib/cocoapods-bin/helpers/framework_builder.rb:118-120 | a copy changes nothing outside its destination |

## Left out

- The execution of `xcodebuild` and `lipo` is left out. They are external processes. Each is a function the builder is given, and the model states only how the builder uses its results.
- Glob discovery is left out:
  - `copy_resources` takes the bundle list from `Dir.glob('./build/*.bundle')`. Here that list is a parameter of `Build` and `CopyResources`.
  - `dynmic_libs_in_sandbox` globs one exact path. Here that path is listed exactly when it exists.
- The `framework` object (`Framework.new(...).make`) is left out. `lib/cocoapods-bin/helpers/framework.rb` is not part of this model. The framework directory and its headers directory are given to the builder.
- `UI.section` and `UI.message` output is not modelled.
- `Process.exit` after the `raise` is unreachable.
- `expand_paths` is never called.
- `use_framework` is only stored.
- CocoaPods' own computations are inputs of the `PodSpec` value: the consumer's compiler flags, `Platform.string_name` and `available_platforms`.
- The commented-out `lipo -info` architecture intersection is disabled code.
- `lib/cocoapods-bin/gem_version.rb` is not part of this model.
- Shell word splitting is not modelled. The paths put into the backtick commands are not quoted, except the license path. These are the header copy of line 76, the delivery `cp` of lines 42-44, the bundle `cp` of line 91, and the assembly commands of lines 115-125. The model treats each such path as one argument. With a path holding a space or another shell metacharacter, the shell splits or expands it. For example, with the source directory `My Pods/P`, line 44 becomes `cp -fa ios/P.framework My Pods/P`, and that copies nothing. The failure is ignored, so the build returns normally and leaves no framework in the source directory. The model instead delivers an exact copy. Likewise a bundle path holding a space is not copied by line 91, but the model copies it. The delivery lemmas assume single shell words: `ShellWord` is part of `FrameworkLayout` and of the preconditions of `PackageRunTarget`, `PackageRunDelivers` and `BuildRunDelivers`.
- CpToSourceDir: its effect is the copy of line 44 as meant. It holds only when the platform framework and the source directory are each a single shell word.
- MergeSwiftHeader: its header copy is the `cp` of line 76 as meant. It holds only when the device header path and the headers directory are single shell words.
- CopyBundle: its effect is the copy of line 91 as meant. It holds only when the bundle path and the framework path are single shell words.
- CopyResources: it copies each bundle as `CopyBundle` does, under the same single-shell-word assumption.
- BuildDynamicFrameworkForIos: its commands are taken as meant, with the framework path, the output and every `lipo` input each a single shell word.
- Build: its working copy follows the methods above, so it too holds only for paths that are single shell words.
- Paths are taken literally:
  - The `./` prefixes in the header and bundle paths are dropped.
  - Pathname normalisation is not modelled.
  - `Basename` of a path that ends in `/` is empty, whereas Ruby's `File.basename` gives its last component. The paths the builder takes base names of end in a file or bundle name.
  - The headers directory, the source directory and the bundles are assumed to be directories, so `cp` copies into them.
  - `cp` refusing to put a file over a directory, or a directory over a file, is not modelled.
- Lines are modelled without their line terminators. `readlines` keeps each terminator and `puts` does not add another, so the model's lines are the file's lines.
- Text encoding is not modelled.
- The preprocessor model recognises conditionals by their first characters: `#if`, `#el`, `#endif`. It does not evaluate macros other than the simulator gate.
- `MergedResolves` and `GateResolves` require both headers to have balanced conditionals. A header with unbalanced ones does not preprocess cleanly on its own.
- `BuildRunDelivers` and `PackageRunDelivers` require that the platform framework and the destination do not lie inside one another. Otherwise the copy would copy into itself. They also require that the platform framework and the source directory are each a single shell word (`ShellWord`), because the shell splits unquoted paths, as described above.
- `BundleCopiedAt` speaks only of bundles that no later bundle of the same name overwrites. The source's glob cannot yield two such bundles.
- `PackageRunBinary`, `PackageRunUnsigned`, `PackageRunHeader`, `PackageRunBundle` and `BuildRunFramework` require the layout the builder has in practice (`FrameworkLayout`). The framework assembled is the one delivered: `DeliverySource() == fwkPath` is an assumption. The delivered path is `<platform>/<name>.framework`, formed from the platform object's string form at line 44. The assembled directory is the one `Framework.new(@spec.name, @platform.name.to_s)` makes at line 183. These are two different expressions, and the model assumes they name the same directory. The headers directory is assumed to be `Headers` inside it, which `framework.rb` decides. The pod name is a plain name. The framework lies apart from the build trees, the bundles and the delivery target. Each bundle has its own base name, which is none of the framework's own entries. The framework, the source directory and the bundles are single shell words.
