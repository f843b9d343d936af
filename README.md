# fyne-cross: the linux platform command

This project models the linux platform command of fyne-cross
(`internal/command/linux.go`). fyne-cross cross-compiles and packages Fyne
applications inside containers.

The command does two things:

- **Setup.** It resolves the target architectures and records the build
  context. Then, for each architecture in order, it creates a container image
  and fills in the image's build environment from a fixed four-row table:
  `GOARCH`, `GOARM` for arm only, and the zig `CC`/`CXX` cross-compiler
  strings. It sets `GOOS=linux` last and appends the image to the command's
  image list.
- **Build.** Inside one image, it prepares the icon. It then runs either the
  release packaging or the debug packaging and wraps any packaging error. If
  packaging succeeds, it moves the archive `<Name>.tar.xz` into a staging
  directory named after the image ID, and extracts the executable into an
  output directory also named after the image ID.

The source is the single file `internal/command/linux.go` of package
`command`. The model splits it into modules along the components it talks to
(results, the volume helper, the build context, the architecture table, the
container image, the packaging helpers), one module per file:

- `Results` (`results.dfy`): the `Option`, `Outcome` and `Result` wrappers.
- `Volume` (`volume.dfy`): the container directories and `JoinPathContainer`.
- `BuildContext` (`context.dfy`): the fields of `Context` that the build step reads.
- `Catalog` (`catalog.dfy`): the supported architectures, the SetEnv calls each
  architecture gets, and the environment table these calls build.
- `Container` (`container.dfy`): a recording container image. It keeps its
  environment and a log of every call made on it.
- `Packaging` (`packaging.dfy`): the icon and packaging helpers, each recorded
  as one event.
- `Linux` (`linux.dfy`): the command itself (`LinuxCommand`), its setup loop,
  and `Build`.

Helpers the command calls but does not define are parameters that carry their
answer:

| source helper | modelled as |
|---|---|
| `targetArchFromFlag` | a `Result` holding Architecture values |
| `makeDefaultContext` | a `Result` holding a Context |
| `newContainerEngine` | a `Result` holding an engine that decides image IDs |
| `overrideDockerImage` | the image reference string |
| `prepareIcon`, `fyneRelease`, `fynePackage`, `image.Run` | an `Outcome` each |

Because `Architecture` has only the four supported constructors, any answer of
`targetArchFromFlag` is automatically drawn from `linuxArchSupported`. The
model does not assume that this answer is de-duplicated.

Two behaviours follow the code rather than the intended design:

- `Build` ignores the results of the `mv` and `tar` Run calls. It returns the
  archive name with no error even when relocation or extraction fails.
- `createContainerImage` has no error result, so the image loop cannot fail
  part-way.

The CC and CXX strings are written through a template: `ZigInvocation` builds
"zig " + driver + " -target " + triple + " -isystem /usr/include -L" + libdir,
and the table `ToolchainOf` gives each architecture's triple and libdir. The
result is equal, character for character, to the eight literal strings of the
source.

## Model

| member | source | states |
|---|---|---|
| Catalog.LinuxArchSupportedIsAll | internal/command/linux.go:23 | the supported list contains every architecture, and its names are exactly {amd64, 386, arm, arm64} |
| Catalog.LinuxArchSupported | internal/command/linux.go:23 | the supported list has four entries and no duplicates |
| Catalog.ToolchainOf | internal/command/linux.go:166-183 | each architecture's zig target triple is non-empty and has no space, and its library directory is under `/usr/lib/` |
| Catalog.ZigInvocation | internal/command/linux.go:166-183 | a compiler command is `zig `, then the driver (`cc` or `c++`), then the toolchain's flags `-target <triple> -isystem /usr/include -L<libdir>` |
| Catalog.CompilersDiffer | internal/command/linux.go:166-183 | the C compiler command never equals a C++ compiler command |
| Catalog.ZigFlagsInjective | internal/command/linux.go:166-183 | different toolchains with space-free triples give different compiler flags |
| Catalog.CompilersPerArchitecture | internal/command/linux.go:166-183 | two different architectures never get the same CC or the same CXX |
| Catalog.ArchNameInjective | internal/command/linux.go:165-181 | the GOARCH values of two architectures are equal exactly when the architectures are equal |
| Catalog.ArchCalls | internal/command/linux.go:162-184 | the switch arm for an architecture starts by setting GOARCH to that architecture's name, and never sets GOOS |
| Catalog.EnvCalls | internal/command/linux.go:162-186 | the calls made on an image end with GOOS=linux, no earlier call sets GOOS, and the first call sets GOARCH |
| Catalog.ApplyEnv | internal/command/linux.go:165-186 | successive SetEnv calls keep every earlier key and define every key they set |
| Catalog.LastSetWins | internal/command/linux.go:165-186 | after a series of SetEnv calls, a key is present exactly when it was present before or some call set it; its value is the one from the last call that set it, or else its earlier value |
| Catalog.LinuxEnvKeys | internal/command/linux.go:162-186 | the table has exactly the keys GOARCH, CC, CXX and GOOS, plus GOARM, which is present iff the architecture is arm |
| Catalog.LinuxEnvValues | internal/command/linux.go:162-186 | in the table GOOS is linux, GOARCH is the architecture's name, GOARM is 7 for arm, and CC and CXX are the non-empty `zig cc` and `zig c++` invocations for the architecture's toolchain, so they share one `-target <triple> -isystem /usr/include -L<libdir>` suffix |
| Catalog.ApplyEnvSnoc | internal/command/linux.go:165-186 | one more SetEnv call after a series updates the environment the series left with that call's key and value |
| Catalog.ImageEnvFromAnyStart | internal/command/linux.go:162-186 | from any starting environment, the loop body's SetEnv calls give that environment overridden by the table; in particular GOOS ends up as linux |
| Container.SetEnvEventsAt | internal/command/linux.go:165-186 | the SetEnv calls leave one logged event per call, in call order, each with that call's key and value |
| Container.SetEnvEventsAppend | internal/command/linux.go:162-186 | the events of two consecutive runs of SetEnv calls are those of the first run followed by those of the second |
| Container.ContainerImage.SetEnv | internal/command/linux.go:165-186 | SetEnv replaces one key of the image environment and logs the call |
| Container.ContainerImage.Run | internal/command/linux.go:95-106 | Run logs the volume, options and argv, leaves the environment unchanged, and answers with the engine's reply |
| Container.CreateContainerImage | internal/command/linux.go:164 | a new image for the given architecture, OS and image reference, with the engine-chosen ID, an empty environment and no history |
| Packaging.PrepareIcon | internal/command/linux.go:74 | the icon step is logged on the image and its answer is passed back |
| Packaging.FyneRelease | internal/command/linux.go:87 | the release packaging step is logged on the image and its answer is passed back |
| Packaging.FynePackage | internal/command/linux.go:90 | the debug packaging step is logged on the image and its answer is passed back |
| Volume.JoinPathContainer | internal/command/linux.go:97-105 | the joined path starts with the first element, has the separator right after it when there are at least two, and ends with the last element |
| Volume.NamespacedDirsDiffer | internal/command/linux.go:103 | two different identifiers that are entry names (not empty, "." or "..", no separator) give different directories under one directory; as no component is empty, "." or "..", they stay different once such components are resolved |
| Volume.NamespacedFilesDiffer | internal/command/linux.go:98-105 | the same entry-name leaf under two different entry-name identifiers gives two different files under one directory, also once "." and ".." components are resolved |
| Linux.ContextError | internal/command/linux.go:143-146 | the error is "could not make build context for linux OS: " followed by the cause, unchanged |
| Linux.PackageError | internal/command/linux.go:92-94 | the error is "could not package the Fyne app: " followed by the cause, unchanged |
| Linux.WrappedErrorsDistinct | internal/command/linux.go:92-94 | a wrapped packaging error never equals a wrapped build-context error, whatever the causes |
| Linux.PackageName | internal/command/linux.go:83 | the archive name is the app name followed by ".tar.xz" |
| Linux.PackageNameInjective | internal/command/linux.go:83 | different app names give different archive names |
| Linux.BuildTrace | internal/command/linux.go:73-107 | Build's calls on the image, in order: the icon step first; nothing else after an icon error; otherwise the release step in release mode and the debug packaging step in debug mode; nothing else after a packaging error; otherwise exactly the mv command and then the tar command, run on the context's volume, tar in `<bin>/<ID>` |
| Linux.BuildTraceSteps | internal/command/linux.go:73-107 | release packaging happens iff the icon succeeded and release mode is on; debug packaging happens iff the icon succeeded and release mode is off; some Run is issued iff both the icon and packaging succeeded |
| Linux.BuildResult | internal/command/linux.go:73-108 | Build succeeds iff the icon and packaging steps succeed, and then it returns `<Name>.tar.xz`. An icon error is returned as is and a packaging error wrapped, both with an empty name |
| Linux.BuildPathsLayout | internal/command/linux.go:97-105 | the archive the packaging step leaves is `<work>/<Name>.tar.xz`, the staging file of an image is `<tmp>/<ID>/<Name>.tar.xz`, and its output directory is `<bin>/<ID>` |
| Linux.BuildCommandsLayout | internal/command/linux.go:95-106 | the relocate command is `mv <archive> <staging file>` and the extract command is `tar -xf <staging file> --strip-components=3 usr/local/bin`, so the file mv writes is the file tar reads and the file mv reads is the packaged archive |
| Linux.DistinctImagesDoNotCollide | internal/command/linux.go:95-106 | images with different IDs share neither a staging file nor an output directory, provided the IDs are entry names (not empty, "." or "..", no separator) and the app name has no separator; under these conditions the paths differ also once "." and ".." components are resolved |
| Linux.SetArchEnv | internal/command/linux.go:162-184 | the architecture switch applies exactly the calls of that architecture's table row, in order, to the image environment and log |
| Linux.ConfigureImage | internal/command/linux.go:162-186 | the loop body leaves the image environment overridden by the table, and logs the row's calls followed by GOOS |
| Linux.NewConfiguredImage | internal/command/linux.go:164-186 | one loop iteration: a new image with the architecture, linux, the image reference and the engine's ID, whose environment and log are exactly those of its table row followed by GOOS |
| Linux.LinuxCommand.constructor | internal/command/linux.go:35-37 | a new command has no images and the zero context |
| Linux.LinuxCommand.Name | internal/command/linux.go:39-41 | the command is named after its target OS, linux |
| Linux.LinuxCommand.Description | internal/command/linux.go:44-46 | the description ends with "linux OS" |
| Linux.LinuxCommand.AppendImages | internal/command/linux.go:159-189 | the image loop keeps the recorded context and the old image list as a prefix, and appends one new, distinct, configured image per architecture, in order |
| Linux.LinuxCommand.SetupContainerImages | internal/command/linux.go:142-192 | errors are checked in order (the architecture error wrapped, the context and engine errors as is). The context is recorded exactly when the architectures and the context both resolve. On error the image list is unchanged. On success the old list is kept as a prefix, followed by one new, distinct, configured image per resolved architecture, in order |
| Linux.LinuxCommand.Build | internal/command/linux.go:73-109 | Build leaves the image environment unchanged, appends exactly the calls given by BuildTrace to the image log, and returns the archive name and error given by BuildResult, whatever the two Run calls answer |

## Left out

- `Parse` (internal/command/linux.go:53-70): it relies on the global mutable flag set, the host's architecture and flag-parsing plumbing, so it is not modelled.
- `Usage` (internal/command/linux.go:112-131): it only prints a template and the flag defaults.
- `Run` and `commonRun` (internal/command/linux.go:48-50): the runner is defined elsewhere and is not part of this model.
- The internals of `targetArchFromFlag`, `makeDefaultContext`, `newContainerEngine`, `overrideDockerImage`, `prepareIcon`, `fyneRelease` and `fynePackage`: not shown, so each is modelled only by its success or error answer.
- Container engine internals: image creation and command execution inside the container are not modelled. The recording image only keeps the environment and the calls made on it, and the engine only decides image IDs.
- The four image reference constants (internal/command/linux.go:15-18): all are equal, and the override logic is not shown, so setup takes one image reference parameter for every architecture.
- `log.Info` output: logging is I/O.
- Concurrency: none exists, since the code is a sequential loop.
- `Volume.JoinPathContainer`: the volume package is not part of this model. Joining is modelled as plain "/"-separated concatenation, without the path cleaning a `path.Join`-style helper would do.
- The `Context` fields that the build step does not read are left out.
- How image IDs are derived is left out. The lemmas about distinct staging paths take as a hypothesis that the IDs are distinct entry names.
- Linux.DistinctImagesDoNotCollide: it proves that the path strings differ. With the entry-name hypotheses this also holds once "." and ".." components are resolved, but that resolution is not modelled.
