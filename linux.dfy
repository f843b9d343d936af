/**
 * The linux platform command: it sets up one container image per target
 * architecture, and its build step packages the app inside an image and
 * moves the archive and the extracted executable to per-image directories.
 */
module Linux {
  import opened Results
  import opened Catalog
  import opened BuildContext
  import opened Container
  import opened Packaging
  import Volume

  const CONTEXT_ERROR_PREFIX: string := "could not make build context for " + LINUX_OS + " OS: "
  const PACKAGE_ERROR_PREFIX: string := "could not package the Fyne app: "
  const ARCHIVE_EXTENSION: string := ".tar.xz"

  /** The error setupContainerImages reports when the target architectures cannot be resolved. */
  function ContextError(cause: string): (msg: string)
    ensures |msg| == |CONTEXT_ERROR_PREFIX| + |cause|
    ensures msg[..|CONTEXT_ERROR_PREFIX|] == CONTEXT_ERROR_PREFIX && msg[|CONTEXT_ERROR_PREFIX|..] == cause
  {
    CONTEXT_ERROR_PREFIX + cause
  }

  /** The error Build reports when packaging fails. */
  function PackageError(cause: string): (msg: string)
    ensures |msg| == |PACKAGE_ERROR_PREFIX| + |cause|
    ensures msg[..|PACKAGE_ERROR_PREFIX|] == PACKAGE_ERROR_PREFIX && msg[|PACKAGE_ERROR_PREFIX|..] == cause
  {
    PACKAGE_ERROR_PREFIX + cause
  }

  /** A packaging failure can never be mistaken for a build-context failure, whatever the causes. */
  lemma WrappedErrorsDistinct(cause1: string, cause2: string)
    ensures ContextError(cause1) != PackageError(cause2)
  {
    assert ContextError(cause1)[10] == CONTEXT_ERROR_PREFIX[10] == 'm';
    assert PackageError(cause2)[10] == PACKAGE_ERROR_PREFIX[10] == 'p';
  }

  /** The archive the packaging tool writes for the app `appName`. */
  function PackageName(appName: string): (r: string)
    ensures |r| == |appName| + |ARCHIVE_EXTENSION|
    ensures r[..|appName|] == appName && r[|appName|..] == ARCHIVE_EXTENSION
  {
    appName + ARCHIVE_EXTENSION
  }

  /** Different apps get different archive names. */
  lemma PackageNameInjective(name1: string, name2: string)
    ensures PackageName(name1) == PackageName(name2) ==> name1 == name2
  {
    if PackageName(name1) == PackageName(name2) {
      assert name1 == PackageName(name1)[..|name1|];
    }
  }

  /** Where the packaging tool leaves the archive. */
  function ArchivePath(ctx: Context): string {
    Volume.JoinPathContainer([ctx.WorkDirContainer(), PackageName(ctx.name)])
  }

  /** Where the archive of image `id` is staged. */
  function StagingPath(ctx: Context, id: string): string {
    Volume.JoinPathContainer([ctx.TmpDirContainer(), id, PackageName(ctx.name)])
  }

  /** Where the executable of image `id` is extracted. */
  function OutputDir(ctx: Context, id: string): string {
    Volume.JoinPathContainer([ctx.BinDirContainer(), id])
  }

  /** The relocate command: move the archive from the work directory into the image's staging directory. */
  function RelocateCommand(ctx: Context, id: string): seq<string> {
    ["mv", ArchivePath(ctx), StagingPath(ctx, id)]
  }

  /**
   * The extract command: unpack only `usr/local/bin` of the staged archive,
   * dropping its first three path components, so the executable lands
   * directly in the working directory.
   */
  function ExtractCommand(ctx: Context, id: string): seq<string> {
    ["tar", "-xf", StagingPath(ctx, id), "--strip-components=3", "usr/local/bin"]
  }

  /**
   * Where Build's files are: the archive is `<work>/<Name>.tar.xz`, the
   * staging file of image `id` is `<tmp>/<ID>/<Name>.tar.xz`, and its output
   * directory is `<bin>/<ID>`.
   */
  lemma BuildPathsLayout(ctx: Context, id: string)
    ensures ArchivePath(ctx) == ctx.WorkDirContainer() + "/" + PackageName(ctx.name)
    ensures StagingPath(ctx, id) == ctx.TmpDirContainer() + "/" + id + "/" + PackageName(ctx.name)
    ensures OutputDir(ctx, id) == ctx.BinDirContainer() + "/" + id
  {
    Volume.JoinTwo(ctx.WorkDirContainer(), PackageName(ctx.name));
    Volume.JoinThree(ctx.TmpDirContainer(), id, PackageName(ctx.name));
    Volume.JoinTwo(ctx.BinDirContainer(), id);
  }

  /**
   * Build's two commands: mv moves the archive to the image's staging file,
   * and tar unpacks `usr/local/bin` of that same file, dropping its first
   * three path components.
   */
  lemma BuildCommandsLayout(ctx: Context, id: string)
    ensures var mv := RelocateCommand(ctx, id);
      |mv| == 3 && mv[0] == "mv" && mv[1] == ArchivePath(ctx) && mv[2] == StagingPath(ctx, id)
    ensures var tar := ExtractCommand(ctx, id);
      |tar| == 5 && tar[0] == "tar" && tar[1] == "-xf" && tar[2] == StagingPath(ctx, id) &&
      tar[3] == "--strip-components=3" && tar[4] == "usr/local/bin"
  {
  }

  /**
   * Everything Build does to the image, in order, given what prepareIcon
   * (`icon`) and the packaging step (`packaged`) answer: the icon step; then,
   * if it succeeded, the release or the debug packaging step; then, if that
   * succeeded too, the relocate and the extract command.
   */
  function BuildTrace(ctx: Context, id: string, icon: Outcome, packaged: Outcome): (t: seq<Event>)
    ensures |t| >= 1 && t[0] == PrepareIconCall
    ensures icon.Err? ==> |t| == 1
    ensures icon.Ok? ==> |t| >= 2 && t[1] == (if ctx.release then ReleaseCall else PackageCall)
    ensures icon.Ok? && packaged.Err? ==> |t| == 2
    ensures icon.Ok? && packaged.Ok? ==>
      |t| == 4 &&
      t[2] == RunCall(ctx.volume, Options(""), RelocateCommand(ctx, id)) &&
      t[3] == RunCall(ctx.volume, Options(OutputDir(ctx, id)), ExtractCommand(ctx, id))
  {
    var packaging := if ctx.release then ReleaseCall else PackageCall;
    if icon.Err? then [PrepareIconCall]
    else if packaged.Err? then [PrepareIconCall, packaging]
    else
      [PrepareIconCall, packaging,
       RunCall(ctx.volume, Options(""), RelocateCommand(ctx, id)),
       RunCall(ctx.volume, Options(OutputDir(ctx, id)), ExtractCommand(ctx, id))]
  }

  /**
   * Build calls fyneRelease exactly when the icon step succeeded in release
   * mode, fynePackage exactly when it succeeded in debug mode, and issues a
   * command in the image exactly when both the icon and the packaging step
   * succeeded.
   */
  lemma {:induction false} BuildTraceSteps(ctx: Context, id: string, icon: Outcome, packaged: Outcome)
    ensures ReleaseCall in BuildTrace(ctx, id, icon, packaged) <==> icon.Ok? && ctx.release
    ensures PackageCall in BuildTrace(ctx, id, icon, packaged) <==> icon.Ok? && !ctx.release
    ensures (exists i :: 0 <= i < |BuildTrace(ctx, id, icon, packaged)| && BuildTrace(ctx, id, icon, packaged)[i].RunCall?)
      <==> icon.Ok? && packaged.Ok?
  {
    var t := BuildTrace(ctx, id, icon, packaged);
    TraceShapeSteps(t, if ctx.release then ReleaseCall else PackageCall);
  }

  /**
   * The steps of any trace shaped like Build's: the icon step, then
   * optionally one packaging step, then optionally two commands.
   */
  lemma {:induction false} TraceShapeSteps(t: seq<Event>, packaging: Event)
    requires packaging == ReleaseCall || packaging == PackageCall
    requires |t| == 1 || |t| == 2 || |t| == 4
    requires t[0] == PrepareIconCall
    requires |t| >= 2 ==> t[1] == packaging
    requires |t| == 4 ==> t[2].RunCall? && t[3].RunCall?
    ensures ReleaseCall in t <==> |t| >= 2 && packaging == ReleaseCall
    ensures PackageCall in t <==> |t| >= 2 && packaging == PackageCall
    ensures (exists i :: 0 <= i < |t| && t[i].RunCall?) <==> |t| == 4
  {
    if |t| == 1 {
      assert t == [PrepareIconCall];
    } else if |t| == 2 {
      assert t == [PrepareIconCall, packaging];
    } else {
      assert t == [PrepareIconCall, packaging, t[2], t[3]];
    }
  }

  /** What Build returns: the archive name, or the icon error as is, or the wrapped packaging error. */
  function BuildResult(ctx: Context, icon: Outcome, packaged: Outcome): (r: (string, Outcome))
    ensures r.1.Ok? <==> icon.Ok? && packaged.Ok?
    ensures r.1.Ok? ==> r.0 == PackageName(ctx.name)
    ensures r.1.Err? ==> r.0 == ""
    ensures icon.Err? ==> r.1 == icon
    ensures icon.Ok? && packaged.Err? ==> r.1 == Err(PackageError(packaged.msg))
  {
    if icon.Err? then ("", icon)
    else if packaged.Err? then ("", Err(PackageError(packaged.msg)))
    else (PackageName(ctx.name), Ok)
  }

  /**
   * Images with different IDs never share a staging file or an output
   * directory, as long as the IDs and the app name are entry names (not
   * empty, ".", ".." and without the separator): then the two paths stay
   * apart even once "." and ".." components are resolved.
   */
  lemma DistinctImagesDoNotCollide(ctx: Context, id1: string, id2: string)
    requires id1 != id2
    requires Volume.IsEntryName(id1) && Volume.IsEntryName(id2)
    requires '/' !in ctx.name
    ensures StagingPath(ctx, id1) != StagingPath(ctx, id2)
    ensures OutputDir(ctx, id1) != OutputDir(ctx, id2)
  {
    var leaf := PackageName(ctx.name);
    assert leaf[|ctx.name|..] == ARCHIVE_EXTENSION;
    assert |leaf| > 2 && '/' !in leaf;
    Volume.NamespacedFilesDiffer(ctx.TmpDirContainer(), id1, id2, leaf);
    Volume.NamespacedDirsDiffer(ctx.BinDirContainer(), id1, id2);
  }

  /** The state of an image right after setupContainerImages created and configured it for `a`. */
  ghost predicate ConfiguredFor(img: ContainerImage, a: Architecture, engine: ContainerEngine, imageRef: string)
    reads img
  {
    img.arch == a && img.os == LINUX_OS && img.image == imageRef && img.id == engine.imageId(a, LINUX_OS) &&
    img.env == LinuxEnv(a) && img.log == SetEnvEvents(EnvCalls(a))
  }

  /** The architecture switch of setupContainerImages' loop: the SetEnv calls of the table row for `arch`. */
  method SetArchEnv(image: ContainerImage, arch: Architecture)
    modifies image
    ensures image.env == ApplyEnv(old(image.env), ArchCalls(arch))
    ensures image.log == old(image.log) + SetEnvEvents(ArchCalls(arch))
  {
    ghost var start, startLog := image.env, image.log;
    var t := ToolchainOf(arch);
    var cc, cxx := ZigInvocation("cc", t), ZigInvocation("c++", t);
    match arch {
      case Amd64 =>
        image.SetEnv("GOARCH", "amd64");
        image.SetEnv("CC", cc);
        image.SetEnv("CXX", cxx);
        ApplyEnvOfThree(start, ("GOARCH", "amd64"), ("CC", cc), ("CXX", cxx));
        SetEnvEventsOfThree(("GOARCH", "amd64"), ("CC", cc), ("CXX", cxx));
        AppendThree(startLog, SetEnvCall("GOARCH", "amd64"), SetEnvCall("CC", cc), SetEnvCall("CXX", cxx));
      case I386 =>
        image.SetEnv("GOARCH", "386");
        image.SetEnv("CC", cc);
        image.SetEnv("CXX", cxx);
        ApplyEnvOfThree(start, ("GOARCH", "386"), ("CC", cc), ("CXX", cxx));
        SetEnvEventsOfThree(("GOARCH", "386"), ("CC", cc), ("CXX", cxx));
        AppendThree(startLog, SetEnvCall("GOARCH", "386"), SetEnvCall("CC", cc), SetEnvCall("CXX", cxx));
      case Arm =>
        image.SetEnv("GOARCH", "arm");
        image.SetEnv("GOARM", "7");
        image.SetEnv("CC", cc);
        image.SetEnv("CXX", cxx);
        ApplyEnvOfFour(start, ("GOARCH", "arm"), ("GOARM", "7"), ("CC", cc), ("CXX", cxx));
        SetEnvEventsOfFour(("GOARCH", "arm"), ("GOARM", "7"), ("CC", cc), ("CXX", cxx));
        AppendFour(startLog, SetEnvCall("GOARCH", "arm"), SetEnvCall("GOARM", "7"), SetEnvCall("CC", cc), SetEnvCall("CXX", cxx));
      case Arm64 =>
        image.SetEnv("GOARCH", "arm64");
        image.SetEnv("CC", cc);
        image.SetEnv("CXX", cxx);
        ApplyEnvOfThree(start, ("GOARCH", "arm64"), ("CC", cc), ("CXX", cxx));
        SetEnvEventsOfThree(("GOARCH", "arm64"), ("CC", cc), ("CXX", cxx));
        AppendThree(startLog, SetEnvCall("GOARCH", "arm64"), SetEnvCall("CC", cc), SetEnvCall("CXX", cxx));
    }
  }

  /**
   * The body of setupContainerImages' loop after the image is created: the
   * architecture switch, then GOOS, so that GOOS is set last.
   */
  method ConfigureImage(image: ContainerImage, arch: Architecture)
    modifies image
    ensures image.env == old(image.env) + LinuxEnv(arch)
    ensures image.log == old(image.log) + SetEnvEvents(EnvCalls(arch))
  {
    ghost var start := image.env;
    SetArchEnv(image, arch);
    image.SetEnv("GOOS", "linux");
    ApplyEnvSnoc(start, ArchCalls(arch), ("GOOS", LINUX_OS));
    ImageEnvFromAnyStart(start, arch);
    SetEnvEventsAppend(ArchCalls(arch), [("GOOS", LINUX_OS)]);
    assert SetEnvEvents([("GOOS", LINUX_OS)]) == [SetEnvCall("GOOS", LINUX_OS)];
  }

  /**
   * The body of setupContainerImages' loop: a new image from the engine for
   * `arch`, configured by ConfigureImage.
   */
  method NewConfiguredImage(runner: ContainerEngine, arch: Architecture, imageRef: string)
    returns (image: ContainerImage)
    ensures fresh(image) && ConfiguredFor(image, arch, runner, imageRef)
  {
    image := CreateContainerImage(runner, arch, LINUX_OS, imageRef);
    ConfigureImage(image, arch);
    assert image.env == LinuxEnv(arch);
  }

  lemma AppendTwo(s: seq<Event>, a: Event, b: Event)
    ensures s + [a] + [b] == s + [a, b]
  {
  }

  lemma AppendThree(s: seq<Event>, a: Event, b: Event, c: Event)
    ensures s + [a] + [b] + [c] == s + [a, b, c]
  {
  }

  lemma AppendFour(s: seq<Event>, a: Event, b: Event, c: Event, d: Event)
    ensures s + [a] + [b] + [c] + [d] == s + [a, b, c, d]
  {
  }

  /** The linux command (type linux). */
  class LinuxCommand {
    var images: seq<ContainerImage>
    var defaultContext: Context

    /** NewLinuxCommand. */
    constructor ()
      ensures images == [] && defaultContext == ZERO_CONTEXT
    {
      images := [];
      defaultContext := ZERO_CONTEXT;
    }

    /** The command is named after the OS it targets. */
    function Name(): (r: string)
      ensures r == LINUX_OS
    {
      "linux"
    }

    /** The command description, which names the target OS. */
    function Description(): (r: string)
      ensures |r| > |LINUX_OS| + 3 && r[|r| - |LINUX_OS| - 3..] == LINUX_OS + " OS"
    {
      "Build and package a fyne application for the linux OS"
    }

    /**
     * setupContainerImages. The answers of its helpers are parameters:
     * `resolved` is what targetArchFromFlag returns, `made` what
     * makeDefaultContext returns, `engine` what newContainerEngine returns,
     * and `imageRef` what overrideDockerImage returns (the same for every
     * architecture, as all four default image references are equal).
     */
    method SetupContainerImages(resolved: Result<seq<Architecture>>, made: Result<Context>,
                                engine: Result<ContainerEngine>, imageRef: string)
      returns (err: Outcome)
      modifies this
      ensures resolved.Failure? ==> err == Err(ContextError(resolved.msg))
      ensures resolved.Success? && made.Failure? ==> err == Err(made.msg)
      ensures resolved.Success? && made.Success? && engine.Failure? ==> err == Err(engine.msg)
      ensures err.Ok? <==> resolved.Success? && made.Success? && engine.Success?
      ensures defaultContext == if resolved.Success? && made.Success? then made.value else old(defaultContext)
      ensures err.Err? ==> images == old(images)
      ensures err.Ok? ==>
        |images| == |old(images)| + |resolved.value| && images[..|old(images)|] == old(images)
      ensures err.Ok? ==> forall p :: |old(images)| <= p < |images| ==>
        fresh(images[p]) && ConfiguredFor(images[p], resolved.value[p - |old(images)|], engine.value, imageRef)
      ensures err.Ok? ==> forall p, q :: |old(images)| <= p < q < |images| ==> images[p] != images[q]
    {
      if resolved.Failure? {
        return Err(ContextError(resolved.msg));
      }
      var targetArch := resolved.value;
      if made.Failure? {
        return Err(made.msg);
      }
      defaultContext := made.value;
      if engine.Failure? {
        return Err(engine.msg);
      }
      AppendImages(engine.value, targetArch, imageRef);
      return Ok;
    }

    /**
     * The loop of setupContainerImages: for each architecture, in order, a
     * new configured image is appended to the image list.
     */
    method AppendImages(runner: ContainerEngine, targetArch: seq<Architecture>, imageRef: string)
      modifies this
      ensures defaultContext == old(defaultContext)
      ensures |images| == |old(images)| + |targetArch| && images[..|old(images)|] == old(images)
      ensures forall p :: |old(images)| <= p < |images| ==>
        fresh(images[p]) && ConfiguredFor(images[p], targetArch[p - |old(images)|], runner, imageRef)
      ensures forall p, q :: |old(images)| <= p < q < |images| ==> images[p] != images[q]
    {
      ghost var before := images;
      for i := 0 to |targetArch|
        invariant defaultContext == old(defaultContext)
        invariant |images| == |before| + i && images[..|before|] == before
        invariant forall p :: |before| <= p < |images| ==>
          fresh(images[p]) && ConfiguredFor(images[p], targetArch[p - |before|], runner, imageRef)
        invariant forall p, q :: |before| <= p < q < |images| ==> images[p] != images[q]
      {
        var image := NewConfiguredImage(runner, targetArch[i], imageRef);
        images := images + [image];
      }
    }

    /**
     * Build. The answers of prepareIcon, of fyneRelease or fynePackage, and of
     * the two Run calls are the parameters `icon`, `packaged`, `relocated` and
     * `extracted`; the last two are discarded.
     */
    method Build(image: ContainerImage, icon: Outcome, packaged: Outcome, relocated: Outcome, extracted: Outcome)
      returns (name: string, err: Outcome)
      modifies image
      ensures image.env == old(image.env)
      ensures image.log == old(image.log) + BuildTrace(defaultContext, image.id, icon, packaged)
      ensures (name, err) == BuildResult(defaultContext, icon, packaged)
    {
      ghost var before := image.log;
      ghost var trace := BuildTrace(defaultContext, image.id, icon, packaged);
      var e := PrepareIcon(defaultContext, image, icon);
      if e.Err? {
        assert trace == [PrepareIconCall];
        return "", e;
      }
      var packageName := PackageName(defaultContext.name);
      if defaultContext.release {
        e := FyneRelease(defaultContext, image, packaged);
      } else {
        e := FynePackage(defaultContext, image, packaged);
      }
      ghost var packaging := image.log[|image.log| - 1];
      assert image.log == before + [PrepareIconCall] + [packaging];
      if e.Err? {
        assert trace == [PrepareIconCall, packaging];
        AppendTwo(before, PrepareIconCall, packaging);
        return "", Err(PackageError(e.msg));
      }
      ghost var packagedLog := image.log;
      var _ := image.Run(defaultContext.volume, Options(""), RelocateCommand(defaultContext, image.id), relocated);
      ghost var relocation := image.log[|image.log| - 1];
      assert image.log == packagedLog + [relocation];
      var _ := image.Run(defaultContext.volume, Options(OutputDir(defaultContext, image.id)),
                         ExtractCommand(defaultContext, image.id), extracted);
      ghost var extraction := image.log[|image.log| - 1];
      assert image.log == packagedLog + [relocation] + [extraction];
      assert trace == [PrepareIconCall, packaging, relocation, extraction];
      AppendFour(before, PrepareIconCall, packaging, relocation, extraction);
      return packageName, Ok;
    }
  }
}
