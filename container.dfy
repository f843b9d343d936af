/**
 * A recording stand-in for the container engine's image: it keeps the
 * environment that SetEnv builds and, in order, every call made on it, so
 * that the linux command's effects on an image can be stated exactly.
 */
module Container {
  import opened Results
  import opened Catalog
  import Volume

  /** Options of one Run call; the empty workDir is Go's zero value, "no working directory given". */
  datatype Options = Options(workDir: string)

  /** One thing done to an image, in the order it was done. */
  datatype Event =
    | SetEnvCall(key: string, value: string)
    | PrepareIconCall
    | ReleaseCall
    | PackageCall
    | RunCall(volume: Volume.Volume, opts: Options, argv: seq<string>)

  /** The events the SetEnv calls `calls` leave on an image. */
  function SetEnvEvents(calls: seq<EnvCall>): seq<Event> {
    seq(|calls|, i requires 0 <= i < |calls| => SetEnvCall(calls[i].0, calls[i].1))
  }

  /** The log holds one SetEnv event per call, in call order, with the call's key and value. */
  lemma SetEnvEventsAt(calls: seq<EnvCall>)
    ensures |SetEnvEvents(calls)| == |calls|
    ensures forall i :: 0 <= i < |calls| ==> SetEnvEvents(calls)[i] == SetEnvCall(calls[i].0, calls[i].1)
  {
  }

  lemma SetEnvEventsAppend(calls: seq<EnvCall>, more: seq<EnvCall>)
    ensures SetEnvEvents(calls + more) == SetEnvEvents(calls) + SetEnvEvents(more)
  {
  }

  lemma SetEnvEventsOfThree(c0: EnvCall, c1: EnvCall, c2: EnvCall)
    ensures SetEnvEvents([c0, c1, c2]) == [SetEnvCall(c0.0, c0.1), SetEnvCall(c1.0, c1.1), SetEnvCall(c2.0, c2.1)]
  {
  }

  lemma SetEnvEventsOfFour(c0: EnvCall, c1: EnvCall, c2: EnvCall, c3: EnvCall)
    ensures SetEnvEvents([c0, c1, c2, c3]) ==
      [SetEnvCall(c0.0, c0.1), SetEnvCall(c1.0, c1.1), SetEnvCall(c2.0, c2.1), SetEnvCall(c3.0, c3.1)]
  {
  }

  /** The container image of one architecture (containerImage). */
  class ContainerImage {
    const arch: Architecture
    const os: string
    const image: string
    /** image.ID(), chosen by the engine. */
    const id: string
    var env: map<string, string>
    var log: seq<Event>

    constructor (arch: Architecture, os: string, image: string, id: string)
      ensures this.arch == arch && this.os == os && this.image == image && this.id == id
      ensures env == map[] && log == []
    {
      this.arch, this.os, this.image, this.id := arch, os, image, id;
      env, log := map[], [];
    }

    /** image.SetEnv: sets one variable of the build environment, replacing an earlier value. */
    method SetEnv(key: string, value: string)
      modifies this
      ensures env == old(env)[key := value]
      ensures log == old(log) + [SetEnvCall(key, value)]
    {
      env := env[key := value];
      log := log + [SetEnvCall(key, value)];
    }

    /**
     * image.Run: runs `argv` in the image; the engine's answer, not modelled,
     * is the parameter `reply`.
     */
    method Run(volume: Volume.Volume, opts: Options, argv: seq<string>, reply: Outcome) returns (r: Outcome)
      modifies this
      ensures env == old(env)
      ensures log == old(log) + [RunCall(volume, opts, argv)]
      ensures r == reply
    {
      log := log + [RunCall(volume, opts, argv)];
      r := reply;
    }
  }

  /** The container engine: it decides the ID of each image it creates. */
  datatype ContainerEngine = ContainerEngine(imageId: (Architecture, string) -> string)

  /** runner.createContainerImage: a new image with an empty environment and no history. */
  method CreateContainerImage(engine: ContainerEngine, arch: Architecture, os: string, image: string)
    returns (img: ContainerImage)
    ensures fresh(img)
    ensures img.arch == arch && img.os == os && img.image == image && img.id == engine.imageId(arch, os)
    ensures img.env == map[] && img.log == []
  {
    img := new ContainerImage(arch, os, image, engine.imageId(arch, os));
  }
}
