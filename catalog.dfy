/**
 * The linux target catalog: the supported architectures and the environment
 * that setupContainerImages gives the container image of each of them.
 */
module Catalog {
  import opened Results

  /**
   * The architectures the linux command builds for. There is no other value:
   * targetArchFromFlag only ever answers with architectures taken from the
   * supported list, which is all of them.
   */
  datatype Architecture = Amd64 | I386 | Arm | Arm64

  /** linuxOS, the target OS name. */
  const LINUX_OS: string := "linux"

  /** The architecture's Go name, the value GOARCH takes for it. */
  function ArchName(a: Architecture): string {
    match a
    case Amd64 => "amd64"
    case I386 => "386"
    case Arm => "arm"
    case Arm64 => "arm64"
  }

  /** linuxArchSupported, in the source's order. */
  function LinuxArchSupported(): (archs: seq<Architecture>)
    ensures |archs| == 4
    ensures forall i, j :: 0 <= i < j < |archs| ==> archs[i] != archs[j]
  {
    [Amd64, I386, Arm, Arm64]
  }

  /** The supported list holds every architecture, under the names amd64, 386, arm and arm64. */
  lemma LinuxArchSupportedIsAll()
    ensures forall a: Architecture :: a in LinuxArchSupported()
    ensures (set a | a in LinuxArchSupported() :: ArchName(a)) == {"amd64", "386", "arm", "arm64"}
  {
    var s := LinuxArchSupported();
    forall a: Architecture
      ensures a in s
    {
      if a.Amd64? { assert s[0] == a; }
      else if a.I386? { assert s[1] == a; }
      else if a.Arm? { assert s[2] == a; }
      else { assert s[3] == a; }
    }
    var names := set a | a in s :: ArchName(a);
    assert ArchName(Amd64) in names && ArchName(I386) in names;
    assert ArchName(Arm) in names && ArchName(Arm64) in names;
  }

  /** Different architectures have different Go names. */
  lemma ArchNameInjective(a: Architecture, b: Architecture)
    ensures ArchName(a) == ArchName(b) <==> a == b
  {
  }

  /** One `image.SetEnv(key, value)` call. */
  type EnvCall = (string, string)

  /** The zig cross-compiler parameters of one architecture. */
  datatype Toolchain = Toolchain(triple: string, libDir: string)

  /** The toolchain table, one row per architecture. */
  function ToolchainOf(a: Architecture): (t: Toolchain)
    ensures |t.triple| > 0 && ' ' !in t.triple
    ensures |t.libDir| > 9 && t.libDir[..9] == "/usr/lib/"
  {
    var (triple, lib) := match a
      case Amd64 => ("x86_64-linux-gnu", "x86_64-linux-gnu")
      case I386 => ("x86-linux-gnu", "i386-linux-gnu")
      case Arm => ("arm-linux-gnueabihf", "arm-linux-gnueabihf")
      case Arm64 => ("aarch64-linux-gnu", "aarch64-linux-gnu");
    assert ' ' !in triple;
    Toolchain(triple, "/usr/lib/" + lib)
  }

  /** The compiler flags for the toolchain's target: the target triple, the system headers and its libraries. */
  function ZigFlags(t: Toolchain): string {
    " -target " + t.triple + " -isystem /usr/include -L" + t.libDir
  }

  /**
   * A zig compiler invocation, `driver` being "cc" or "c++"; for instance
   * "zig cc -target x86_64-linux-gnu -isystem /usr/include -L/usr/lib/x86_64-linux-gnu".
   */
  function ZigInvocation(driver: string, t: Toolchain): (cmd: string)
    ensures |cmd| == 4 + |driver| + |ZigFlags(t)|
    ensures cmd[..4] == "zig " && cmd[4..4 + |driver|] == driver && cmd[4 + |driver|..] == ZigFlags(t)
  {
    "zig " + driver + ZigFlags(t)
  }

  /** The C compiler and the C++ compiler are never the same command, whatever the toolchains. */
  lemma CompilersDiffer(t: Toolchain, u: Toolchain)
    ensures ZigInvocation("cc", t) != ZigInvocation("c++", u)
  {
    assert ZigInvocation("cc", t)[6] == ' ' && ZigInvocation("c++", u)[6] == '+';
  }

  /** A space-free word followed by a space cannot be a proper prefix of another space-free word. */
  lemma {:induction false} SpaceFreeWordsSplit(x1: string, r1: string, x2: string, r2: string)
    requires ' ' !in x1 && ' ' !in x2
    requires |r1| > 0 && r1[0] == ' '
    requires |x1| < |x2|
    ensures x1 + r1 != x2 + r2
  {
    assert (x1 + r1)[|x1|] == ' ';
    assert (x2 + r2)[|x1|] == x2[|x1|];
  }

  /** Different toolchains give different flags, as long as the triples contain no space. */
  lemma {:induction false} ZigFlagsInjective(t: Toolchain, u: Toolchain)
    requires ' ' !in t.triple && ' ' !in u.triple
    ensures t != u ==> ZigFlags(t) != ZigFlags(u)
  {
    var rest := " -isystem /usr/include -L";
    var s1, s2 := t.triple + (rest + t.libDir), u.triple + (rest + u.libDir);
    assert ZigFlags(t) == " -target " + s1 && ZigFlags(u) == " -target " + s2;
    assert ZigFlags(t)[9..] == s1 && ZigFlags(u)[9..] == s2;
    if |t.triple| < |u.triple| {
      SpaceFreeWordsSplit(t.triple, rest + t.libDir, u.triple, rest + u.libDir);
    } else if |u.triple| < |t.triple| {
      SpaceFreeWordsSplit(u.triple, rest + u.libDir, t.triple, rest + t.libDir);
    } else {
      assert s1[..|t.triple|] == t.triple && s2[..|u.triple|] == u.triple;
      var k := |t.triple| + |rest|;
      assert s1[k..] == t.libDir && s2[k..] == u.libDir;
    }
  }

  /** Each architecture has its own C and C++ compiler commands. */
  lemma CompilersPerArchitecture(a: Architecture, b: Architecture)
    requires a != b
    ensures ZigInvocation("cc", ToolchainOf(a)) != ZigInvocation("cc", ToolchainOf(b))
    ensures ZigInvocation("c++", ToolchainOf(a)) != ZigInvocation("c++", ToolchainOf(b))
  {
    var t, u := ToolchainOf(a), ToolchainOf(b);
    ZigFlagsInjective(t, u);
    assert ZigInvocation("cc", t)[6..] == ZigFlags(t) && ZigInvocation("cc", u)[6..] == ZigFlags(u);
    assert ZigInvocation("c++", t)[7..] == ZigFlags(t) && ZigInvocation("c++", u)[7..] == ZigFlags(u);
  }

  /** The architecture-specific SetEnv calls, one arm of the switch per architecture, in source order. */
  function ArchCalls(a: Architecture): (calls: seq<EnvCall>)
    ensures |calls| >= 3 && calls[0] == ("GOARCH", ArchName(a))
    ensures forall i :: 0 <= i < |calls| ==> calls[i].0 != "GOOS"
  {
    var t := ToolchainOf(a);
    if a == Arm then [("GOARCH", ArchName(a)), ("GOARM", "7"), ("CC", ZigInvocation("cc", t)), ("CXX", ZigInvocation("c++", t))]
    else [("GOARCH", ArchName(a)), ("CC", ZigInvocation("cc", t)), ("CXX", ZigInvocation("c++", t))]
  }

  /**
   * Every SetEnv call setupContainerImages makes on the image of `a`, in order:
   * the architecture's entries, then GOOS.
   */
  function EnvCalls(a: Architecture): (calls: seq<EnvCall>)
    ensures |calls| >= 4 && calls[|calls| - 1] == ("GOOS", LINUX_OS)
    ensures forall i :: 0 <= i < |calls| - 1 ==> calls[i].0 != "GOOS"
    ensures calls[0] == ("GOARCH", ArchName(a))
  {
    ArchCalls(a) + [("GOOS", LINUX_OS)]
  }

  /** The environment after SetEnv was called with each of `calls`, in order, starting from `env`. */
  function ApplyEnv(env: map<string, string>, calls: seq<EnvCall>): (r: map<string, string>)
    ensures env.Keys <= r.Keys
    ensures forall i :: 0 <= i < |calls| ==> calls[i].0 in r
    decreases |calls|
  {
    if calls == [] then env
    else
      var last := calls[|calls| - 1];
      ApplyEnv(env, calls[..|calls| - 1])[last.0 := last.1]
  }

  /** The value of the last of `calls` that sets `key`, if any does. */
  function LastSet(calls: seq<EnvCall>, key: string): Option<string>
    decreases |calls|
  {
    if calls == [] then None
    else if calls[|calls| - 1].0 == key then Some(calls[|calls| - 1].1)
    else LastSet(calls[..|calls| - 1], key)
  }

  /** SetEnv overwrites: a key holds what the last call setting it set, or else what it held before. */
  lemma {:induction false} LastSetWins(env: map<string, string>, calls: seq<EnvCall>, key: string)
    ensures key in ApplyEnv(env, calls) <==> key in env || LastSet(calls, key).Some?
    ensures key in ApplyEnv(env, calls) ==>
      ApplyEnv(env, calls)[key] == if LastSet(calls, key).Some? then LastSet(calls, key).value else env[key]
    decreases |calls|
  {
    if calls != [] {
      LastSetWins(env, calls[..|calls| - 1], key);
    }
  }

  /** Applying one more call updates the environment of the earlier ones. */
  lemma ApplyEnvSnoc(env: map<string, string>, calls: seq<EnvCall>, c: EnvCall)
    ensures ApplyEnv(env, calls + [c]) == ApplyEnv(env, calls)[c.0 := c.1]
  {
    assert (calls + [c])[..|calls|] == calls;
  }

  /**
   * The environment a linux image for `a` is meant to end up with, written as
   * a table: GOOS, GOARCH, GOARM for arm only, and CC/CXX from one toolchain.
   */
  function LinuxEnv(a: Architecture): map<string, string> {
    var t := ToolchainOf(a);
    var common := map["GOARCH" := ArchName(a), "CC" := ZigInvocation("cc", t), "CXX" := ZigInvocation("c++", t), "GOOS" := LINUX_OS];
    if a == Arm then common["GOARM" := "7"] else common
  }

  /** The table has exactly GOARCH, CC, CXX and GOOS, plus GOARM for arm only. */
  lemma LinuxEnvKeys(a: Architecture)
    ensures LinuxEnv(a).Keys == {"GOARCH", "CC", "CXX", "GOOS"} + (if a == Arm then {"GOARM"} else {})
    ensures "GOARM" in LinuxEnv(a) <==> a == Arm
  {
  }

  /**
   * The values of the table: GOOS is linux, GOARCH the architecture's name,
   * GOARM is 7, and CC and CXX are the toolchain's C and C++ zig invocations,
   * so they are non-empty and share the same flags.
   */
  lemma LinuxEnvValues(a: Architecture)
    ensures "GOOS" in LinuxEnv(a) && LinuxEnv(a)["GOOS"] == LINUX_OS
    ensures "GOARCH" in LinuxEnv(a) && LinuxEnv(a)["GOARCH"] == ArchName(a)
    ensures a == Arm ==> "GOARM" in LinuxEnv(a) && LinuxEnv(a)["GOARM"] == "7"
    ensures "CC" in LinuxEnv(a) && LinuxEnv(a)["CC"] == ZigInvocation("cc", ToolchainOf(a))
    ensures "CXX" in LinuxEnv(a) && LinuxEnv(a)["CXX"] == ZigInvocation("c++", ToolchainOf(a))
    ensures |LinuxEnv(a)["CC"]| > 0 && |LinuxEnv(a)["CXX"]| > 0
  {
  }

  /**
   * Whatever environment an image starts with, the SetEnv calls for `a` leave
   * it overridden by the table: in particular GOOS is "linux" however the
   * earlier entries are arranged, and no GOARM is added except for arm.
   */
  lemma {:induction false} ImageEnvFromAnyStart(env: map<string, string>, a: Architecture)
    ensures ApplyEnv(env, EnvCalls(a)) == env + LinuxEnv(a)
  {
    var calls := ArchCalls(a);
    ApplyEnvSnoc(env, calls, ("GOOS", LINUX_OS));
    var t := ToolchainOf(a);
    var cc, cxx := ZigInvocation("cc", t), ZigInvocation("c++", t);
    if a == Arm {
      ApplyEnvOfFour(env, calls[0], calls[1], calls[2], calls[3]);
      UpdatesAsMergeWithExtra(env, "GOARCH", ArchName(a), "GOARM", "7", "CC", cc, "CXX", cxx, "GOOS", LINUX_OS);
    } else {
      ApplyEnvOfThree(env, calls[0], calls[1], calls[2]);
      UpdatesAsMerge(env, "GOARCH", ArchName(a), "CC", cc, "CXX", cxx, "GOOS", LINUX_OS);
    }
  }

  /** Four updates in a row are a merge with the map of the four entries. */
  lemma UpdatesAsMerge<K, V>(env: map<K, V>, k0: K, v0: V, k1: K, v1: V, k2: K, v2: V, k3: K, v3: V)
    ensures env[k0 := v0][k1 := v1][k2 := v2][k3 := v3] == env + map[k0 := v0, k1 := v1, k2 := v2, k3 := v3]
  {
  }

  /** As UpdatesAsMerge, with a fifth key, distinct from the later three, set second. */
  lemma UpdatesAsMergeWithExtra<K, V>(env: map<K, V>, k0: K, v0: V, x: K, w: V, k1: K, v1: V, k2: K, v2: V, k3: K, v3: V)
    requires x != k1 && x != k2 && x != k3
    ensures env[k0 := v0][x := w][k1 := v1][k2 := v2][k3 := v3] ==
      env + map[k0 := v0, k1 := v1, k2 := v2, k3 := v3][x := w]
  {
  }

  lemma ApplyEnvOfThree(env: map<string, string>, c0: EnvCall, c1: EnvCall, c2: EnvCall)
    ensures ApplyEnv(env, [c0, c1, c2]) == env[c0.0 := c0.1][c1.0 := c1.1][c2.0 := c2.1]
  {
    ApplyEnvSnoc(env, [], c0);
    assert [] + [c0] == [c0];
    ApplyEnvSnoc(env, [c0], c1);
    assert [c0] + [c1] == [c0, c1];
    ApplyEnvSnoc(env, [c0, c1], c2);
    assert [c0, c1] + [c2] == [c0, c1, c2];
  }

  lemma ApplyEnvOfFour(env: map<string, string>, c0: EnvCall, c1: EnvCall, c2: EnvCall, c3: EnvCall)
    ensures ApplyEnv(env, [c0, c1, c2, c3]) == env[c0.0 := c0.1][c1.0 := c1.1][c2.0 := c2.1][c3.0 := c3.1]
  {
    ApplyEnvOfThree(env, c0, c1, c2);
    ApplyEnvSnoc(env, [c0, c1, c2], c3);
    assert [c0, c1, c2] + [c3] == [c0, c1, c2, c3];
  }
}
