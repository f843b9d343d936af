/** The container side of the host/container directory mapping (package `volume`). */
module Volume {

  /** The three container directories the linux build step uses. */
  datatype Volume = Volume(workDirContainer: string, tmpDirContainer: string, binDirContainer: string)

  /** Joins path elements with the container separator "/"; no cleaning of "." or ".." is done. */
  function JoinPathContainer(parts: seq<string>): (r: string)
    ensures |parts| >= 1 ==> |r| >= |parts[0]| && r[..|parts[0]|] == parts[0]
    ensures |parts| >= 2 ==> |r| > |parts[0]| && r[|parts[0]|] == '/'
    ensures |parts| >= 1 ==> var last := parts[|parts| - 1]; |r| >= |last| && r[|r| - |last|..] == last
    decreases |parts|
  {
    if |parts| == 0 then ""
    else if |parts| == 1 then parts[0]
    else
      var rest := JoinPathContainer(parts[1..]);
      var r := parts[0] + "/" + rest;
      assert parts[1..][|parts[1..]| - 1] == parts[|parts| - 1];
      assert r[..|parts[0]|] == parts[0] && r[|parts[0]|] == '/';
      assert r[|r| - |rest|..] == rest;
      r
  }

  lemma JoinTwo(a: string, b: string)
    ensures JoinPathContainer([a, b]) == a + "/" + b
  {
    assert [a, b][1..] == [b];
  }

  lemma JoinThree(a: string, b: string, c: string)
    ensures JoinPathContainer([a, b, c]) == a + "/" + (b + "/" + c)
    ensures JoinPathContainer([a, b, c]) == a + "/" + b + "/" + c
  {
    assert [a, b, c][1..] == [b, c];
    JoinTwo(b, c);
    assert a + "/" + (b + "/" + c) == a + "/" + b + "/" + c;
  }

  /**
   * A path component that names a directory entry of its own: not empty (an
   * empty component is dropped by path cleaning), not "." or "..", and
   * without the separator.
   */
  predicate IsEntryName(c: string) {
    c != "" && c != "." && c != ".." && '/' !in c
  }

  /**
   * Directories namespaced by an identifier: two different entry-name
   * identifiers give two different directories under one directory. As the
   * identifiers are entry names, the paths also stay apart when "." and ".."
   * components are resolved.
   */
  lemma {:induction false} NamespacedDirsDiffer(dir: string, id1: string, id2: string)
    requires id1 != id2
    requires IsEntryName(id1) && IsEntryName(id2)
    ensures JoinPathContainer([dir, id1]) != JoinPathContainer([dir, id2])
  {
    var p := dir + "/";
    JoinTwo(dir, id1);
    JoinTwo(dir, id2);
    assert (p + id1)[|p|..] == id1 && (p + id2)[|p|..] == id2;
  }

  /**
   * Files namespaced by an identifier: the same entry-name leaf under two
   * different entry-name identifiers gives two different files.
   */
  lemma {:induction false} NamespacedFilesDiffer(dir: string, id1: string, id2: string, leaf: string)
    requires id1 != id2
    requires IsEntryName(id1) && IsEntryName(id2) && IsEntryName(leaf)
    ensures JoinPathContainer([dir, id1, leaf]) != JoinPathContainer([dir, id2, leaf])
  {
    var p := dir + "/";
    JoinThree(dir, id1, leaf);
    JoinThree(dir, id2, leaf);
    var s1, s2 := id1 + "/" + leaf, id2 + "/" + leaf;
    assert (p + s1)[|p|..] == s1 && (p + s2)[|p|..] == s2;
    if |id1| < |id2| {
      assert s1[|id1|] == '/' && s2[|id1|] == id2[|id1|] != '/';
    } else if |id2| < |id1| {
      assert s2[|id2|] == '/' && s1[|id2|] == id1[|id2|] != '/';
    } else {
      assert s1[..|id1|] == id1 && s2[..|id2|] == id2;
    }
  }
}
