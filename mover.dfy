/** `movePcapToGcs` (pcap-fsnotify/main.go:157-238): copy one PCAP file into
    the destination directory, optionally gzipped, retrying the copy, and
    delete the source after a successful copy. The file system is an explicit
    environment that scripts the outcome of each system call. */
module Mover {
  import opened Wrappers
  import opened SegmentNames

  // ---------------------------------------------------------------------------
  // Paths (Go's path/filepath on a slash-separated system)

  /** The path without its trailing slashes. */
  function TrimTrailingSlashes(p: string): (r: string)
    ensures |r| <= |p| && r == p[..|r|]
    ensures |r| == 0 || r[|r| - 1] != '/'
    ensures forall i :: |r| <= i < |p| ==> p[i] == '/'
  {
    if |p| > 0 && p[|p| - 1] == '/' then TrimTrailingSlashes(p[..|p| - 1]) else p
  }

  /** The characters after the last slash. */
  function AfterLastSlash(p: string): (r: string)
    ensures '/' !in r
    ensures |r| <= |p| && r == p[|p| - |r|..]
    ensures |r| < |p| ==> p[|p| - |r| - 1] == '/'
  {
    if |p| == 0 || p[|p| - 1] == '/' then ""
    else
      var r := AfterLastSlash(p[..|p| - 1]) + [p[|p| - 1]];
      assert p[..|p| - 1][|p| - 1 - (|r| - 1)..] + [p[|p| - 1]] == p[|p| - |r|..];
      r
  }

  /** `filepath.Base`: the last element of the path; "." for the empty path
      and "/" for a path of slashes only. */
  function Base(path: string): (r: string)
    ensures r != ""
    ensures r == "/" || '/' !in r
    ensures path != "" && '/' !in path ==> r == path
  {
    if path == "" then "."
    else
      var t := TrimTrailingSlashes(path);
      if t == "" then "/"
      else AfterLastSlash(t)
  }

  /** `filepath.Join` of a directory and a base name, without the lexical
      cleaning Go applies afterwards. */
  function Join(dir: string, name: string): (r: string)
    ensures |name| <= |r| && r[|r| - |name|..] == name
    ensures r[..|r| - |name|] == dir || r[..|r| - |name|] == dir + "/"
    ensures dir != "" ==> r[|r| - |name| - 1] == '/'
  {
    if dir == "" then name
    else if dir[|dir| - 1] == '/' then dir + name
    else dir + "/" + name
  }

  /** The destination of a move: the source's base name in `dstDir`, with
      ".gz" appended when compressing. */
  function TargetPath(src: string, dstDir: string, compress: bool): (r: string)
    ensures |dstDir| <= |r| && r[..|dstDir|] == dstDir
    ensures compress ==> |r| >= 3 && r[|r| - 3..] == ".gz"
  {
    var target := Join(dstDir, Base(src));
    if compress then target + ".gz" else target
  }

  lemma {:induction false} AfterLastSlashOfChild(dir: string, name: string)
    requires '/' !in name
    ensures AfterLastSlash(dir + "/" + name) == name
  {
    if |name| > 0 {
      assert (dir + "/" + name)[..|dir + "/" + name| - 1] == dir + "/" + name[..|name| - 1];
      AfterLastSlashOfChild(dir, name[..|name| - 1]);
      assert name == name[..|name| - 1] + [name[|name| - 1]];
    } else {
      assert dir + "/" + name == dir + "/";
    }
  }

  /** The base name of a file directly inside a directory is its own name. */
  lemma BaseOfChild(dir: string, name: string)
    requires name != "" && '/' !in name
    ensures Base(dir + "/" + name) == name
  {
    AfterLastSlashOfChild(dir, name);
  }

  /** The target keeps the source's base name, directly inside `dstDir`, and
      differs between the two settings of `compress` only by ".gz". */
  lemma TargetKeepsBaseName(src: string, dstDir: string)
    requires Base(src) != "/"
    ensures Base(TargetPath(src, dstDir, false)) == Base(src)
    ensures TargetPath(src, dstDir, true) == TargetPath(src, dstDir, false) + ".gz"
  {
    var b := Base(src);
    if dstDir == "" {
    } else if dstDir[|dstDir| - 1] == '/' {
      var d := dstDir[..|dstDir| - 1];
      assert dstDir + b == d + "/" + b;
      BaseOfChild(d, b);
    } else {
      BaseOfChild(dstDir, b);
    }
  }

  /** The file name of a segment, without its directory. */
  function SegmentFileName(seg: Segment): string
  {
    "part__" + Groups(seg)
  }

  /** A segment moved from the source directory lands in `dstDir` under its
      own file name. */
  lemma TargetOfSegment(srcDir: string, dstDir: string, seg: Segment, exts: seq<string>)
    requires WellFormed(seg, exts)
    requires '/' !in seg.iface && '/' !in seg.ext
    requires dstDir != "" && dstDir[|dstDir| - 1] != '/'
    ensures TargetPath(Compose(srcDir, seg), dstDir, false) == dstDir + "/" + SegmentFileName(seg)
    ensures TargetPath(Compose(srcDir, seg), dstDir, true) == dstDir + "/" + SegmentFileName(seg) + ".gz"
  {
    var f := SegmentFileName(seg);
    assert '/' !in seg.ordinal;
    assert '/' !in seg.stamp;
    assert '/' !in f by {
      assert f == "part__" + seg.ordinal + "_" + seg.iface + "__" + seg.stamp + "." + seg.ext;
      assert "/part__" == "/" + "part__";
    }
    assert Compose(srcDir, seg) == srcDir + "/" + f;
    BaseOfChild(srcDir, f);
  }

  // ---------------------------------------------------------------------------
  // The move

  /** The outcome of one `io.Copy` attempt. */
  datatype CopyAttempt = Copied(bytes: nat) | CopyFailed

  /** The file system as the move sees it: whether opening the source and
      creating the target succeed, the outcome of each successive copy
      attempt (the list ends where the retry context is cancelled), and
      whether removing the source succeeds. */
  datatype MoveEnv = MoveEnv(openOk: bool, createOk: bool, attempts: seq<CopyAttempt>, removeOk: bool)

  datatype MoveError =
    | OpenFailed(src: string)
    | CreateFailed(target: string)
    | CopyFailedError(src: string, target: string)

  /** What the call returns (target, bytes, error) and what it did: how many
      copy attempts it made and whether it removed the source. */
  datatype MoveResult = MoveResult(target: string, bytes: nat, err: Option<MoveError>, tries: nat, removed: bool)

  /** How many copy attempts retry-go makes at most: `retries_max`, or, when
      that is 0, as many as it takes until the context is cancelled. */
  function AttemptLimit(env: MoveEnv, retriesMax: nat): (n: nat)
    ensures n <= |env.attempts|
    ensures retriesMax > 0 ==> n <= retriesMax
  {
    if retriesMax == 0 || retriesMax > |env.attempts| then |env.attempts| else retriesMax
  }

  /** Some attempt within the limit copies the file. */
  predicate CopySucceeds(env: MoveEnv, retriesMax: nat)
  {
    exists i :: 0 <= i < AttemptLimit(env, retriesMax) && env.attempts[i].Copied?
  }

  predicate MoveSucceeds(env: MoveEnv, retriesMax: nat)
  {
    env.openOk && env.createOk && CopySucceeds(env, retriesMax)
  }

  /** The retry loop of retry-go around `io.Copy`: try the scripted copy
      attempts in order, up to `limit`, and stop at the first success. */
  method RetryCopy(env: MoveEnv, limit: nat) returns (tries: nat, bytes: nat, copied: bool)
    requires limit <= |env.attempts|
    ensures copied <==> exists i :: 0 <= i < limit && env.attempts[i].Copied?
    ensures !copied ==> tries == limit && bytes == 0
    ensures copied ==>
      && 1 <= tries <= limit
      && env.attempts[tries - 1] == Copied(bytes)
      && forall j :: 0 <= j < tries - 1 ==> env.attempts[j] == CopyFailed
  {
    tries, bytes, copied := 0, 0, false;
    while tries < limit && !copied
      invariant 0 <= tries <= limit
      invariant !copied ==> bytes == 0
      invariant copied ==> tries >= 1 && env.attempts[tries - 1] == Copied(bytes)
      invariant forall j :: 0 <= j < (if copied then tries - 1 else tries) ==> env.attempts[j] == CopyFailed
      decreases limit - tries, if copied then 0 else 1
    {
      match env.attempts[tries] {
        case Copied(b) =>
          bytes := b;
          copied := true;
        case CopyFailed =>
      }
      tries := tries + 1;
    }
    if !copied {
      assert forall i :: 0 <= i < limit ==> env.attempts[i] == CopyFailed;
    }
  }

  /** Open the source, create the target, retry the copy up to the attempt
      limit and, after a successful copy, remove the source when asked to.
      The result names the target on every path; bytes are reported only
      for a successful copy, and a failed removal is logged, not returned. */
  method MovePcapToGcs(src: string, dstDir: string, compress: bool, delete: bool, env: MoveEnv, retriesMax: nat)
    returns (r: MoveResult)
    ensures r.target == TargetPath(src, dstDir, compress)
    ensures r.err.None? <==> MoveSucceeds(env, retriesMax)
    ensures !env.openOk ==> r.err == Some(OpenFailed(src)) && r.tries == 0 && r.bytes == 0
    ensures env.openOk && !env.createOk ==> r.err == Some(CreateFailed(r.target)) && r.tries == 0 && r.bytes == 0
    ensures env.openOk && env.createOk && r.err.Some? ==>
      r.err == Some(CopyFailedError(src, r.target)) && r.tries == AttemptLimit(env, retriesMax) && r.bytes == 0
    ensures r.err.None? ==>
      && 1 <= r.tries <= AttemptLimit(env, retriesMax)
      && env.attempts[r.tries - 1] == Copied(r.bytes)
      && forall j :: 0 <= j < r.tries - 1 ==> env.attempts[j] == CopyFailed
    ensures r.removed <==> r.err.None? && delete && env.removeOk
  {
    var target := TargetPath(src, dstDir, compress);
    if !env.openOk {
      return MoveResult(target, 0, Some(OpenFailed(src)), 0, false);
    }
    if !env.createOk {
      return MoveResult(target, 0, Some(CreateFailed(target)), 0, false);
    }
    var tries, bytes, copied := RetryCopy(env, AttemptLimit(env, retriesMax));
    if !copied {
      return MoveResult(target, 0, Some(CopyFailedError(src, target)), tries, false);
    }
    var removed := delete && env.removeOk;
    return MoveResult(target, bytes, None, tries, removed);
  }
}
