/** The watcher process of pcap-fsnotify/main.go: the rotation tables and the
    `isActive` flag as the state of one object, the export of a segment
    (`exportPcapFile`), the event loop's dispatch and the terminal flush of
    the source directory (`flushSrcDir`). */
module Watcher {
  import opened Wrappers
  import opened SegmentNames
  import opened Mover
  import Rotation
  import Shutdown

  /** The command-line flags the watcher uses. */
  datatype Flags = Flags(srcDir: string, gcsDir: string, exts: seq<string>, gzip: bool, retriesMax: nat)

  /** An fsnotify event: the file's path and whether it has the `Create` bit. */
  datatype FsEvent = FsEvent(name: string, create: bool)

  /** A move that `exportPcapFile` performed: the file moved and the outcome. */
  datatype MoveCall = MoveCall(source: string, result: MoveResult)

  type Uint32 = x: int | 0 <= x < 0x1_0000_0000

  // ---------------------------------------------------------------------------
  // The directory walk of flushSrcDir

  datatype FileInfo = FileInfo(isDir: bool)

  /** One call of the `filepath.Walk` callback: the path, its file info (nil
      when `lstat` failed) and whether an error is passed along. */
  datatype WalkVisit = WalkVisit(path: string, info: Option<FileInfo>, failed: bool)

  datatype VisitAction = Skip | Submit | Panic

  /** The callback as written: it calls `info.IsDir()` before looking at the
      error, which panics on the nil info of a failed `lstat`. */
  function VisitAsWritten(v: WalkVisit): (a: VisitAction)
    ensures a == Panic <==> v.info.None?
    ensures a == Submit <==> v.info.Some? && !v.info.value.isDir && !v.failed
  {
    match v.info
    case None => Panic
    case Some(info) => if info.isDir then Skip else if v.failed then Skip else Submit
  }

  /** The callback as evidently intended: the error is looked at first. */
  function Visit(v: WalkVisit): (a: VisitAction)
    ensures a != Panic
    ensures a == Submit <==> !v.failed && v.info.Some? && !v.info.value.isDir
    ensures v.info.Some? ==> a == VisitAsWritten(v)
  {
    if v.failed then Skip
    else match v.info
      case None => Skip
      case Some(info) => if info.isDir then Skip else Submit
  }

  /** The paths the flush submits for export, in walk order. */
  function Submitted(visits: seq<WalkVisit>): seq<string>
  {
    if |visits| == 0 then []
    else Submitted(visits[..|visits| - 1]) + (if Visit(visits[|visits| - 1]) == Submit then [visits[|visits| - 1].path] else [])
  }

  /** The walk as written: `None` when a callback panics. */
  function WalkAsWritten(visits: seq<WalkVisit>): (r: Option<seq<string>>)
    ensures r.Some? ==> |r.value| <= |visits|
    ensures r.Some? ==> forall i :: 0 <= i < |visits| ==> visits[i].info.Some?
  {
    if |visits| == 0 then Some([])
    else match WalkAsWritten(visits[..|visits| - 1])
      case None => None
      case Some(paths) =>
        match VisitAsWritten(visits[|visits| - 1])
        case Panic => None
        case Submit => Some(paths + [visits[|visits| - 1].path])
        case Skip => Some(paths)
  }

  /** The walk as written agrees with the intended one as long as every
      `lstat` succeeds, and panics as soon as one fails (for instance when
      the source directory itself is gone). */
  lemma {:induction false} WalkAsWrittenPanics(visits: seq<WalkVisit>)
    ensures (forall i :: 0 <= i < |visits| ==> visits[i].info.Some?) ==> WalkAsWritten(visits) == Some(Submitted(visits))
    ensures (exists i :: 0 <= i < |visits| && visits[i].info.None?) ==> WalkAsWritten(visits) == None
  {
    if |visits| > 0 {
      var p := visits[..|visits| - 1];
      WalkAsWrittenPanics(p);
      if exists i :: 0 <= i < |visits| && visits[i].info.None? {
        var i :| 0 <= i < |visits| && visits[i].info.None?;
        if i < |p| {
          assert p[i] == visits[i];
        }
      } else {
        forall i | 0 <= i < |p|
          ensures p[i].info.Some?
        {
          assert p[i] == visits[i];
        }
        var v := visits[|visits| - 1];
        assert v.info.Some?;
        assert Visit(v) == VisitAsWritten(v);
        if Visit(v) == Submit {
          assert WalkAsWritten(visits) == Some(Submitted(p) + [v.path]);
        } else {
          assert VisitAsWritten(v) == Skip;
          assert Submitted(visits) == Submitted(p) + [] == Submitted(p);
        }
      }
    }
  }

  /** The paths of the submitted files that are segments: the ones whose
      flush export moves them. */
  function Flushable(cfg: Flags, paths: seq<string>): seq<string>
  {
    if |paths| == 0 then []
    else
      var last := paths[|paths| - 1];
      Flushable(cfg, paths[..|paths| - 1]) + (if Parse(cfg.srcDir, cfg.exts, last).Some? then [last] else [])
  }

  /** The move moved `source` to `target`, succeeded exactly when the file
      system lets it, and removed the source only after success and only
      when asked to. */
  predicate MovedAs(call: MoveCall, source: string, target: string, ok: bool, delete: bool, env: MoveEnv, retriesMax: nat)
  {
    && call.source == source
    && call.result.target == target
    && (ok <==> call.result.err.None?)
    && (ok <==> MoveSucceeds(env, retriesMax))
    && (call.result.removed <==> ok && delete && env.removeOk)
  }

  /** A flush export: the file moved to its base name under the destination,
      uncompressed and kept, as the file system let it. */
  predicate Flushed(call: MoveCall, cfg: Flags, envOf: string -> MoveEnv)
  {
    MovedAs(call, call.source, TargetPath(call.source, cfg.gcsDir, false),
            call.result.err.None?, false, envOf(call.source), cfg.retriesMax)
  }

  lemma FlushedStep(calls: seq<MoveCall>, call: MoveCall, cfg: Flags, envOf: string -> MoveEnv)
    requires forall j :: 0 <= j < |calls| ==> Flushed(calls[j], cfg, envOf)
    requires Flushed(call, cfg, envOf)
    ensures forall j :: 0 <= j < |calls + [call]| ==> Flushed((calls + [call])[j], cfg, envOf)
  {
  }

  function Sources(calls: seq<MoveCall>): seq<string>
  {
    if |calls| == 0 then [] else Sources(calls[..|calls| - 1]) + [calls[|calls| - 1].source]
  }

  /** A `uint32` counter bumped once per item, wrapping at 2^32, still
      equals the item count modulo 2^32. */
  lemma IncrementWraps(n: nat, counter: Uint32)
    requires counter == n % 0x1_0000_0000
    ensures (if counter == 0xFFFF_FFFF then 0 else counter + 1) == (n + 1) % 0x1_0000_0000
  {
  }

  lemma SubmittedStep(visits: seq<WalkVisit>, i: nat)
    requires i < |visits|
    ensures Submitted(visits[..i + 1])
         == Submitted(visits[..i]) + (if Visit(visits[i]) == Submit then [visits[i].path] else [])
  {
    assert visits[..i + 1][..i] == visits[..i];
  }

  lemma FlushableStep(cfg: Flags, paths: seq<string>, path: string)
    ensures Flushable(cfg, paths + [path])
         == Flushable(cfg, paths) + (if Parse(cfg.srcDir, cfg.exts, path).Some? then [path] else [])
  {
    assert (paths + [path])[..|paths|] == paths;
  }

  lemma SourcesStep(calls: seq<MoveCall>, call: MoveCall)
    ensures Sources(calls + [call]) == Sources(calls) + [call.source]
  {
    assert (calls + [call])[..|calls|] == calls;
  }

  // ---------------------------------------------------------------------------
  // The watcher

  class Sidecar {
    const cfg: Flags
    var counters: map<string, nat>
    var lastPcap: map<string, string>
    var isActive: bool
    var cancelled: bool
    ghost var fires: nat

    ghost function Tables(): Rotation.Tables
      reads this
    {
      Rotation.Tables(counters, lastPcap)
    }

    ghost function Flag(): Shutdown.Flag
      reads this
    {
      Shutdown.Flag(isActive, cancelled, fires)
    }

    ghost predicate Valid()
      reads this
    {
      Shutdown.Inv(Flag())
    }

    /** Start-up with empty tables, corrected: the flag is set, and an
        initialization error (`addOk` false) cancels through the guard at once.
        The program as written clears the flag first (main.go:445-450) and then
        never cancels; that start-up is `Shutdown.StartAsWritten`, and
        `Shutdown.InitFailureNeverCancels` shows the hang. */
    constructor(cfg: Flags, addOk: bool)
      ensures Valid()
      ensures this.cfg == cfg
      ensures Tables() == Rotation.Empty
      ensures Flag() == Shutdown.StartCorrected(addOk)
    {
      this.cfg := cfg;
      counters := map[];
      lastPcap := map[];
      isActive := true;
      cancelled := false;
      fires := 0;
      new;
      if !addOk {
        var _ := Trigger();
      }
    }

    /** A guarded cancellation: `if isActive.CompareAndSwap(true, false) { cancel() }`. */
    method Trigger() returns (fired: bool)
      requires Valid()
      modifies this
      ensures Valid()
      ensures fired == old(isActive)
      ensures Flag() == Shutdown.Fire(old(Flag()))
      ensures Tables() == old(Tables())
    {
      fired := isActive;
      if isActive {
        isActive := false;
        cancelled := true;
        fires := fires + 1;
      }
    }

    /** The tail of the streaming step (main.go:344-367): move the key's
        previous segment, then make the new segment the key's last with a
        compare-and-swap, falling back to a plain set when a concurrent
        write (`interference`) made the swap fail. */
    method ExportPrevious(key: string, previous: string, srcFile: string, compress: bool, delete: bool,
                          env: MoveEnv, interference: Option<string>)
      returns (ok: bool, call: Option<MoveCall>, leaked: bool)
      requires key in lastPcap && lastPcap[key] == previous
      modifies this
      ensures isActive == old(isActive) && cancelled == old(cancelled) && fires == old(fires)
      ensures counters == old(counters) && lastPcap == old(lastPcap)[key := srcFile]
      ensures call.Some? && MovedAs(call.value, previous, TargetPath(previous, cfg.gcsDir, compress), ok, delete, env, cfg.retriesMax)
      ensures leaked <==> interference.Some? && interference.value != previous
    {
      var result := MovePcapToGcs(previous, cfg.gcsDir, compress, delete, env, cfg.retriesMax);
      if interference.Some? {
        lastPcap := lastPcap[key := interference.value];
      }
      leaked := lastPcap[key] != previous;
      lastPcap := lastPcap[key := srcFile];
      return result.err.None?, Some(MoveCall(previous, result)), leaked;
    }

    /** The streaming half of `exportPcapFile` (main.go:320-367), once the
        segment's rotation key is known: count it, export the key's previous
        segment when there is one, and record the new segment as the key's
        last. `interference` is a concurrent write to `lastPcap` between the
        read and the compare-and-swap; `leaked` reports the failed swap. */
    method TrackSegment(key: string, srcFile: string, compress: bool, delete: bool, env: MoveEnv, interference: Option<string>)
      returns (ok: bool, call: Option<MoveCall>, leaked: bool)
      modifies this
      ensures isActive == old(isActive) && cancelled == old(cancelled) && fires == old(fires)
      ensures Tables() == Rotation.Advance(old(Tables()), key, srcFile)
      ensures match Rotation.Decide(old(Tables()), key)
        case Export(previous) =>
          && call.Some?
          && MovedAs(call.value, previous, TargetPath(previous, cfg.gcsDir, compress), ok, delete, env, cfg.retriesMax)
          && (leaked <==> interference.Some? && interference.value != previous)
        case _ => !ok && call.None? && !leaked
    {
      ghost var t0 := Tables();
      var lastPcapFileName := if key in lastPcap then lastPcap[key] else "";
      var loaded := key in lastPcap;
      var iteration := (if key in counters then counters[key] else 0) + 1;
      counters := counters[key := iteration];
      if iteration == 1 {
        assert Rotation.Decide(t0, key) == Rotation.KeepFirst;
        lastPcap := lastPcap[key := srcFile];
        return false, None, false;
      }
      if !loaded || lastPcapFileName == "" {
        assert Rotation.Decide(t0, key) == Rotation.Unavailable;
        lastPcap := lastPcap[key := srcFile];
        return false, None, false;
      }
      assert Rotation.Decide(t0, key) == Rotation.Export(lastPcapFileName);
      ok, call, leaked := ExportPrevious(key, lastPcapFileName, srcFile, compress, delete, env, interference);
    }

    /** `exportPcapFile`. In flush mode it refuses while the flag is set, and
        otherwise moves the file itself, leaving the tables alone; in
        streaming mode it tracks the segment. Names that are not segments
        are ignored. */
    method ExportPcapFile(srcFile: string, compress: bool, delete: bool, flush: bool, env: MoveEnv, interference: Option<string>)
      returns (ok: bool, call: Option<MoveCall>, leaked: bool)
      modifies this
      ensures Flag() == old(Flag())
      ensures flush ==> Tables() == old(Tables()) && !leaked
      ensures flush && old(isActive) ==> !ok && call.None?
      ensures flush && !old(isActive) ==>
        match Parse(cfg.srcDir, cfg.exts, srcFile)
        case None => !ok && call.None?
        case Some(_) =>
          call.Some? && MovedAs(call.value, srcFile, TargetPath(srcFile, cfg.gcsDir, compress), ok, delete, env, cfg.retriesMax)
      ensures !flush ==>
        match Parse(cfg.srcDir, cfg.exts, srcFile)
        case None => Tables() == old(Tables()) && !ok && call.None? && !leaked
        case Some(seg) =>
          && Tables() == Rotation.Advance(old(Tables()), RotationKey(seg), srcFile)
          && match Rotation.Decide(old(Tables()), RotationKey(seg))
             case Export(previous) =>
               && call.Some?
               && MovedAs(call.value, previous, TargetPath(previous, cfg.gcsDir, compress), ok, delete, env, cfg.retriesMax)
               && (leaked <==> interference.Some? && interference.value != previous)
             case _ => !ok && call.None? && !leaked
    {
      if flush && isActive {
        return false, None, false;
      }
      var rMatch := Parse(cfg.srcDir, cfg.exts, srcFile);
      match rMatch {
        case None =>
          return false, None, false;
        case Some(seg) =>
          if flush {
            var result := MovePcapToGcs(srcFile, cfg.gcsDir, compress, delete, env, cfg.retriesMax);
            return result.err.None?, Some(MoveCall(srcFile, result)), false;
          }
          ok, call, leaked := TrackSegment(RotationKey(seg), srcFile, compress, delete, env, interference);
      }
    }

    /** One iteration of the event loop: a created segment is exported with
        deletion on; the created sentinel cancels through the guard; other
        events are ignored, and so is everything once the flag is clear and
        the loop has ended. */
    method HandleEvent(ev: FsEvent, env: MoveEnv, interference: Option<string>)
      returns (ok: bool, call: Option<MoveCall>, fired: bool)
      requires Valid()
      modifies this
      ensures Valid()
      ensures !old(isActive) ==> Tables() == old(Tables()) && Flag() == old(Flag()) && call.None? && !fired
      ensures old(isActive) && ev.create ==>
        match Parse(cfg.srcDir, cfg.exts, ev.name)
        case Some(seg) =>
          && Flag() == old(Flag()) && !fired
          && Tables() == Rotation.Advance(old(Tables()), RotationKey(seg), ev.name)
          && (call.Some? <==> Rotation.Decide(old(Tables()), RotationKey(seg)).Export?)
          && (call.Some? ==>
               MovedAs(call.value, Rotation.Decide(old(Tables()), RotationKey(seg)).previous,
                       TargetPath(Rotation.Decide(old(Tables()), RotationKey(seg)).previous, cfg.gcsDir, cfg.gzip),
                       ok, true, env, cfg.retriesMax))
        case None => true
      ensures old(isActive) && ev.create && IsExitSentinel(cfg.srcDir, ev.name) ==>
        fired && Flag() == Shutdown.Fire(old(Flag())) && Tables() == old(Tables())
      ensures old(isActive) && !(ev.create && (Parse(cfg.srcDir, cfg.exts, ev.name).Some? || IsExitSentinel(cfg.srcDir, ev.name))) ==>
        Tables() == old(Tables()) && Flag() == old(Flag()) && call.None? && !fired && !ok
    {
      ok, call, fired := false, None, false;
      if !isActive {
        return;
      }
      if ev.create && Parse(cfg.srcDir, cfg.exts, ev.name).Some? {
        var leaked;
        ok, call, leaked := ExportPcapFile(ev.name, cfg.gzip, true, false, env, interference);
      } else if ev.create && IsExitSentinel(cfg.srcDir, ev.name) {
        SentinelIsNotSegment(cfg.srcDir, cfg.exts);
        fired := Trigger();
      }
    }

    /** One flush export as the walk starts it once the flag is clear
        (main.go:393): the file is moved as it is, uncompressed and kept,
        when it is a segment of this capture, and the tables do not change. */
    method FlushOne(path: string, envOf: string -> MoveEnv) returns (call: Option<MoveCall>)
      requires !isActive
      modifies this
      ensures isActive == old(isActive) && cancelled == old(cancelled) && fires == old(fires)
      ensures counters == old(counters) && lastPcap == old(lastPcap)
      ensures call.Some? <==> Parse(cfg.srcDir, cfg.exts, path).Some?
      ensures call.Some? ==> call.value.source == path && Flushed(call.value, cfg, envOf)
    {
      var ok, leaked;
      ok, call, leaked := ExportPcapFile(path, false, false, true, envOf(path), None);
    }

    /** `flushSrcDir` as the terminal flush runs it, after the context was
        cancelled, with the corrected walk callback `Visit`: a file whose
        `lstat` fails is skipped, where the program as written panics
        (`WalkAsWrittenPanics`). Every non-directory file is submitted for a flush export
        with compression and deletion off, and the count of submitted files
        is returned as a `uint32`. The tables and the flag do not change.
        `envOf` gives the file system's behaviour for each file. */
    method FlushSrcDir(visits: seq<WalkVisit>, envOf: string -> MoveEnv)
      returns (pending: Uint32, calls: seq<MoveCall>)
      requires Valid() && cancelled
      modifies this
      ensures Valid()
      ensures Tables() == old(Tables()) && Flag() == old(Flag())
      ensures pending == |Submitted(visits)| % 0x1_0000_0000
      ensures Sources(calls) == Flushable(cfg, Submitted(visits))
      ensures forall i :: 0 <= i < |calls| ==> Flushed(calls[i], cfg, envOf)
      ensures forall i :: 0 <= i < |calls| ==> !calls[i].result.removed
    {
      pending := 0;
      calls := [];
      var i := 0;
      while i < |visits|
        invariant 0 <= i <= |visits|
        invariant isActive == old(isActive) && cancelled == old(cancelled) && fires == old(fires)
        invariant counters == old(counters) && lastPcap == old(lastPcap)
        invariant pending == |Submitted(visits[..i])| % 0x1_0000_0000
        invariant Sources(calls) == Flushable(cfg, Submitted(visits[..i]))
        invariant forall j :: 0 <= j < |calls| ==> Flushed(calls[j], cfg, envOf)
      {
        var v := visits[i];
        SubmittedStep(visits, i);
        if Visit(v) == Submit {
          FlushableStep(cfg, Submitted(visits[..i]), v.path);
          IncrementWraps(|Submitted(visits[..i])|, pending);
          pending := if pending == 0xFFFF_FFFF then 0 else pending + 1;
          var call := FlushOne(v.path, envOf);
          if call.Some? {
            SourcesStep(calls, call.value);
            FlushedStep(calls, call.value, cfg, envOf);
            calls := calls + [call.value];
          }
        } else {
          assert Submitted(visits[..i]) + [] == Submitted(visits[..i]);
        }
        i := i + 1;
      }
      assert visits[..i] == visits;
    }
  }
}
