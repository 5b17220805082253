/** The rotation tracker of `exportPcapFile` in streaming mode
    (pcap-fsnotify/main.go:294-367) as a specification over explicit tables:
    per rotation key, how many segments were seen and which one is the last.
    The class in the watcher module keeps these tables and is proved against
    the functions here. */
module Rotation {
  import opened Wrappers
  import opened SegmentNames

  /** `counters` and `lastPcap`. */
  datatype Tables = Tables(counters: map<string, nat>, last: map<string, string>)

  const Empty: Tables := Tables(map[], map[])

  /** The counter of a key; `GetOrCompute` starts it at 0. */
  function Count(t: Tables, key: string): nat
  {
    if key in t.counters then t.counters[key] else 0
  }

  /** What streaming mode does with a new segment: keep the very first one of
      its key, report the predecessor unavailable, or export the predecessor. */
  datatype Decision = KeepFirst | Unavailable | Export(previous: string)

  /** The decision, from the counter after its increment and the last segment
      read before it. */
  function Decide(t: Tables, key: string): (d: Decision)
    ensures d.KeepFirst? <==> Count(t, key) == 0
    ensures d.Unavailable? <==> Count(t, key) > 0 && (key !in t.last || t.last[key] == "")
    ensures d.Export? ==> key in t.last && d.previous == t.last[key] && d.previous != ""
  {
    var iteration := Count(t, key) + 1;
    if iteration == 1 then KeepFirst
    else if key !in t.last || t.last[key] == "" then Unavailable
    else Export(t.last[key])
  }

  /** The tables after the step: the counter goes up by one and the new file
      becomes the key's last segment, on every branch. */
  function Advance(t: Tables, key: string, file: string): (r: Tables)
    ensures Count(r, key) == Count(t, key) + 1
    ensures key in r.last && r.last[key] == file
    ensures forall k :: k != key ==> Count(r, k) == Count(t, k)
    ensures forall k :: k != key ==> (k in r.last <==> k in t.last) && (k in t.last ==> r.last[k] == t.last[k])
  {
    Tables(t.counters[key := Count(t, key) + 1], t.last[key := file])
  }

  /** A key has a last segment exactly when it has been counted, and that
      segment has a name. */
  ghost predicate Consistent(t: Tables)
  {
    && (forall key :: key in t.last ==> t.last[key] != "" && Count(t, key) >= 1)
    && (forall key :: key in t.counters && t.counters[key] >= 1 ==> key in t.last)
  }

  /** On consistent tables the predecessor is never unavailable: the
      "unavailable" branch is reachable only under interference. */
  lemma ConsistentNeverUnavailable(t: Tables, key: string)
    requires Consistent(t)
    ensures Decide(t, key) != Unavailable
    ensures Decide(t, key) == KeepFirst <==> key !in t.last
  {
  }

  lemma AdvanceKeepsConsistent(t: Tables, key: string, file: string)
    requires Consistent(t) && file != ""
    ensures Consistent(Advance(t, key, file))
  {
    var r := Advance(t, key, file);
    forall k | k in r.counters && r.counters[k] >= 1
      ensures k in r.last
    {
      if k != key {
        assert Count(r, k) == Count(t, k);
      }
    }
  }

  /** One segment seen by the watcher, under its rotation key. */
  datatype Step = Step(key: string, file: string)

  /** One segment seen: the tables advance, and the predecessor is added to
      the exported ones (with the key it was exported under) when there is
      one to export. */
  function RunStep(run: (Tables, seq<Step>), s: Step): (Tables, seq<Step>)
  {
    match Decide(run.0, s.key)
    case Export(previous) => (Advance(run.0, s.key, s.file), run.1 + [Step(s.key, previous)])
    case _ => (Advance(run.0, s.key, s.file), run.1)
  }

  /** The tables after a sequence of segments, and the predecessors exported
      on the way. */
  function Run(steps: seq<Step>): (Tables, seq<Step>)
  {
    if |steps| == 0 then (Empty, []) else RunStep(Run(steps[..|steps| - 1]), steps[|steps| - 1])
  }

  /** The files of the steps under one key, in order. */
  function FilesFor(steps: seq<Step>, key: string): seq<string>
  {
    if |steps| == 0 then []
    else FilesFor(steps[..|steps| - 1], key) + (if steps[|steps| - 1].key == key then [steps[|steps| - 1].file] else [])
  }

  lemma FilesForAppend(steps: seq<Step>, s: Step, key: string)
    ensures FilesFor(steps + [s], key) == FilesFor(steps, key) + (if s.key == key then [s.file] else [])
  {
    assert (steps + [s])[..|steps|] == steps;
  }

  /** The tables and the exported segments of a run follow the history
      `files` of one key: the counter is its length, the last segment is its
      newest, and exactly the segments before the newest were exported. */
  ghost predicate Tracks(run: (Tables, seq<Step>), key: string, files: seq<string>)
  {
    && Count(run.0, key) == |files|
    && (|files| == 0 <==> key !in run.0.last)
    && (|files| > 0 ==> run.0.last[key] == files[|files| - 1] && run.0.last[key] != "")
    && FilesFor(run.1, key) == (if |files| == 0 then [] else files[..|files| - 1])
  }

  /** A key's history decides what a new segment of that key does: keep it
      when there is none, export the newest otherwise. */
  lemma DecideFromHistory(run: (Tables, seq<Step>), key: string, files: seq<string>)
    requires Tracks(run, key, files)
    ensures Decide(run.0, key) == if |files| == 0 then KeepFirst else Export(files[|files| - 1])
  {
  }

  lemma TracksStep(run: (Tables, seq<Step>), s: Step, key: string, files: seq<string>)
    requires Tracks(run, key, files) && s.file != ""
    ensures Tracks(RunStep(run, s), key, files + (if s.key == key then [s.file] else []))
  {
    var next := RunStep(run, s);
    if s.key == key {
      DecideFromHistory(run, key, files);
      assert (files + [s.file])[..|files|] == files;
      if |files| > 0 {
        FilesForAppend(run.1, Step(key, files[|files| - 1]), key);
        assert files[..|files| - 1] + [files[|files| - 1]] == files;
      }
    } else {
      assert files + [] == files;
      match Decide(run.0, s.key)
      case Export(previous) =>
        FilesForAppend(run.1, Step(s.key, previous), key);
      case _ =>
    }
  }

  /** Per key, whatever the interleaving with other keys: the counter is the
      number of its segments, the last segment is its newest, and exactly
      the segments before the newest were exported, in order. */
  lemma {:induction false} RunTracksEachKey(steps: seq<Step>, key: string)
    requires forall i :: 0 <= i < |steps| ==> steps[i].file != ""
    ensures Tracks(Run(steps), key, FilesFor(steps, key))
  {
    if |steps| > 0 {
      var p := steps[..|steps| - 1];
      RunTracksEachKey(p, key);
      TracksStep(Run(p), steps[|steps| - 1], key, FilesFor(p, key));
    }
  }

  /** Starting from empty tables, with named segments, the tables stay
      consistent. */
  lemma {:induction false} RunConsistent(steps: seq<Step>)
    requires forall i :: 0 <= i < |steps| ==> steps[i].file != ""
    ensures Consistent(Run(steps).0)
  {
    if |steps| > 0 {
      var p := steps[..|steps| - 1];
      var s := steps[|steps| - 1];
      RunConsistent(p);
      AdvanceKeepsConsistent(Run(p).0, s.key, s.file);
    }
  }

  /** With named segments, no step ever finds its predecessor unavailable. */
  lemma RunNeverUnavailable(steps: seq<Step>)
    requires forall i :: 0 <= i < |steps| ==> steps[i].file != ""
    ensures forall i :: 0 <= i < |steps| ==> Decide(Run(steps[..i]).0, steps[i].key) != Unavailable
  {
    forall i | 0 <= i < |steps|
      ensures Decide(Run(steps[..i]).0, steps[i].key) != Unavailable
    {
      RunConsistent(steps[..i]);
      ConsistentNeverUnavailable(Run(steps[..i]).0, steps[i].key);
    }
  }

  /** Two segments of one key: the first is kept, the second triggers the
      export of the first, which it replaces as the key's last segment. */
  lemma TwoRotations(key: string, first: string, second: string)
    requires first != ""
    ensures Run([Step(key, first)]).1 == []
    ensures Run([Step(key, first), Step(key, second)]).1 == [Step(key, first)]
    ensures Run([Step(key, first), Step(key, second)]).0.last[key] == second
  {
    var one := [Step(key, first)];
    var steps := [Step(key, first), Step(key, second)];
    assert one[..0] == [];
    assert Run(one[..0]) == (Empty, []);
    assert Decide(Empty, key) == KeepFirst;
    var t1 := Advance(Empty, key, first);
    assert Run(one) == (t1, []);
    assert steps[..1] == one;
    assert Decide(t1, key) == Export(first);
  }

  lemma StampIsTimestamp(date: string, time: string)
    requires |date| == 8 && AllDigits(date)
    requires |time| == 6 && AllDigits(time)
    ensures IsTimestamp(date + "T" + time)
  {
    var s := date + "T" + time;
    assert s[..8] == date;
    assert s[9..] == time;
  }

  /** A rotation of the stream `0` on `eth0` parses back, under key
      "0/eth0/pcap". */
  lemma ExampleSegmentParses(srcDir: string, stamp: string)
    requires IsTimestamp(stamp)
    ensures var a := Segment("0", "eth0", stamp, "pcap");
      Parse(srcDir, ["pcap"], Compose(srcDir, a)) == Some(a) && RotationKey(a) == "0/eth0/pcap"
  {
    var a := Segment("0", "eth0", stamp, "pcap");
    assert RotationKey(a) == "0/eth0/pcap";
    assert WellFormed(a, ["pcap"]);
    ParseCompose(srcDir, ["pcap"], a);
  }

  /** Two rotations of the stream `0` on `eth0` share one rotation key. */
  lemma ExampleSegmentsShareKey(srcDir: string)
    ensures var a := Segment("0", "eth0", "20240101T000000", "pcap");
      var b := Segment("0", "eth0", "20240101T000100", "pcap");
      && Parse(srcDir, ["pcap"], Compose(srcDir, a)) == Some(a)
      && Parse(srcDir, ["pcap"], Compose(srcDir, b)) == Some(b)
      && RotationKey(a) == "0/eth0/pcap" == RotationKey(b)
  {
    assert "20240101T000000" == "20240101" + "T" + "000000";
    assert "20240101T000100" == "20240101" + "T" + "000100";
    StampIsTimestamp("20240101", "000000");
    StampIsTimestamp("20240101", "000100");
    ExampleSegmentParses(srcDir, "20240101T000000");
    ExampleSegmentParses(srcDir, "20240101T000100");
  }
}
