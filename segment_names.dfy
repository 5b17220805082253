/** The names of the PCAP segments that tcpdump writes into the source
    directory (pcap-fsnotify/main.go:412-414), as the regular expression
    `^<src_dir>/part__(\d+?)_(.+?)__\d{8}T\d{6}\.(<ext1>|<ext2>...)$`
    matches them, and the rotation key built from the three groups. */
module SegmentNames {
  import opened Wrappers

  predicate IsDigit(c: char)
  {
    '0' <= c <= '9'
  }

  predicate AllDigits(s: string)
  {
    forall i :: 0 <= i < |s| ==> IsDigit(s[i])
  }

  /** `\d{8}T\d{6}` */
  predicate IsTimestamp(s: string)
  {
    |s| == 15 && AllDigits(s[..8]) && s[8] == 'T' && AllDigits(s[9..])
  }

  /** `__\d{8}T\d{6}\.(<exts>)$` matches all of `t`. */
  predicate TailMatches(t: string, exts: seq<string>)
  {
    |t| >= 18 && t[..2] == "__" && IsTimestamp(t[2..17]) && t[17] == '.' && t[18..] in exts
  }

  /** The run of digits that starts `s`: the lazy `(\d+?)` followed by `_`
      can only stop where the digits end. */
  function DigitRun(s: string): (n: nat)
    ensures n <= |s|
    ensures AllDigits(s[..n])
    ensures n < |s| ==> !IsDigit(s[n])
  {
    if |s| > 0 && IsDigit(s[0]) then
      var n := 1 + DigitRun(s[1..]);
      assert s[..n] == [s[0]] + s[1..][..n - 1];
      n
    else 0
  }

  lemma {:induction false} DigitRunOfDigits(d: string, rest: string)
    requires AllDigits(d)
    requires |rest| > 0 && !IsDigit(rest[0])
    ensures DigitRun(d + rest) == |d|
  {
    if |d| > 0 {
      assert (d + rest)[1..] == d[1..] + rest;
      DigitRunOfDigits(d[1..], rest);
    }
  }

  /** The lazy `(.+?)`: the least split point `k`, at or after `k0`, at which
      the rest matches the tail; `.` does not match a newline, so the search
      stops at the first one. */
  function ShortestIface(after: string, exts: seq<string>, k0: nat): (r: Option<nat>)
    requires 1 <= k0 <= |after| + 1
    requires '\n' !in after[..k0 - 1]
    decreases |after| + 1 - k0
    ensures r.Some? ==> k0 <= r.value <= |after| && TailMatches(after[r.value..], exts) && '\n' !in after[..r.value]
    ensures r.Some? ==> forall j :: k0 <= j < r.value ==> !TailMatches(after[j..], exts)
    ensures r.None? ==> forall j :: k0 <= j <= |after| && '\n' !in after[..j] ==> !TailMatches(after[j..], exts)
  {
    if k0 > |after| then None
    else if after[k0 - 1] == '\n' then
      assert forall j :: k0 <= j <= |after| ==> after[..j][k0 - 1] == '\n';
      None
    else
      assert after[..k0] == after[..k0 - 1] + [after[k0 - 1]];
      if TailMatches(after[k0..], exts) then Some(k0)
      else ShortestIface(after, exts, k0 + 1)
  }

  /** The three groups of a match, and the timestamp between them. */
  datatype Segment = Segment(ordinal: string, iface: string, stamp: string, ext: string)

  /** The part of a segment's file name after `part__`. */
  function Groups(seg: Segment): string
  {
    seg.ordinal + "_" + seg.iface + "__" + seg.stamp + "." + seg.ext
  }

  /** The file name a segment is written under. */
  function Compose(srcDir: string, seg: Segment): string
  {
    srcDir + "/part__" + Groups(seg)
  }

  /** What the pattern demands of each group. */
  predicate WellFormed(seg: Segment, exts: seq<string>)
  {
    && |seg.ordinal| > 0 && AllDigits(seg.ordinal)
    && |seg.iface| > 0 && '\n' !in seg.iface
    && IsTimestamp(seg.stamp)
    && seg.ext in exts
  }

  /** The part of a match after `part__<ordinal>_`: interface, timestamp and
      extension, with the interface as short as the lazy group makes it. */
  function MatchAfterOrdinal(after: string, exts: seq<string>): (r: Option<(string, string, string)>)
    ensures r.Some? ==>
      && after == r.value.0 + "__" + r.value.1 + "." + r.value.2
      && |r.value.0| > 0 && '\n' !in r.value.0
      && IsTimestamp(r.value.1) && r.value.2 in exts
  {
    match ShortestIface(after, exts, 1)
    case None => None
    case Some(k) =>
      var t := after[k..];
      assert after == after[..k] + t;
      assert t == t[..2] + t[2..17] + [t[17]] + t[18..];
      Some((after[..k], t[2..17], t[18..]))
  }

  /** The part of a match after `<src_dir>/part__`. */
  function MatchAfterPrefix(rest: string, exts: seq<string>): (r: Option<Segment>)
    ensures r.Some? ==> rest == Groups(r.value) && WellFormed(r.value, exts)
  {
    var n := DigitRun(rest);
    if n == 0 || n == |rest| || rest[n] != '_' then None
    else
      assert rest == rest[..n] + "_" + rest[n + 1..];
      match MatchAfterOrdinal(rest[n + 1..], exts)
      case None => None
      case Some((iface, stamp, ext)) =>
        var seg := Segment(rest[..n], iface, stamp, ext);
        assert Groups(seg) == rest[..n] + "_" + (iface + "__" + stamp + "." + ext);
        Some(seg)
  }

  /** `pcapDotExt.FindStringSubmatch(name)`: the groups of the match, or
      `None` when the name does not match. */
  function Parse(srcDir: string, exts: seq<string>, name: string): (r: Option<Segment>)
    ensures r.Some? ==> name == Compose(srcDir, r.value) && WellFormed(r.value, exts)
  {
    var p := srcDir + "/part__";
    if |name| < |p| || name[..|p|] != p then None
    else
      assert name == p + name[|p|..];
      MatchAfterPrefix(name[|p|..], exts)
  }

  lemma MatchAfterOrdinalOf(iface: string, stamp: string, ext: string, exts: seq<string>)
    requires |iface| > 0 && '\n' !in iface && '_' !in iface
    requires IsTimestamp(stamp) && ext in exts
    ensures MatchAfterOrdinal(iface + "__" + stamp + "." + ext, exts) == Some((iface, stamp, ext))
  {
    var after := iface + "__" + stamp + "." + ext;
    var k := |iface|;
    var t := after[k..];
    assert t == "__" + stamp + "." + ext;
    assert t[..2] == "__" && t[2..17] == stamp && t[17] == '.' && t[18..] == ext;
    assert after[..k] == iface;
    forall j | 1 <= j < k
      ensures !TailMatches(after[j..], exts)
    {
      assert after[j] == iface[j];
    }
    assert after[..0] == [];
    assert ShortestIface(after, exts, 1) == Some(k);
  }

  lemma MatchAfterPrefixOf(seg: Segment, exts: seq<string>)
    requires WellFormed(seg, exts) && '_' !in seg.iface
    ensures MatchAfterPrefix(Groups(seg), exts) == Some(seg)
  {
    var after := seg.iface + "__" + seg.stamp + "." + seg.ext;
    var rest := seg.ordinal + "_" + after;
    assert rest == seg.ordinal + "_" + seg.iface + "__" + seg.stamp + "." + seg.ext;
    DigitRunOfDigits(seg.ordinal, "_" + after);
    assert rest == seg.ordinal + ("_" + after);
    assert rest[|seg.ordinal| + 1..] == after;
    assert rest[..|seg.ordinal|] == seg.ordinal;
    MatchAfterOrdinalOf(seg.iface, seg.stamp, seg.ext, exts);
  }

  /** Every well-formed segment whose interface name has no underscore is
      recovered from its own file name. */
  lemma ParseCompose(srcDir: string, exts: seq<string>, seg: Segment)
    requires WellFormed(seg, exts)
    requires '_' !in seg.iface
    ensures Parse(srcDir, exts, Compose(srcDir, seg)) == Some(seg)
  {
    var p := srcDir + "/part__";
    var rest := Groups(seg);
    var name := Compose(srcDir, seg);
    assert name == p + rest;
    assert name[..|p|] == p;
    assert name[|p|..] == rest;
    MatchAfterPrefixOf(seg, exts);
  }

  /** `strings.Join(rMatch[1:], "/")`: the key under which rotations of one
      capture stream are counted. It includes the extension. */
  function RotationKey(seg: Segment): (k: string)
    ensures |k| == |seg.ordinal| + |seg.iface| + |seg.ext| + 2
    ensures k[..|seg.ordinal|] == seg.ordinal && k[|seg.ordinal|] == '/'
    ensures k[|k| - |seg.ext|..] == seg.ext && k[|k| - |seg.ext| - 1] == '/'
    ensures k[|seg.ordinal| + 1..|k| - |seg.ext| - 1] == seg.iface
  {
    seg.ordinal + "/" + seg.iface + "/" + seg.ext
  }

  lemma SlashPositions(a: string, b: string)
    ensures (a + "/" + b)[|a|] == '/'
    ensures '/' !in a ==> forall i :: 0 <= i < |a| ==> (a + "/" + b)[i] != '/'
    ensures '/' !in b ==> forall i :: |a| < i < |a| + 1 + |b| ==> (a + "/" + b)[i] != '/'
  {
    if '/' !in b {
      forall i | |a| < i < |a| + 1 + |b|
        ensures (a + "/" + b)[i] != '/'
      {
        assert (a + "/" + b)[i] == b[i - |a| - 1];
      }
    }
  }

  lemma SplitAtFirstSlash(a1: string, b1: string, a2: string, b2: string)
    requires '/' !in a1 && '/' !in a2
    requires a1 + "/" + b1 == a2 + "/" + b2
    ensures a1 == a2 && b1 == b2
  {
    SlashPositions(a1, b1);
    SlashPositions(a2, b2);
    assert |a1| == |a2|;
    assert a1 == (a1 + "/" + b1)[..|a1|];
    assert a2 == (a2 + "/" + b2)[..|a2|];
    assert b1 == (a1 + "/" + b1)[|a1| + 1..];
    assert b2 == (a2 + "/" + b2)[|a2| + 1..];
  }

  lemma SplitAtLastSlash(a1: string, b1: string, a2: string, b2: string)
    requires '/' !in b1 && '/' !in b2
    requires a1 + "/" + b1 == a2 + "/" + b2
    ensures a1 == a2 && b1 == b2
  {
    SlashPositions(a1, b1);
    SlashPositions(a2, b2);
    assert |a1| == |a2|;
    assert a1 == (a1 + "/" + b1)[..|a1|];
    assert a2 == (a2 + "/" + b2)[..|a2|];
    assert b1 == (a1 + "/" + b1)[|a1| + 1..];
    assert b2 == (a2 + "/" + b2)[|a2| + 1..];
  }

  /** Segments of the pattern share a rotation key only when their three
      groups agree, as long as no extension holds a slash. */
  lemma RotationKeyInjective(a: Segment, b: Segment, exts: seq<string>)
    requires WellFormed(a, exts) && WellFormed(b, exts)
    requires '/' !in a.ext && '/' !in b.ext
    ensures RotationKey(a) == RotationKey(b) <==> (a.ordinal, a.iface, a.ext) == (b.ordinal, b.iface, b.ext)
  {
    if RotationKey(a) == RotationKey(b) {
      assert '/' !in a.ordinal && '/' !in b.ordinal;
      assert RotationKey(a) == a.ordinal + "/" + (a.iface + "/" + a.ext);
      assert RotationKey(b) == b.ordinal + "/" + (b.iface + "/" + b.ext);
      SplitAtFirstSlash(a.ordinal, a.iface + "/" + a.ext, b.ordinal, b.iface + "/" + b.ext);
      SplitAtLastSlash(a.iface, a.ext, b.iface, b.ext);
    }
  }

  /** `tcpdumpwExitSignal`: the file `tcpdumpw` creates when it terminates. */
  function IsExitSentinel(srcDir: string, name: string): (b: bool)
    ensures b <==> |name| == |srcDir| + 16 && name[..|srcDir|] == srcDir && name[|srcDir|..] == "/TCPDUMPW_EXITED"
  {
    name == srcDir + "/TCPDUMPW_EXITED"
  }

  /** The sentinel never parses as a segment. */
  lemma SentinelIsNotSegment(srcDir: string, exts: seq<string>)
    ensures Parse(srcDir, exts, srcDir + "/TCPDUMPW_EXITED") == None
  {
    var name := srcDir + "/TCPDUMPW_EXITED";
    var p := srcDir + "/part__";
    assert name[|srcDir| + 1] == 'T';
    assert p[|srcDir| + 1] == 'p';
    assert name[..|p|] != p by {
      assert name[..|p|][|srcDir| + 1] == 'T';
    }
  }
}
