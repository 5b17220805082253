/** Range filtering of integers read from the configuration store into Go's
    `uint16` (pcap-config/internal/config/utils.go). */
module ConfigUtils {

  /** Go's `uint16`. */
  type Uint16 = x: int | 0 <= x <= 0xFFFF

  /** `isValidUint16`: the integer fits in a `uint16`. */
  predicate IsValidUint16(value: int)
  {
    0 <= value <= 0xFFFF
  }

  /** `t_uint16`: the raw integer (what `ktx.Int(path)` returned) converted to
      `uint16` when it is in range, and 0 when it is not. */
  function TUint16(rawValue: int): (r: Uint16)
    ensures IsValidUint16(rawValue) <==> r == rawValue
    ensures r != rawValue ==> r == 0
  {
    if IsValidUint16(rawValue) then rawValue else 0
  }

  /** The in-range elements of `raw`, in their original order: the value that
      `t_uint16s` builds. */
  function ValidUint16s(raw: seq<int>): seq<Uint16>
  {
    if raw == [] then []
    else
      var last := raw[|raw| - 1];
      ValidUint16s(raw[..|raw| - 1]) + (if IsValidUint16(last) then [last as Uint16] else [])
  }

  /** `t_uint16s`: appends every in-range raw value, in order, to a fresh slice. */
  method TUint16s(rawValues: seq<int>) returns (values: seq<Uint16>)
    ensures values == ValidUint16s(rawValues)
  {
    values := [];
    var i := 0;
    while i < |rawValues|
      invariant 0 <= i <= |rawValues|
      invariant values == ValidUint16s(rawValues[..i])
    {
      var rawValue := rawValues[i];
      if IsValidUint16(rawValue) {
        values := values + [rawValue as Uint16];
      }
      assert rawValues[..i + 1][..i] == rawValues[..i];
      i := i + 1;
    }
    assert rawValues[..i] == rawValues;
  }

  /** Filtering distributes over concatenation: it keeps the relative order of
      the elements it keeps. */
  lemma {:induction false} ValidUint16sAppend(a: seq<int>, b: seq<int>)
    ensures ValidUint16s(a + b) == ValidUint16s(a) + ValidUint16s(b)
    decreases |b|
  {
    if b == [] {
      assert a + b == a;
    } else {
      var b' := b[..|b| - 1];
      assert (a + b)[..|a + b| - 1] == a + b';
      assert (a + b)[|a + b| - 1] == b[|b| - 1];
      ValidUint16sAppend(a, b');
    }
  }

  /** The filter never lengthens its input, and keeps exactly the in-range
      elements (every element of the output is at most 65535 by its type). */
  lemma {:induction false} ValidUint16sSpec(raw: seq<int>)
    ensures |ValidUint16s(raw)| <= |raw|
    ensures forall x :: x in ValidUint16s(raw) <==> x in raw && IsValidUint16(x)
  {
    if raw != [] {
      var init := raw[..|raw| - 1];
      ValidUint16sSpec(init);
      assert raw == init + [raw[|raw| - 1]];
      forall x
        ensures x in raw <==> x in init || x == raw[|raw| - 1]
      {
      }
    }
  }
}
