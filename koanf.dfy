/** The koanf configuration store, reduced to what the context loader needs: a
    flat table from a path such as "pcap/features/debug" to a raw value, an
    in-place `Set`, and the typed accessors `String`, `Bool`, `Int`, `Ints` and
    `Strings`. The accessors are modelled as "the value when it already has that
    type, otherwise the type's zero value". */
module Koanf {
  import opened Wrappers

  datatype Raw =
    | RawString(s: string)
    | RawBool(b: bool)
    | RawInt(i: int)
    | RawInts(ints: seq<int>)
    | RawStrings(strs: seq<string>)

  class Store {
    var entries: map<string, Raw>

    constructor (initial: map<string, Raw>)
      ensures entries == initial
    {
      entries := initial;
    }

    /** `ktx.Exists(path)` */
    predicate Exists(path: string)
      reads this
    {
      path in entries
    }

    /** The raw value stored under `path`, if any. */
    function Get(path: string): Option<Raw>
      reads this
    {
      Lookup(entries, path)
    }

    /** `ktx.Set(path, value)`: overwrites one path and nothing else. */
    method Set(path: string, value: Raw)
      modifies this
      ensures entries == old(entries)[path := value]
    {
      entries := entries[path := value];
    }
  }

  function Lookup(entries: map<string, Raw>, path: string): Option<Raw>
  {
    if path in entries then Some(entries[path]) else None
  }

  function AsString(r: Option<Raw>): string
  {
    match r
    case Some(RawString(s)) => s
    case _ => ""
  }

  function AsBool(r: Option<Raw>): bool
  {
    match r
    case Some(RawBool(b)) => b
    case _ => false
  }

  function AsInt(r: Option<Raw>): int
  {
    match r
    case Some(RawInt(i)) => i
    case _ => 0
  }

  function AsInts(r: Option<Raw>): seq<int>
  {
    match r
    case Some(RawInts(ints)) => ints
    case _ => []
  }

  function AsStrings(r: Option<Raw>): seq<string>
  {
    match r
    case Some(RawStrings(strs)) => strs
    case _ => []
  }
}
