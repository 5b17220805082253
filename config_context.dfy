/** The configuration context (pcap-config/internal/config/context.go): the table
    of context variables, loading every variable from the koanf store into a Go
    `context.Context`, and the typed getters over that context. */
module ConfigContext {
  import opened Wrappers
  import opened ConfigKeys
  import opened ConfigErrors
  import opened ConfigUtils
  import Koanf

  /** `ctxVar`: the declared type of a context variable and whether it is required. */
  datatype CtxVar = CtxVar(typ: CtxVarType, req: bool)

  /** `CtxVars` (context.go:37-52). */
  const CtxVars: map<CtxKey, CtxVar> := map[
    BuildKey := CtxVar(TypeString, true),
    VersionKey := CtxVar(TypeString, true),
    ExecEnvKey := CtxVar(TypeString, false),
    InstanceIDKey := CtxVar(TypeString, true),
    DebugKey := CtxVar(TypeBoolean, false),
    FilterKey := CtxVar(TypeString, false),
    HostsFilterKey := CtxVar(TypeListString, false),
    PortsFilterKey := CtxVar(TypeListUint16, false),
    L3ProtosFilterKey := CtxVar(TypeListString, false),
    L4ProtosFilterKey := CtxVar(TypeListString, false),
    TcpFlagsFilterKey := CtxVar(TypeListString, false),
    VerbosityKey := CtxVar(TypeString, false)
  ]

  /** The values a context can hold: the five converted types, an error, or
      anything else some other code stored (named by its Go type). */
  datatype Value =
    | StringValue(s: string)
    | BoolValue(b: bool)
    | Uint16Value(u: Uint16)
    | StringsValue(strs: seq<string>)
    | Uint16sValue(us: seq<Uint16>)
    | ErrorValue(err: Error)
    | OtherValue(goType: string)

  /** A Go context key carries its dynamic type: a `CtxKey` and a plain `string`
      with the same text are different keys. */
  datatype ContextKey = TypedKey(key: CtxKey) | StringKey(name: string)

  /** A context after all its `WithValue` layers: the innermost binding wins. */
  type Context = map<ContextKey, Value>

  /** `ctx.Value(key)`; `None` is a nil interface. */
  function ValueOf(ctx: Context, key: ContextKey): Option<Value>
  {
    if key in ctx then Some(ctx[key]) else None
  }

  /** `newCtxKeyPath`: the key's path in the koanf store. */
  function NewCtxKeyPath(key: CtxKey): (path: string)
    ensures path == "pcap/" + key
    ensures path == ToKtxKey(key)
  {
    FormatTwo([], "/", CtxKeyPrefix, key);
    assert Placeholder(0) + "/" + Placeholder(1) == [] + Placeholder(0) + "/" + Placeholder(1);
    Format(Placeholder(0) + "/" + Placeholder(1), [CtxKeyPrefix, key])
  }

  lemma NewCtxKeyPathInjective(a: CtxKey, b: CtxKey)
    ensures NewCtxKeyPath(a) == NewCtxKeyPath(b) ==> a == b
  {
    KeyFormsInjective(a, b);
  }

  function NewUnavailableConfigError(path: string): Error
  {
    Joined(UnavailableConfig, PathDetail(path), None)
  }

  function NewInvalidConfigValueTypeError(path: string): Error
  {
    Joined(InvalidConfigValue, PathDetail(path), None)
  }

  function NewIllegalConfigStateError(path: string): Error
  {
    Joined(IllegalConfigState, PathDetail(path), None)
  }

  /** `newUnavailableCtxKeyError` and `newIllegalCtxKeyError` use the bare key as the path. */
  function NewUnavailableCtxKeyError(key: CtxKey): Error
  {
    NewUnavailableConfigError(key)
  }

  function NewIllegalCtxKeyError(key: CtxKey): Error
  {
    NewIllegalConfigStateError(key)
  }

  /** `newConfigError`: wraps an error found in the context. */
  function NewConfigError(key: CtxKey, err: Error): Error
  {
    Joined(UnavailableConfig, ToCtxKey(key), Some(err))
  }

  /** `newInvalidConfigError`; `got` is the name of the Go type of the value passed. */
  function NewInvalidConfigError(key: CtxKey, want: CtxVarType, got: string): Error
  {
    Joined(InvalidConfigValue, InvalidTypeDetail(key, want, got), None)
  }

  // ---------------------------------------------------------------------------
  // setCtxVar and LoadContext

  datatype SetOutcome = Bound(value: Value) | Failed(err: Error)

  /** The types `setCtxVar` can convert to. */
  const KnownTypes: set<CtxVarType> := {TypeString, TypeBoolean, TypeUint16, TypeListString, TypeListUint16}

  /** The value has the Go type that `typ` names. */
  predicate HasType(value: Value, typ: CtxVarType)
  {
    match value
    case StringValue(_) => typ == TypeString
    case BoolValue(_) => typ == TypeBoolean
    case Uint16Value(_) => typ == TypeUint16
    case StringsValue(_) => typ == TypeListString
    case Uint16sValue(_) => typ == TypeListUint16
    case _ => false
  }

  /** The type switch of `setCtxVar` (context.go:130-143) over the raw value
      found at `path`. */
  function Convert(typ: CtxVarType, raw: Option<Koanf.Raw>, path: string): (o: SetOutcome)
    ensures o.Bound? <==> typ in KnownTypes
    ensures o.Bound? ==> HasType(o.value, typ)
    ensures o.Failed? ==> o.err == NewInvalidConfigValueTypeError(path)
    ensures typ == TypeString ==> o == Bound(StringValue(Koanf.AsString(raw)))
    ensures typ == TypeBoolean ==> o == Bound(BoolValue(Koanf.AsBool(raw)))
    ensures typ == TypeUint16 ==>
      (o.Bound? && o.value.Uint16Value? && (IsValidUint16(Koanf.AsInt(raw)) <==> o.value.u == Koanf.AsInt(raw)))
    ensures typ == TypeListString ==> o == Bound(StringsValue(Koanf.AsStrings(raw)))
    ensures typ == TypeListUint16 ==>
      (o.Bound? && o.value.Uint16sValue? && forall x :: x in o.value.us <==> x in Koanf.AsInts(raw) && IsValidUint16(x))
  {
    ListTypeNames();
    ValidUint16sSpec(Koanf.AsInts(raw));
    if typ == TypeString then Bound(StringValue(Koanf.AsString(raw)))
    else if typ == TypeBoolean then Bound(BoolValue(Koanf.AsBool(raw)))
    else if typ == TypeUint16 then Bound(Uint16Value(TUint16(Koanf.AsInt(raw))))
    else if typ == TypeListString then Bound(StringsValue(Koanf.AsStrings(raw)))
    else if typ == TypeListUint16 then Bound(Uint16sValue(ValidUint16s(Koanf.AsInts(raw))))
    else Failed(NewInvalidConfigValueTypeError(path))
  }

  /** What `setCtxVar` binds (or the error it returns) for key `k`, given what
      the store holds at the key's path and the built-in defaults. */
  function SetCtxVarOutcome(at: Option<Koanf.Raw>, k: CtxKey, v: CtxVar, defaults: map<CtxKey, Koanf.Raw>): (o: SetOutcome)
    ensures o.Bound? <==> (at.Some? || (!v.req && k in defaults)) && v.typ in KnownTypes
    ensures o.Bound? ==> HasType(o.value, v.typ)
    ensures at.Some? ==> o == Convert(v.typ, at, NewCtxKeyPath(k))
    ensures at.None? && !v.req && k in defaults ==> o == Convert(v.typ, Some(defaults[k]), NewCtxKeyPath(k))
  {
    var path := NewCtxKeyPath(k);
    if v.req && at.None? then Failed(NewUnavailableConfigError(path))
    else if at.None? && k !in defaults then Failed(NewIllegalConfigStateError(path))
    else Convert(v.typ, if at.None? then Some(defaults[k]) else at, path)
  }

  /** The store after `setCtxVar`: the default is written exactly when the path
      is absent, the key is optional and a default exists. */
  function StoreAfterSet(entries: map<string, Koanf.Raw>, k: CtxKey, v: CtxVar, defaults: map<CtxKey, Koanf.Raw>): (e: map<string, Koanf.Raw>)
    ensures forall p :: p != NewCtxKeyPath(k) ==> Koanf.Lookup(e, p) == Koanf.Lookup(entries, p)
    ensures NewCtxKeyPath(k) in entries ==> e == entries
    ensures NewCtxKeyPath(k) !in entries ==>
      Koanf.Lookup(e, NewCtxKeyPath(k)) == (if !v.req && k in defaults then Some(defaults[k]) else None)
  {
    var path := NewCtxKeyPath(k);
    if path !in entries && !v.req && k in defaults then entries[path := defaults[k]] else entries
  }

  /** The decision table of `setCtxVar`: each error kind arises in exactly one
      situation, and a successful call binds a value of the declared type. */
  lemma SetCtxVarClassification(at: Option<Koanf.Raw>, k: CtxKey, v: CtxVar, defaults: map<CtxKey, Koanf.Raw>)
    ensures var r := SetCtxVarOutcome(at, k, v, defaults);
      && ((r.Failed? && Is(r.err, UnavailableConfig)) <==> v.req && at.None?)
      && ((r.Failed? && Is(r.err, IllegalConfigState)) <==> !v.req && at.None? && k !in defaults)
      && ((r.Failed? && Is(r.err, InvalidConfigValue)) <==> (at.Some? || (!v.req && k in defaults)) && v.typ !in KnownTypes)
      && (r.Bound? <==> (at.Some? || (!v.req && k in defaults)) && v.typ in KnownTypes)
      && (r.Bound? ==> HasType(r.value, v.typ))
  {
    ListTypeNames();
  }

  /** `setCtxVar`. */
  method SetCtxVar(ctx: Context, ktx: Koanf.Store, k: CtxKey, v: CtxVar, defaults: map<CtxKey, Koanf.Raw>)
    returns (ctx': Context, err: Option<Error>)
    modifies ktx
    ensures ktx.entries == StoreAfterSet(old(ktx.entries), k, v, defaults)
    ensures match SetCtxVarOutcome(Koanf.Lookup(old(ktx.entries), NewCtxKeyPath(k)), k, v, defaults)
            case Bound(value) => err == None && ctx' == ctx[TypedKey(k) := value]
            case Failed(e) => err == Some(e) && ctx' == ctx
  {
    var path := NewCtxKeyPath(k);
    var isAvailable := ktx.Exists(path);
    if v.req && !isAvailable {
      return ctx, Some(NewUnavailableConfigError(path));
    } else if !isAvailable {
      if k in defaults {
        ktx.Set(path, defaults[k]);
      } else {
        return ctx, Some(NewIllegalConfigStateError(path));
      }
    }
    var value: Value;
    if v.typ == TypeString {
      value := StringValue(Koanf.AsString(ktx.Get(path)));
    } else if v.typ == TypeBoolean {
      value := BoolValue(Koanf.AsBool(ktx.Get(path)));
    } else if v.typ == TypeUint16 {
      value := Uint16Value(TUint16(Koanf.AsInt(ktx.Get(path))));
    } else if v.typ == TypeListString {
      value := StringsValue(Koanf.AsStrings(ktx.Get(path)));
    } else if v.typ == TypeListUint16 {
      var ports := TUint16s(Koanf.AsInts(ktx.Get(path)));
      value := Uint16sValue(ports);
    } else {
      return ctx, Some(NewInvalidConfigValueTypeError(path));
    }
    return ctx[TypedKey(k) := value], None;
  }

  /** What `LoadContext` binds to key `k`: the converted value, or the error. */
  function LoadedValue(entries: map<string, Koanf.Raw>, k: CtxKey, defaults: map<CtxKey, Koanf.Raw>): Value
    requires k in CtxVars
  {
    match SetCtxVarOutcome(Koanf.Lookup(entries, NewCtxKeyPath(k)), k, CtxVars[k], defaults)
    case Bound(x) => x
    case Failed(e) => ErrorValue(e)
  }

  /** The store paths of the context variables. */
  function CtxVarPaths(): set<string>
  {
    set k | k in CtxVars :: NewCtxKeyPath(k)
  }

  /** `order` lists every context variable once: the order in which Go's
      `range` over `CtxVars` happens to visit them. */
  ghost predicate IsRangeOrder(order: seq<CtxKey>)
  {
    && (forall k :: k in CtxVars <==> k in order)
    && (forall i, j :: 0 <= i < j < |order| ==> order[i] != order[j])
  }

  /** The context once the first `i` variables of `order` are loaded. */
  ghost predicate CtxLoaded(r: Context, ctx: Context, entries0: map<string, Koanf.Raw>, order: seq<CtxKey>, i: nat, defaults: map<CtxKey, Koanf.Raw>)
    requires IsRangeOrder(order) && i <= |order|
  {
    && (forall j :: 0 <= j < i ==> ValueOf(r, TypedKey(order[j])) == Some(LoadedValue(entries0, order[j], defaults)))
    && (forall key: ContextKey :: (key.StringKey? || key.key !in order[..i]) ==> ValueOf(r, key) == ValueOf(ctx, key))
  }

  /** The store once the first `i` variables of `order` are loaded. */
  ghost predicate StoreLoaded(entries: map<string, Koanf.Raw>, entries0: map<string, Koanf.Raw>, order: seq<CtxKey>, i: nat, defaults: map<CtxKey, Koanf.Raw>)
    requires IsRangeOrder(order) && i <= |order|
  {
    && (forall j :: 0 <= j < i ==>
         Koanf.Lookup(entries, NewCtxKeyPath(order[j]))
         == Koanf.Lookup(StoreAfterSet(entries0, order[j], CtxVars[order[j]], defaults), NewCtxKeyPath(order[j])))
    && (forall p :: (forall j :: 0 <= j < i ==> p != NewCtxKeyPath(order[j])) ==>
         Koanf.Lookup(entries, p) == Koanf.Lookup(entries0, p))
  }

  lemma StoreStep(entries: map<string, Koanf.Raw>, entries': map<string, Koanf.Raw>, entries0: map<string, Koanf.Raw>,
                  order: seq<CtxKey>, i: nat, defaults: map<CtxKey, Koanf.Raw>)
    requires IsRangeOrder(order) && i < |order|
    requires StoreLoaded(entries, entries0, order, i, defaults)
    requires entries' == StoreAfterSet(entries, order[i], CtxVars[order[i]], defaults)
    ensures Koanf.Lookup(entries, NewCtxKeyPath(order[i])) == Koanf.Lookup(entries0, NewCtxKeyPath(order[i]))
    ensures StoreLoaded(entries', entries0, order, i + 1, defaults)
  {
    var k := order[i];
    forall j | 0 <= j < |order| && j != i
      ensures NewCtxKeyPath(order[j]) != NewCtxKeyPath(k)
    {
      NewCtxKeyPathInjective(order[j], k);
    }
    assert Koanf.Lookup(entries, NewCtxKeyPath(k)) == Koanf.Lookup(entries0, NewCtxKeyPath(k));
  }

  lemma CtxStep(r: Context, r': Context, ctx: Context, entries0: map<string, Koanf.Raw>,
                order: seq<CtxKey>, i: nat, defaults: map<CtxKey, Koanf.Raw>)
    requires IsRangeOrder(order) && i < |order|
    requires CtxLoaded(r, ctx, entries0, order, i, defaults)
    requires r' == r[TypedKey(order[i]) := LoadedValue(entries0, order[i], defaults)]
    ensures CtxLoaded(r', ctx, entries0, order, i + 1, defaults)
  {
    assert order[..i + 1] == order[..i] + [order[i]];
  }

  lemma LoadFinished(r: Context, ctx: Context, entries: map<string, Koanf.Raw>, entries0: map<string, Koanf.Raw>,
                     order: seq<CtxKey>, defaults: map<CtxKey, Koanf.Raw>)
    requires IsRangeOrder(order)
    requires CtxLoaded(r, ctx, entries0, order, |order|, defaults)
    requires StoreLoaded(entries, entries0, order, |order|, defaults)
    ensures forall k :: k in CtxVars ==> ValueOf(r, TypedKey(k)) == Some(LoadedValue(entries0, k, defaults))
    ensures forall key: ContextKey :: (key.StringKey? || key.key !in CtxVars) ==> ValueOf(r, key) == ValueOf(ctx, key)
    ensures forall k :: k in CtxVars ==>
      Koanf.Lookup(entries, NewCtxKeyPath(k))
      == Koanf.Lookup(StoreAfterSet(entries0, k, CtxVars[k], defaults), NewCtxKeyPath(k))
    ensures forall p :: p !in CtxVarPaths() ==> Koanf.Lookup(entries, p) == Koanf.Lookup(entries0, p)
  {
    assert order[..|order|] == order;
    forall p | p !in CtxVarPaths()
      ensures Koanf.Lookup(entries, p) == Koanf.Lookup(entries0, p)
    {
      forall j | 0 <= j < |order|
        ensures p != NewCtxKeyPath(order[j])
      {
        assert order[j] in CtxVars;
      }
    }
    forall k | k in CtxVars
      ensures ValueOf(r, TypedKey(k)) == Some(LoadedValue(entries0, k, defaults))
      ensures Koanf.Lookup(entries, NewCtxKeyPath(k))
              == Koanf.Lookup(StoreAfterSet(entries0, k, CtxVars[k], defaults), NewCtxKeyPath(k))
    {
      var j :| 0 <= j < |order| && order[j] == k;
    }
  }

  /** `LoadContext`. Go ranges over `CtxVars` in an unspecified order; `order`
      is that order. Every context variable ends up bound to its value or its
      error, nothing else in the context changes, and the store gains exactly
      the defaults of the absent optional variables. */
  method LoadContext(ctx: Context, ktx: Koanf.Store, order: seq<CtxKey>, defaults: map<CtxKey, Koanf.Raw>)
    returns (r: Context)
    requires IsRangeOrder(order)
    modifies ktx
    ensures forall k :: k in CtxVars ==> ValueOf(r, TypedKey(k)) == Some(LoadedValue(old(ktx.entries), k, defaults))
    ensures forall key: ContextKey :: (key.StringKey? || key.key !in CtxVars) ==> ValueOf(r, key) == ValueOf(ctx, key)
    ensures forall k :: k in CtxVars ==>
      Koanf.Lookup(ktx.entries, NewCtxKeyPath(k))
      == Koanf.Lookup(StoreAfterSet(old(ktx.entries), k, CtxVars[k], defaults), NewCtxKeyPath(k))
    ensures forall p :: p !in CtxVarPaths() ==> Koanf.Lookup(ktx.entries, p) == Koanf.Lookup(old(ktx.entries), p)
  {
    ghost var entries0 := ktx.entries;
    r := ctx;
    var i := 0;
    assert order[..0] == [];
    while i < |order|
      invariant 0 <= i <= |order|
      invariant CtxLoaded(r, ctx, entries0, order, i, defaults)
      invariant StoreLoaded(ktx.entries, entries0, order, i, defaults)
    {
      var k := order[i];
      ghost var before := ktx.entries;
      StoreStep(before, StoreAfterSet(before, k, CtxVars[k], defaults), entries0, order, i, defaults);
      var c, e := SetCtxVar(r, ktx, k, CtxVars[k], defaults);
      ghost var r0 := r;
      if e.None? {
        r := c;
      } else {
        r := r[TypedKey(k) := ErrorValue(e.value)];
      }
      assert r == r0[TypedKey(k) := LoadedValue(entries0, k, defaults)];
      CtxStep(r0, r, ctx, entries0, order, i, defaults);
      i := i + 1;
    }
    LoadFinished(r, ctx, ktx.entries, entries0, order, defaults);
  }

  // ---------------------------------------------------------------------------
  // Getters

  /** `getCtxVar` as written: it returns a non-nil error on every path, so the
      value it returns is always nil. An absent key yields the "config not
      found" error, a stored error is wrapped, and any other stored value is
      reported as an illegal state. */
  function GetCtxVar(ctx: Context, key: CtxKey): (r: Outcome<Option<Value>>)
    ensures r.value == None && r.err.Some?
    ensures ValueOf(ctx, TypedKey(key)).None? ==> Is(r.err.value, UnavailableConfig) && r.err.value.cause == None
    ensures forall e :: ValueOf(ctx, TypedKey(key)) == Some(ErrorValue(e)) ==>
      Is(r.err.value, UnavailableConfig) && r.err.value.cause == Some(e)
    ensures (match ValueOf(ctx, TypedKey(key)) case Some(ErrorValue(_)) => false case Some(_) => true case None => false) ==>
      Is(r.err.value, IllegalConfigState) && !Is(r.err.value, UnavailableConfig)
  {
    match ValueOf(ctx, TypedKey(key))
    case None => Outcome(None, Some(NewUnavailableCtxKeyError(key)))
    case Some(ErrorValue(err)) => Outcome(None, Some(NewConfigError(key, err)))
    case Some(_) => Outcome(None, Some(NewIllegalCtxKeyError(key)))
  }

  /** `getCtxVar` as evidently intended: a stored value is returned with a nil error. */
  function GetCtxVarCorrected(ctx: Context, key: CtxKey): (r: Outcome<Option<Value>>)
    ensures r.err.None? <==> (match ValueOf(ctx, TypedKey(key)) case Some(ErrorValue(_)) => false case Some(_) => true case None => false)
    ensures r.err.None? ==> r.value == ValueOf(ctx, TypedKey(key))
    ensures r.err.Some? ==> r.value == None && Is(r.err.value, UnavailableConfig)
    ensures forall e :: ValueOf(ctx, TypedKey(key)) == Some(ErrorValue(e)) ==> r.err == Some(NewConfigError(key, e))
  {
    match ValueOf(ctx, TypedKey(key))
    case None => Outcome(None, Some(NewUnavailableCtxKeyError(key)))
    case Some(ErrorValue(err)) => Outcome(None, Some(NewConfigError(key, err)))
    case Some(value) => Outcome(Some(value), None)
  }

  /** With the intended `getCtxVar`, a string variable that `LoadContext` read
      from the store is read back; the getter as written fails on the very
      same context. */
  lemma LoadedStringReadsBack(ctx: Context, entries: map<string, Koanf.Raw>, defaults: map<CtxKey, Koanf.Raw>, k: CtxKey, s: string)
    requires k in CtxVars && CtxVars[k].typ == TypeString
    requires ValueOf(ctx, TypedKey(k)) == Some(LoadedValue(entries, k, defaults))
    requires Koanf.Lookup(entries, NewCtxKeyPath(k)) == Some(Koanf.RawString(s))
    ensures GetCtxVarCorrected(ctx, k) == Outcome(Some(StringValue(s)), None)
    ensures StringOf(GetCtxVarCorrected(ctx, k), k) == Outcome(s, None)
    ensures GetCtxVar(ctx, k).err.Some? && GetString(ctx, k).err.Some?
  {
  }

  /** The tail of `GetBoolean` once `getCtxVar` has answered: its error is
      passed on, a `bool` is returned, anything else is an invalid type. */
  function BooleanOf(got: Outcome<Option<Value>>, key: CtxKey): (r: Outcome<bool>)
    ensures r.err.None? <==> got.err.None? && (match got.value case Some(BoolValue(_)) => true case _ => false)
    ensures got.err.Some? ==> r == Outcome(false, got.err)
    ensures forall b :: got == Outcome(Some(BoolValue(b)), None) ==> r.value == b
    ensures got.err.None? && r.err.Some? ==> Is(r.err.value, InvalidConfigValue)
  {
    if got.err.Some? then Outcome(false, got.err)
    else match got.value
      case Some(BoolValue(b)) => Outcome(b, None)
      case _ => Outcome(false, Some(NewInvalidConfigError(key, TypeBoolean, "bool")))
  }

  /** `GetBoolean`: with `getCtxVar` as written it always fails with that error. */
  function GetBoolean(ctx: Context, key: CtxKey): (r: Outcome<bool>)
    ensures r.value == false && r.err.Some?
    ensures r.err == GetCtxVar(ctx, key).err
  {
    BooleanOf(GetCtxVar(ctx, key), key)
  }

  /** `GetBooleanOrDefault`: the value on success, the default otherwise; with
      `getCtxVar` as written, always the default. */
  function GetBooleanOrDefault(ctx: Context, key: CtxKey, defaultValue: bool): (r: bool)
    ensures r == defaultValue
  {
    var got := GetBoolean(ctx, key);
    if got.err.None? then got.value else defaultValue
  }

  function StringOf(got: Outcome<Option<Value>>, key: CtxKey): (r: Outcome<string>)
    ensures r.err.None? <==> got.err.None? && (match got.value case Some(StringValue(_)) => true case _ => false)
    ensures got.err.Some? ==> r == Outcome("", got.err)
    ensures forall s :: got == Outcome(Some(StringValue(s)), None) ==> r.value == s
    ensures got.err.None? && r.err.Some? ==> Is(r.err.value, InvalidConfigValue)
  {
    if got.err.Some? then Outcome("", got.err)
    else match got.value
      case Some(StringValue(s)) => Outcome(s, None)
      case _ => Outcome("", Some(NewInvalidConfigError(key, TypeString, "string")))
  }

  function GetString(ctx: Context, key: CtxKey): (r: Outcome<string>)
    ensures r.value == "" && r.err.Some?
    ensures r.err == GetCtxVar(ctx, key).err
  {
    StringOf(GetCtxVar(ctx, key), key)
  }

  function GetStringOrDefault(ctx: Context, key: CtxKey, defaultValue: string): (r: string)
    ensures r == defaultValue
  {
    var got := GetString(ctx, key);
    if got.err.None? then got.value else defaultValue
  }

  function StringsOf(got: Outcome<Option<Value>>, key: CtxKey): (r: Outcome<seq<string>>)
    ensures r.err.None? <==> got.err.None? && (match got.value case Some(StringsValue(_)) => true case _ => false)
    ensures got.err.Some? ==> r == Outcome([], got.err)
    ensures forall strs :: got == Outcome(Some(StringsValue(strs)), None) ==> r.value == strs
    ensures got.err.None? && r.err.Some? ==> Is(r.err.value, InvalidConfigValue)
  {
    if got.err.Some? then Outcome([], got.err)
    else match got.value
      case Some(StringsValue(strs)) => Outcome(strs, None)
      case _ => Outcome([], Some(NewInvalidConfigError(key, TypeListString, "[]string")))
  }

  function GetStrings(ctx: Context, key: CtxKey): (r: Outcome<seq<string>>)
    ensures r.value == [] && r.err.Some?
    ensures r.err == GetCtxVar(ctx, key).err
  {
    StringsOf(GetCtxVar(ctx, key), key)
  }

  function Uint16Of(got: Outcome<Option<Value>>, key: CtxKey): (r: Outcome<Uint16>)
    ensures r.err.None? <==> got.err.None? && (match got.value case Some(Uint16Value(_)) => true case _ => false)
    ensures got.err.Some? ==> r == Outcome(0, got.err)
    ensures forall u :: got == Outcome(Some(Uint16Value(u)), None) ==> r.value == u
    ensures got.err.None? && r.err.Some? ==> Is(r.err.value, InvalidConfigValue)
  {
    if got.err.Some? then Outcome(0, got.err)
    else match got.value
      case Some(Uint16Value(u)) => Outcome(u, None)
      case _ => Outcome(0, Some(NewInvalidConfigError(key, TypeUint16, "uint16")))
  }

  function GetUint16(ctx: Context, key: CtxKey): (r: Outcome<Uint16>)
    ensures r.value == 0 && r.err.Some?
    ensures r.err == GetCtxVar(ctx, key).err
  {
    Uint16Of(GetCtxVar(ctx, key), key)
  }

  function Uint16sOf(got: Outcome<Option<Value>>, key: CtxKey): (r: Outcome<seq<Uint16>>)
    ensures r.err.None? <==> got.err.None? && (match got.value case Some(Uint16sValue(_)) => true case _ => false)
    ensures got.err.Some? ==> r == Outcome([], got.err)
    ensures forall us :: got == Outcome(Some(Uint16sValue(us)), None) ==> r.value == us
    ensures got.err.None? && r.err.Some? ==> Is(r.err.value, InvalidConfigValue)
  {
    if got.err.Some? then Outcome([], got.err)
    else match got.value
      case Some(Uint16sValue(us)) => Outcome(us, None)
      case _ => Outcome([], Some(NewInvalidConfigError(key, TypeListUint16, "[]uint16")))
  }

  function GetUint16s(ctx: Context, key: CtxKey): (r: Outcome<seq<Uint16>>)
    ensures r.value == [] && r.err.Some?
    ensures r.err == GetCtxVar(ctx, key).err
  {
    Uint16sOf(GetCtxVar(ctx, key), key)
  }
}
