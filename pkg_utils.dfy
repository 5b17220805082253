/** The public getters of pcap-config/pkg/config/utils.go. Unlike the internal
    getters they look the key up under its plain-string form `pcap/cfg/<key>`,
    which a Go context distinguishes from the typed `CtxKey` that
    `LoadContext` binds. */
module PkgUtils {
  import opened Wrappers
  import opened ConfigKeys
  import opened ConfigErrors
  import opened ConfigUtils
  import opened ConfigContext

  /** The default of `GetVerbosity` (`PCAP_VERBOSITY_DEBUG`). */
  const VerbosityDebug: string := "DEBUG"

  /** `contextKey`: a plain `string`, never equal to a typed key. */
  function StringContextKey(key: CtxKey): (r: ContextKey)
    ensures r == StringKey("pcap/cfg/" + key)
    ensures forall k :: r != TypedKey(k)
  {
    StringKey(ToCtxKey(key))
  }

  /** The value is an error. */
  predicate IsErrorBinding(value: Option<Value>)
  {
    match value
    case Some(ErrorValue(_)) => true
    case _ => false
  }

  /** The context holds nothing under a plain-string key: `LoadContext`
      only adds typed keys, so a context built from scratch by it is such. */
  predicate NoStringKeys(ctx: Context)
  {
    forall key :: key in ctx ==> key.TypedKey?
  }

  /** `newConfigError` of this package. */
  function NewPkgConfigError(key: CtxKey, err: Error): Error
  {
    Joined(UnavailableConfigError, ToCtxKey(key), Some(err))
  }

  /** `newInvalidConfigError` of this package. */
  function NewPkgInvalidConfigError(key: CtxKey, want: CtxVarType, got: string): Error
  {
    Joined(InvalidConfigTypeError, InvalidTypeDetail(key, want, got), None)
  }

  // ---------------------------------------------------------------------------
  // The type switches shared by the getters: the value found, an error found
  // (wrapped as "unavailable"), or anything else including nothing ("invalid type").

  function BooleanFrom(value: Option<Value>, key: CtxKey): (r: Outcome<bool>)
    ensures r.err.None? <==> (match value case Some(BoolValue(_)) => true case _ => false)
    ensures forall b :: value == Some(BoolValue(b)) ==> r.value == b
    ensures r.err.Some? ==> r.value == false
    ensures forall e :: value == Some(ErrorValue(e)) ==> Is(r.err.value, UnavailableConfigError) && r.err.value.cause == Some(e)
    ensures r.err.Some? && !IsErrorBinding(value) ==> Is(r.err.value, InvalidConfigTypeError) && !Is(r.err.value, UnavailableConfigError)
  {
    match value
    case Some(BoolValue(b)) => Outcome(b, None)
    case Some(ErrorValue(e)) => Outcome(false, Some(NewPkgConfigError(key, e)))
    case _ => Outcome(false, Some(NewPkgInvalidConfigError(key, TypeBoolean, "bool")))
  }

  function StringFrom(value: Option<Value>, key: CtxKey): (r: Outcome<string>)
    ensures r.err.None? <==> (match value case Some(StringValue(_)) => true case _ => false)
    ensures forall s :: value == Some(StringValue(s)) ==> r.value == s
    ensures r.err.Some? ==> r.value == ""
    ensures forall e :: value == Some(ErrorValue(e)) ==> Is(r.err.value, UnavailableConfigError) && r.err.value.cause == Some(e)
    ensures r.err.Some? && !IsErrorBinding(value) ==> Is(r.err.value, InvalidConfigTypeError) && !Is(r.err.value, UnavailableConfigError)
  {
    match value
    case Some(StringValue(s)) => Outcome(s, None)
    case Some(ErrorValue(e)) => Outcome("", Some(NewPkgConfigError(key, e)))
    case _ => Outcome("", Some(NewPkgInvalidConfigError(key, TypeString, "string")))
  }

  function StringsFrom(value: Option<Value>, key: CtxKey): (r: Outcome<seq<string>>)
    ensures r.err.None? <==> (match value case Some(StringsValue(_)) => true case _ => false)
    ensures forall strs :: value == Some(StringsValue(strs)) ==> r.value == strs
    ensures r.err.Some? ==> r.value == []
    ensures forall e :: value == Some(ErrorValue(e)) ==> Is(r.err.value, UnavailableConfigError) && r.err.value.cause == Some(e)
    ensures r.err.Some? && !IsErrorBinding(value) ==> Is(r.err.value, InvalidConfigTypeError) && !Is(r.err.value, UnavailableConfigError)
  {
    match value
    case Some(StringsValue(strs)) => Outcome(strs, None)
    case Some(ErrorValue(e)) => Outcome([], Some(NewPkgConfigError(key, e)))
    case _ => Outcome([], Some(NewPkgInvalidConfigError(key, TypeListString, "[]string")))
  }

  function Uint16From(value: Option<Value>, key: CtxKey): (r: Outcome<Uint16>)
    ensures r.err.None? <==> (match value case Some(Uint16Value(_)) => true case _ => false)
    ensures forall u :: value == Some(Uint16Value(u)) ==> r.value == u
    ensures r.err.Some? ==> r.value == 0
    ensures forall e :: value == Some(ErrorValue(e)) ==> Is(r.err.value, UnavailableConfigError) && r.err.value.cause == Some(e)
    ensures r.err.Some? && !IsErrorBinding(value) ==> Is(r.err.value, InvalidConfigTypeError) && !Is(r.err.value, UnavailableConfigError)
  {
    match value
    case Some(Uint16Value(u)) => Outcome(u, None)
    case Some(ErrorValue(e)) => Outcome(0, Some(NewPkgConfigError(key, e)))
    case _ => Outcome(0, Some(NewPkgInvalidConfigError(key, TypeUint16, "uint16")))
  }

  function Uint16sFrom(value: Option<Value>, key: CtxKey): (r: Outcome<seq<Uint16>>)
    ensures r.err.None? <==> (match value case Some(Uint16sValue(_)) => true case _ => false)
    ensures forall us :: value == Some(Uint16sValue(us)) ==> r.value == us
    ensures r.err.Some? ==> r.value == []
    ensures forall e :: value == Some(ErrorValue(e)) ==> Is(r.err.value, UnavailableConfigError) && r.err.value.cause == Some(e)
    ensures r.err.Some? && !IsErrorBinding(value) ==> Is(r.err.value, InvalidConfigTypeError) && !Is(r.err.value, UnavailableConfigError)
  {
    match value
    case Some(Uint16sValue(us)) => Outcome(us, None)
    case Some(ErrorValue(e)) => Outcome([], Some(NewPkgConfigError(key, e)))
    case _ => Outcome([], Some(NewPkgInvalidConfigError(key, TypeListUint16, "[]uint16")))
  }

  // ---------------------------------------------------------------------------
  // The getters as written: looked up under the plain-string key.

  function GetBoolean(ctx: Context, key: CtxKey): (r: Outcome<bool>)
    ensures forall b :: ValueOf(ctx, StringKey("pcap/cfg/" + key)) == Some(BoolValue(b)) ==> r == Outcome(b, None)
    ensures NoStringKeys(ctx) ==> r.value == false && r.err.Some? && Is(r.err.value, InvalidConfigTypeError)
  {
    BooleanFrom(ValueOf(ctx, StringContextKey(key)), key)
  }

  function GetBooleanOrDefault(ctx: Context, key: CtxKey, defaultValue: bool): (r: bool)
    ensures forall b :: ValueOf(ctx, StringKey("pcap/cfg/" + key)) == Some(BoolValue(b)) ==> r == b
    ensures (match ValueOf(ctx, StringKey("pcap/cfg/" + key)) case Some(BoolValue(_)) => false case _ => true) ==> r == defaultValue
  {
    var got := GetBoolean(ctx, key);
    if got.err.None? then got.value else defaultValue
  }

  function GetString(ctx: Context, key: CtxKey): (r: Outcome<string>)
    ensures forall s :: ValueOf(ctx, StringKey("pcap/cfg/" + key)) == Some(StringValue(s)) ==> r == Outcome(s, None)
    ensures NoStringKeys(ctx) ==> r.value == "" && r.err.Some? && Is(r.err.value, InvalidConfigTypeError)
  {
    StringFrom(ValueOf(ctx, StringContextKey(key)), key)
  }

  function GetStringOrDefault(ctx: Context, key: CtxKey, defaultValue: string): (r: string)
    ensures forall s :: ValueOf(ctx, StringKey("pcap/cfg/" + key)) == Some(StringValue(s)) ==> r == s
    ensures (match ValueOf(ctx, StringKey("pcap/cfg/" + key)) case Some(StringValue(_)) => false case _ => true) ==> r == defaultValue
  {
    var got := GetString(ctx, key);
    if got.err.None? then got.value else defaultValue
  }

  function GetStrings(ctx: Context, key: CtxKey): (r: Outcome<seq<string>>)
    ensures forall strs :: ValueOf(ctx, StringKey("pcap/cfg/" + key)) == Some(StringsValue(strs)) ==> r == Outcome(strs, None)
    ensures NoStringKeys(ctx) ==> r.value == [] && r.err.Some? && Is(r.err.value, InvalidConfigTypeError)
  {
    StringsFrom(ValueOf(ctx, StringContextKey(key)), key)
  }

  function GetUint16(ctx: Context, key: CtxKey): (r: Outcome<Uint16>)
    ensures forall u: Uint16 :: ValueOf(ctx, StringKey("pcap/cfg/" + key)) == Some(Uint16Value(u)) ==> r == Outcome(u, None)
    ensures NoStringKeys(ctx) ==> r.value == 0 && r.err.Some? && Is(r.err.value, InvalidConfigTypeError)
  {
    Uint16From(ValueOf(ctx, StringContextKey(key)), key)
  }

  function GetUint16s(ctx: Context, key: CtxKey): (r: Outcome<seq<Uint16>>)
    ensures forall us :: ValueOf(ctx, StringKey("pcap/cfg/" + key)) == Some(Uint16sValue(us)) ==> r == Outcome(us, None)
    ensures NoStringKeys(ctx) ==> r.value == [] && r.err.Some? && Is(r.err.value, InvalidConfigTypeError)
  {
    Uint16sFrom(ValueOf(ctx, StringContextKey(key)), key)
  }

  /** The getters as evidently intended: looked up under the typed key that
      `LoadContext` binds. */
  function GetStringCorrected(ctx: Context, key: CtxKey): (r: Outcome<string>)
    ensures forall s :: ValueOf(ctx, TypedKey(key)) == Some(StringValue(s)) ==> r == Outcome(s, None)
    ensures ValueOf(ctx, TypedKey(key)).None? ==> r.err.Some? && Is(r.err.value, InvalidConfigTypeError)
  {
    StringFrom(ValueOf(ctx, TypedKey(key)), key)
  }

  function GetBooleanCorrected(ctx: Context, key: CtxKey): (r: Outcome<bool>)
    ensures forall b :: ValueOf(ctx, TypedKey(key)) == Some(BoolValue(b)) ==> r == Outcome(b, None)
    ensures ValueOf(ctx, TypedKey(key)).None? ==> r.err.Some? && Is(r.err.value, InvalidConfigTypeError)
  {
    BooleanFrom(ValueOf(ctx, TypedKey(key)), key)
  }

  /** A string variable that `LoadContext` read from the store, in a context
      that `LoadContext` built from scratch: the getter as written reports an
      invalid type, the corrected one returns the stored text. */
  lemma LoadedStringIsMissedByStringKey(ctx: Context, entries: map<string, Koanf.Raw>, defaults: map<CtxKey, Koanf.Raw>, k: CtxKey, s: string)
    requires NoStringKeys(ctx)
    requires k in CtxVars && CtxVars[k].typ == TypeString
    requires ValueOf(ctx, TypedKey(k)) == Some(LoadedValue(entries, k, defaults))
    requires Koanf.Lookup(entries, NewCtxKeyPath(k)) == Some(Koanf.RawString(s))
    ensures GetString(ctx, k).err.Some? && Is(GetString(ctx, k).err.value, InvalidConfigTypeError)
    ensures GetStringCorrected(ctx, k) == Outcome(s, None)
  {
  }

  // ---------------------------------------------------------------------------
  // Exported accessors.

  function IsDebug(ctx: Context): (r: Outcome<bool>)
    ensures forall b :: ValueOf(ctx, StringKey("pcap/cfg/" + DebugKey)) == Some(BoolValue(b)) ==> r == Outcome(b, None)
    ensures NoStringKeys(ctx) ==> r.err.Some? && Is(r.err.value, InvalidConfigTypeError)
  {
    GetBoolean(ctx, DebugKey)
  }

  function IsDebugOrDefault(ctx: Context, defaultValue: bool): (r: bool)
    ensures forall b :: ValueOf(ctx, StringKey("pcap/cfg/" + DebugKey)) == Some(BoolValue(b)) ==> r == b
    ensures NoStringKeys(ctx) ==> r == defaultValue
  {
    GetBooleanOrDefault(ctx, DebugKey, defaultValue)
  }

  /** The value read, or the default together with the error. */
  function VerbosityFrom(got: Outcome<string>, defaultValue: string): (r: Outcome<string>)
    ensures r.err == got.err
    ensures r.value == if got.err.None? then got.value else defaultValue
  {
    if got.err.None? then Outcome(got.value, None) else Outcome(defaultValue, got.err)
  }

  /** `GetVerbosityOrDefault` as written: it reads the debug key. */
  function GetVerbosityOrDefault(ctx: Context, defaultValue: string): (r: Outcome<string>)
    ensures forall s :: ValueOf(ctx, StringKey("pcap/cfg/" + DebugKey)) == Some(StringValue(s)) ==> r == Outcome(s, None)
    ensures r.err.Some? ==> r.value == defaultValue
    ensures r.err == GetString(ctx, DebugKey).err
    ensures NoStringKeys(ctx) ==> r.value == defaultValue && r.err.Some? && Is(r.err.value, InvalidConfigTypeError)
  {
    VerbosityFrom(GetString(ctx, DebugKey), defaultValue)
  }

  /** `GetVerbosityOrDefault` as evidently intended: the verbosity key, typed. */
  function GetVerbosityOrDefaultCorrected(ctx: Context, defaultValue: string): (r: Outcome<string>)
    ensures forall s :: ValueOf(ctx, TypedKey(VerbosityKey)) == Some(StringValue(s)) ==> r == Outcome(s, None)
    ensures r.err.Some? ==> r.value == defaultValue
    ensures r.err == GetStringCorrected(ctx, VerbosityKey).err
  {
    VerbosityFrom(GetStringCorrected(ctx, VerbosityKey), defaultValue)
  }

  /** After `LoadContext` the debug key holds a `bool`. Reading it as the
      verbosity string fails with an invalid type even once the key type is
      fixed, while the verbosity key holds the configured text. */
  lemma VerbosityReadsDebugKey(ctx: Context, b: bool, s: string, defaultValue: string)
    requires ValueOf(ctx, TypedKey(DebugKey)) == Some(BoolValue(b))
    requires ValueOf(ctx, TypedKey(VerbosityKey)) == Some(StringValue(s))
    ensures var wrong := VerbosityFrom(GetStringCorrected(ctx, DebugKey), defaultValue);
      wrong.value == defaultValue && wrong.err.Some? && Is(wrong.err.value, InvalidConfigTypeError)
    ensures GetVerbosityOrDefaultCorrected(ctx, defaultValue) == Outcome(s, None)
  {
  }

  function GetVerbosity(ctx: Context): (r: Outcome<string>)
    ensures r.err.Some? ==> r.value == "DEBUG"
    ensures NoStringKeys(ctx) ==> r.value == "DEBUG" && r.err.Some?
  {
    GetVerbosityOrDefault(ctx, VerbosityDebug)
  }

  /** `GetBuild`; the linker-set `Build` variable is the parameter `build`. */
  function GetBuild(ctx: Context, build: string): (r: string)
    ensures forall s :: ValueOf(ctx, StringKey("pcap/cfg/" + BuildKey)) == Some(StringValue(s)) ==> r == s
    ensures NoStringKeys(ctx) ==> r == build
  {
    GetStringOrDefault(ctx, BuildKey, build)
  }

  function GetVersion(ctx: Context, version: string): (r: string)
    ensures forall s :: ValueOf(ctx, StringKey("pcap/cfg/" + VersionKey)) == Some(StringValue(s)) ==> r == s
    ensures NoStringKeys(ctx) ==> r == version
  {
    GetStringOrDefault(ctx, VersionKey, version)
  }

  /** `GetFullVersion`: "<version>/<build>". */
  function GetFullVersion(ctx: Context, version: string, build: string): (r: string)
    ensures r == GetVersion(ctx, version) + "/" + GetBuild(ctx, build)
    ensures NoStringKeys(ctx) ==> r == version + "/" + build
  {
    FormatTwo([], "/", GetVersion(ctx, version), GetBuild(ctx, build));
    assert Placeholder(0) + "/" + Placeholder(1) == [] + Placeholder(0) + "/" + Placeholder(1);
    Format(Placeholder(0) + "/" + Placeholder(1), [GetVersion(ctx, version), GetBuild(ctx, build)])
  }

  function GetFilter(ctx: Context): (r: string)
    ensures forall s :: ValueOf(ctx, StringKey("pcap/cfg/" + FilterKey)) == Some(StringValue(s)) ==> r == s
    ensures NoStringKeys(ctx) ==> r == "DISABLED"
  {
    GetStringOrDefault(ctx, FilterKey, "DISABLED")
  }

  function GetHosts(ctx: Context): (r: Outcome<seq<string>>)
    ensures forall strs :: ValueOf(ctx, StringKey("pcap/cfg/" + HostsFilterKey)) == Some(StringsValue(strs)) ==> r == Outcome(strs, None)
    ensures NoStringKeys(ctx) ==> r.value == [] && r.err.Some?
  {
    GetStrings(ctx, HostsFilterKey)
  }

  function GetPorts(ctx: Context): (r: Outcome<seq<Uint16>>)
    ensures forall us :: ValueOf(ctx, StringKey("pcap/cfg/" + PortsFilterKey)) == Some(Uint16sValue(us)) ==> r == Outcome(us, None)
    ensures NoStringKeys(ctx) ==> r.value == [] && r.err.Some?
  {
    GetUint16s(ctx, PortsFilterKey)
  }
}
