/** The public accessors of pcap-config/pkg/config/context.go, which delegate
    to the internal typed getters. Because the internal `getCtxVar` never
    returns a value, every accessor here ends in its default or its error,
    whatever the context holds. */
module PkgContext {
  import opened Wrappers
  import opened ConfigKeys
  import opened ConfigErrors
  import opened ConfigUtils
  import opened ConfigContext

  function IsDebug(ctx: Context): (r: Outcome<bool>)
    ensures r.value == false && r.err.Some?
    ensures Is(r.err.value, UnavailableConfig) || Is(r.err.value, IllegalConfigState)
  {
    GetBoolean(ctx, DebugKey)
  }

  function IsDebugOrDefault(ctx: Context, defaultValue: bool): (r: bool)
    ensures r == defaultValue
  {
    GetBooleanOrDefault(ctx, DebugKey, defaultValue)
  }

  /** `GetVerbosityOrDefault` (it reads the debug key): the default, with the
      error the debug key's lookup reports. */
  function GetVerbosityOrDefault(ctx: Context, defaultValue: string): (r: Outcome<string>)
    ensures r.value == defaultValue
    ensures r.err == GetCtxVar(ctx, DebugKey).err
  {
    var got := GetString(ctx, DebugKey);
    if got.err.None? then Outcome(got.value, None) else Outcome(defaultValue, got.err)
  }

  function GetVerbosity(ctx: Context): (r: Outcome<string>)
    ensures r.value == "DEBUG" && r.err.Some?
  {
    GetVerbosityOrDefault(ctx, "DEBUG")
  }

  /** `GetBuild`; the linker-set `Build` variable is the parameter `build`. */
  function GetBuild(ctx: Context, build: string): (r: string)
    ensures r == build
  {
    GetStringOrDefault(ctx, BuildKey, build)
  }

  function GetVersion(ctx: Context, version: string): (r: string)
    ensures r == version
  {
    GetStringOrDefault(ctx, VersionKey, version)
  }

  /** `GetFullVersion`: "<version>/<build>". */
  function GetFullVersion(ctx: Context, version: string, build: string): (r: string)
    ensures r == version + "/" + build
  {
    FormatTwo([], "/", GetVersion(ctx, version), GetBuild(ctx, build));
    assert Placeholder(0) + "/" + Placeholder(1) == [] + Placeholder(0) + "/" + Placeholder(1);
    Format(Placeholder(0) + "/" + Placeholder(1), [GetVersion(ctx, version), GetBuild(ctx, build)])
  }

  function GetFilter(ctx: Context): (r: string)
    ensures r == "DISABLED"
  {
    GetStringOrDefault(ctx, FilterKey, "DISABLED")
  }

  function GetHosts(ctx: Context): (r: Outcome<seq<string>>)
    ensures r.value == [] && r.err.Some?
    ensures r.err == GetCtxVar(ctx, HostsFilterKey).err
  {
    GetStrings(ctx, HostsFilterKey)
  }

  function GetPorts(ctx: Context): (r: Outcome<seq<Uint16>>)
    ensures r.value == [] && r.err.Some?
    ensures r.err == GetCtxVar(ctx, PortsFilterKey).err
  {
    GetUint16s(ctx, PortsFilterKey)
  }
}
