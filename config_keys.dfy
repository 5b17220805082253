/** Context keys, their string forms and the configuration value type names
    (pcap-config/internal/config/keys.go), together with the positional string
    template `Format` that the source uses to build them. */
module ConfigKeys {

  type CtxKey = string

  type CtxVarType = string

  /** A positional template: every `{i}` (one decimal digit `i`, with `i` below
      the number of arguments) is replaced by the `i`-th argument; everything
      else is copied. Arguments are inserted as they are, never re-scanned. */
  function Format(template: string, args: seq<string>): string
    decreases |template|
  {
    if template == [] then []
    else if |template| >= 3 && template[0] == '{' && template[2] == '}'
            && '0' <= template[1] <= '9' && (template[1] as int - '0' as int) < |args|
    then args[template[1] as int - '0' as int] + Format(template[3..], args)
    else [template[0]] + Format(template[1..], args)
  }

  /** The placeholder `{i}` as text. */
  function Placeholder(i: nat): string
    requires i < 10
  {
    ['{', ('0' as int + i) as char, '}']
  }

  /** Text without a brace is copied verbatim, and a placeholder after such
      text is replaced by its argument. */
  lemma {:induction false} FormatPlaceholder(pre: string, i: nat, post: string, args: seq<string>)
    requires '{' !in pre
    requires i < 10 && i < |args|
    ensures Format(pre + Placeholder(i) + post, args) == pre + args[i] + Format(post, args)
    decreases |pre|
  {
    if pre == [] {
      assert pre + Placeholder(i) + post == Placeholder(i) + post;
      assert (Placeholder(i) + post)[3..] == post;
    } else {
      var t := pre + Placeholder(i) + post;
      assert t[0] == pre[0] && t[0] != '{';
      assert t[1..] == pre[1..] + Placeholder(i) + post;
      FormatPlaceholder(pre[1..], i, post, args);
      assert [pre[0]] + pre[1..] == pre;
    }
  }

  lemma {:induction false} FormatLiteral(text: string, args: seq<string>)
    requires '{' !in text
    ensures Format(text, args) == text
    decreases |text|
  {
    if text != [] {
      assert text[0] != '{';
      FormatLiteral(text[1..], args);
      assert [text[0]] + text[1..] == text;
    }
  }

  /** `Format` of a template `pre{0}post` with one argument, where neither
      `pre` nor `post` contains a brace. */
  lemma FormatOne(pre: string, post: string, arg: string)
    requires '{' !in pre && '{' !in post
    ensures Format(pre + Placeholder(0) + post, [arg]) == pre + arg + post
  {
    FormatPlaceholder(pre, 0, post, [arg]);
    FormatLiteral(post, [arg]);
  }

  /** `Format` of `pre{0}mid{1}` with two arguments. */
  lemma FormatTwo(pre: string, mid: string, a0: string, a1: string)
    requires '{' !in pre && '{' !in mid
    ensures Format(pre + Placeholder(0) + mid + Placeholder(1), [a0, a1]) == pre + a0 + mid + a1
  {
    var args := [a0, a1];
    assert pre + Placeholder(0) + mid + Placeholder(1) == pre + Placeholder(0) + (mid + Placeholder(1));
    FormatPlaceholder(pre, 0, mid + Placeholder(1), args);
    assert mid + Placeholder(1) == mid + Placeholder(1) + [];
    FormatPlaceholder(mid, 1, [], args);
  }

  // keys.go:33-72
  const BuildKey: CtxKey := "build"
  const VersionKey: CtxKey := "version"
  const SupervisorPortKey: CtxKey := "supervisor/port"
  const GcpRegionKey: CtxKey := "gcp/region"
  const ProjectIDKey: CtxKey := "gcp/project/id"
  const ProjectNumKey: CtxKey := "gcp/project/number"
  const InstanceIDKey: CtxKey := "env/instance/id"
  const ExecEnvKey: CtxKey := "env/id"
  const GcsMountPointKey: CtxKey := "gcp/storage/mount-point"
  const GcsTempDirKey: CtxKey := "gcp/storage/temp-dir"
  const GcsDirKey: CtxKey := "gcp/storage/directory"
  const GcsBucketKey: CtxKey := "gcp/storage/bucket"
  const GcsExportKey: CtxKey := "gcp/storage/export"
  const GzipKey: CtxKey := "features/gzip"
  const TcpdumpKey: CtxKey := "features/tcpdump"
  const JsondumpKey: CtxKey := "features/json/dump"
  const JsonlogKey: CtxKey := "features/json/log"
  const FsNotifyKey: CtxKey := "features/fs-notify"
  const CronKey: CtxKey := "features/cron/enabled"
  const CronExpressionKey: CtxKey := "features/cron/expression"
  const OrderedKey: CtxKey := "features/ordered"
  const ConntrackKey: CtxKey := "features/conntrack"
  const HealthcheckKey: CtxKey := "features/healthcheck/port"
  const DebugKey: CtxKey := "features/debug"
  const FilterKey: CtxKey := "filter/bpf"
  const L3ProtosFilterKey: CtxKey := "filter/protos/l3"
  const L4ProtosFilterKey: CtxKey := "filter/protos/l4"
  const IPv4FilterKey: CtxKey := "filter/ip/v4"
  const IPv6FilterKey: CtxKey := "filter/ip/v6"
  const HostsFilterKey: CtxKey := "filter/hosts"
  const PortsFilterKey: CtxKey := "filter/ports"
  const TcpFlagsFilterKey: CtxKey := "filter/tcp/flags"
  const DirectoryKey: CtxKey := "directory"
  const IfaceKey: CtxKey := "iface"
  const SnaplenKey: CtxKey := "snaplen"
  const TimezoneKey: CtxKey := "timezone"
  const TimeoutKey: CtxKey := "timeout"
  const RotateSecsKey: CtxKey := "rotate-secs"
  const VerbosityKey: CtxKey := "verbosity"
  const ExtensionKey: CtxKey := "extension"

  /** `CtxKeyPrefix` (context.go:27). */
  const CtxKeyPrefix: string := "pcap"

  const CtxKeyTemplate: string := CtxKeyPrefix + "/cfg/" + Placeholder(0)
  const KtxKeyTemplate: string := CtxKeyPrefix + "/" + Placeholder(0)

  const TypeListTemplate: string := "[]" + Placeholder(0)
  const TypeMapTemplate: string := "map[" + Placeholder(0) + "]" + Placeholder(1)

  const TypeString: CtxVarType := "string"
  const TypeBoolean: CtxVarType := "boolean"
  const TypeInteger: CtxVarType := "int"
  const TypeUint8: CtxVarType := "uint8"
  const TypeUint16: CtxVarType := "uint16"
  const TypeUint32: CtxVarType := "uint32"
  const TypeUint64: CtxVarType := "uint64"

  const TypeListString: CtxVarType := ListCtxVarTypeOf(TypeString)
  const TypeListInteger: CtxVarType := ListCtxVarTypeOf(TypeInteger)
  const TypeListUint16: CtxVarType := ListCtxVarTypeOf(TypeUint16)

  /** `listCtxVarTypeOf`: the name of a list of `valueType`. */
  function ListCtxVarTypeOf(valueType: CtxVarType): (r: CtxVarType)
    ensures r == "[]" + valueType
  {
    FormatOne("[]", [], valueType);
    assert TypeListTemplate == "[]" + Placeholder(0) + [];
    Format(TypeListTemplate, [valueType])
  }

  /** `mapCtxVarTypeOf`: the name of a map from `keyType` to `valueType`. */
  function MapCtxVarTypeOf(keyType: CtxVarType, valueType: CtxVarType): (r: CtxVarType)
    ensures r == "map[" + keyType + "]" + valueType
  {
    FormatTwo("map[", "]", keyType, valueType);
    Format(TypeMapTemplate, [keyType, valueType])
  }

  /** `ToCtxKey`: the key's name under the `pcap/cfg/` namespace. */
  function ToCtxKey(k: CtxKey): (r: string)
    ensures r == "pcap/cfg/" + k
  {
    FormatOne("pcap/cfg/", [], k);
    assert CtxKeyTemplate == "pcap/cfg/" + Placeholder(0) + [];
    Format(CtxKeyTemplate, [k])
  }

  /** `ToKtxKey`: the key's path in the koanf store, under `pcap/`. */
  function ToKtxKey(k: CtxKey): (r: string)
    ensures r == "pcap/" + k
  {
    FormatOne("pcap/", [], k);
    assert KtxKeyTemplate == "pcap/" + Placeholder(0) + [];
    Format(KtxKeyTemplate, [k])
  }

  lemma PrefixCancels(p: string, a: string, b: string)
    requires p + a == p + b
    ensures a == b
  {
    assert a == (p + a)[|p|..];
    assert b == (p + b)[|p|..];
  }

  /** Both key forms are injective; the context form of a key never equals its
      own store form, and it equals the store form of another key exactly when
      that key is `cfg/` followed by the first. */
  lemma KeyFormsInjective(a: CtxKey, b: CtxKey)
    ensures ToCtxKey(a) == ToCtxKey(b) ==> a == b
    ensures ToKtxKey(a) == ToKtxKey(b) ==> a == b
    ensures ToCtxKey(a) != ToKtxKey(a)
    ensures ToCtxKey(a) == ToKtxKey(b) <==> b == "cfg/" + a
  {
    if ToCtxKey(a) == ToCtxKey(b) {
      PrefixCancels("pcap/cfg/", a, b);
    }
    if ToKtxKey(a) == ToKtxKey(b) {
      PrefixCancels("pcap/", a, b);
    }
    assert |ToCtxKey(a)| != |ToKtxKey(a)|;
    assert "pcap/cfg/" + a == "pcap/" + ("cfg/" + a);
    if ToCtxKey(a) == ToKtxKey(b) {
      PrefixCancels("pcap/", "cfg/" + a, b);
    }
  }

  /** The list type names the context table uses. */
  lemma ListTypeNames()
    ensures TypeListString == "[]string"
    ensures TypeListUint16 == "[]uint16"
    ensures TypeListInteger == "[]int"
  {
  }
}
