/**
 * The state of an OpenVPN command builder as a value, and the argument list
 * it serialises to: `[--config <path>] [--remote <addr> <port>]* [--plugin <path> <arg>*]`.
 * `OpenVpn.OpenVpnCommand.GetArguments` is proved equal to `Arguments`.
 * `ParseArguments` is the positional inverse of `Arguments` (fixed section
 * order, three tokens per remote, everything after the plugin path taken as
 * plugin arguments), not `openvpn`'s own option parser;
 * `ParseArgumentsRoundTrip` uses it to show that nothing is dropped or reordered.
 */
module OpenVpnArgs {
  import opened Wrappers
  import opened OsText
  import opened DecimalText
  import opened Net
  import opened Sequences

  /** A plugin path with the arguments it is started with, in order. */
  datatype Plugin = Plugin(path: OsString, args: seq<string>)

  /** The five fields of the builder. */
  datatype Command = Command(
    openvpnBin: OsString,
    config: Option<OsString>,
    remotes: seq<RemoteAddr>,
    plugin: Option<Plugin>,
    pipeOutput: bool)

  const CONFIG_FLAG: OsString := FromStr("--config")
  const REMOTE_FLAG: OsString := FromStr("--remote")
  const PLUGIN_FLAG: OsString := FromStr("--plugin")

  /** The state `OpenVpnCommand::new` builds: nothing set, output piped. */
  function NewCommand(openvpnBin: OsString): Command
  {
    Command(openvpnBin, None, [], None, true)
  }

  function ConfigTokens(config: Option<OsString>): seq<OsString>
  {
    match config
    case None => []
    case Some(path) => [CONFIG_FLAG, path]
  }

  function RemoteTokens(remote: RemoteAddr): seq<OsString>
  {
    [REMOTE_FLAG, FromStr(remote.address), FromStr(Decimal(remote.port))]
  }

  function RemotesTokens(remotes: seq<RemoteAddr>): seq<OsString>
  {
    if remotes == [] then [] else RemoteTokens(remotes[0]) + RemotesTokens(remotes[1..])
  }

  /** `OsString::from` applied to each string, in order. */
  function OsStrings(ss: seq<string>): seq<OsString>
  {
    seq(|ss|, i requires 0 <= i < |ss| => FromStr(ss[i]))
  }

  function PluginTokens(plugin: Option<Plugin>): seq<OsString>
  {
    match plugin
    case None => []
    case Some(Plugin(path, args)) => [PLUGIN_FLAG, path] + OsStrings(args)
  }

  /** The arguments the binary is started with, as a function of the builder's state. */
  function Arguments(c: Command): seq<OsString>
  {
    ConfigTokens(c.config) + RemotesTokens(c.remotes) + PluginTokens(c.plugin)
  }

  /** How many tokens the config section takes: two when a config is set. */
  function ConfigWidth(c: Command): nat
  {
    if c.config.Some? then 2 else 0
  }

  // ---------------------------------------------------------------------------
  // Layout of the argument list

  /** Appending a remote appends its three tokens: the step of the serialising loop. */
  lemma {:induction false} RemotesTokensAppend(remotes: seq<RemoteAddr>, remote: RemoteAddr)
    ensures RemotesTokens(remotes + [remote]) == RemotesTokens(remotes) + RemoteTokens(remote)
  {
    if remotes != [] {
      assert (remotes + [remote])[1..] == remotes[1..] + [remote];
      RemotesTokensAppend(remotes[1..], remote);
    } else {
      assert RemotesTokens([remote]) == RemoteTokens(remote) + RemotesTokens([]);
    }
  }

  /** Remote `i` occupies tokens `3i`, `3i+1`, `3i+2` of the remote section. */
  lemma {:induction false} RemotesTokensAt(remotes: seq<RemoteAddr>, i: nat)
    requires i < |remotes|
    ensures |RemotesTokens(remotes)| == 3 * |remotes|
    ensures RemotesTokens(remotes)[3 * i] == REMOTE_FLAG
    ensures RemotesTokens(remotes)[3 * i + 1] == FromStr(remotes[i].address)
    ensures RemotesTokens(remotes)[3 * i + 2] == FromStr(Decimal(remotes[i].port))
  {
    var head, later := RemoteTokens(remotes[0]), RemotesTokens(remotes[1..]);
    assert RemotesTokens(remotes) == head + later;
    if |remotes| == 1 {
      assert remotes[1..] == [];
    } else {
      RemotesTokensAt(remotes[1..], if i > 0 then i - 1 else 0);
    }
  }

  lemma RemotesTokensLength(remotes: seq<RemoteAddr>)
    ensures |RemotesTokens(remotes)| == 3 * |remotes|
  {
    if remotes != [] {
      RemotesTokensAt(remotes, 0);
    }
  }

  /**
   * The number of arguments: two for a config, three per remote, and two plus
   * the plugin's own arguments for a plugin.
   */
  lemma ArgumentsLength(c: Command)
    ensures |Arguments(c)| ==
      ConfigWidth(c) + 3 * |c.remotes| + (if c.plugin.Some? then 2 + |c.plugin.value.args| else 0)
  {
    RemotesTokensLength(c.remotes);
  }

  /** A builder with no config, no remotes and no plugin has no arguments, and only such a builder. */
  lemma ArgumentsEmpty(c: Command)
    ensures Arguments(c) == [] <==> c.config.None? && c.remotes == [] && c.plugin.None?
  {
    ArgumentsLength(c);
  }

  /** A fresh builder has no arguments, whatever its binary. */
  lemma NewCommandHasNoArguments(openvpnBin: OsString)
    ensures Arguments(NewCommand(openvpnBin)) == []
  {
    ArgumentsEmpty(NewCommand(openvpnBin));
  }

  /** A config comes first: `--config`, then its path. */
  lemma ArgumentsConfigAt(c: Command)
    requires c.config.Some?
    ensures 2 <= |Arguments(c)|
    ensures Arguments(c)[0] == CONFIG_FLAG && Arguments(c)[1] == c.config.value
  {
  }

  /**
   * Remote `i` comes right after the config section and the `i` remotes before
   * it: `--remote`, its address, its port in decimal, as three consecutive tokens.
   */
  lemma ArgumentsRemoteAt(c: Command, i: nat)
    requires i < |c.remotes|
    ensures ConfigWidth(c) + 3 * i + 2 < |Arguments(c)|
    ensures Arguments(c)[ConfigWidth(c) + 3 * i] == REMOTE_FLAG
    ensures Arguments(c)[ConfigWidth(c) + 3 * i + 1] == FromStr(c.remotes[i].address)
    ensures Arguments(c)[ConfigWidth(c) + 3 * i + 2] == FromStr(Decimal(c.remotes[i].port))
  {
    RemotesTokensAt(c.remotes, i);
    var config, remotes, plugin := ConfigTokens(c.config), RemotesTokens(c.remotes), PluginTokens(c.plugin);
    ConcatAssociative(config, remotes, plugin);
    var k := 3 * i;
    assert |config| == ConfigWidth(c);
    assert (config + (remotes + plugin))[|config| + k] == remotes[k];
    assert (config + (remotes + plugin))[|config| + k + 1] == remotes[k + 1];
    assert (config + (remotes + plugin))[|config| + k + 2] == remotes[k + 2];
  }

  /**
   * A plugin comes last: `--plugin`, its path, then each of its arguments in
   * the given order, and nothing after them.
   */
  lemma ArgumentsPluginAt(c: Command)
    requires c.plugin.Some?
    ensures var k := ConfigWidth(c) + 3 * |c.remotes|;
      && |Arguments(c)| == k + 2 + |c.plugin.value.args|
      && Arguments(c)[k] == PLUGIN_FLAG
      && Arguments(c)[k + 1] == c.plugin.value.path
      && forall j :: 0 <= j < |c.plugin.value.args| ==> Arguments(c)[k + 2 + j] == FromStr(c.plugin.value.args[j])
  {
    var k := ConfigWidth(c) + 3 * |c.remotes|;
    RemotesTokensLength(c.remotes);
    var front, plugin := ConfigTokens(c.config) + RemotesTokens(c.remotes), PluginTokens(c.plugin);
    assert |front| == k;
    forall j | 0 <= j < |c.plugin.value.args|
      ensures (front + plugin)[k + 2 + j] == FromStr(c.plugin.value.args[j])
    {
      assert (front + plugin)[k + 2 + j] == plugin[2 + j];
    }
  }

  // ---------------------------------------------------------------------------
  // Reading the argument list back

  /** What the argument list carries: everything of the builder but the binary and the output policy. */
  datatype Invocation = Invocation(config: Option<OsString>, remotes: seq<RemoteAddr>, plugin: Option<Plugin>)

  function ParsePort(token: OsString): Option<Port>
  {
    match ToStr(token)
    case None => None
    case Some(text) =>
      match ParseDecimal(text)
      case Some(n) => if n < 0x1_0000 then Some(n) else None
      case None => None
  }

  function ToStrs(tokens: seq<OsString>): Option<seq<string>>
  {
    if tokens == [] then Some([])
    else
      match (ToStr(tokens[0]), ToStrs(tokens[1..]))
      case (Some(s), Some(ss)) => Some([s] + ss)
      case _ => None
  }

  /** Reads `--remote <addr> <port>` triples; returns them with the tokens that follow. */
  function ParseRemotes(tokens: seq<OsString>): Option<(seq<RemoteAddr>, seq<OsString>)>
    decreases |tokens|
  {
    if 3 <= |tokens| && tokens[0] == REMOTE_FLAG then
      match (ToStr(tokens[1]), ParsePort(tokens[2]), ParseRemotes(tokens[3..]))
      case (Some(address), Some(port), Some((remotes, rest))) =>
        Some(([RemoteAddr(address, port)] + remotes, rest))
      case _ => None
    else
      Some(([], tokens))
  }

  function ParsePlugin(tokens: seq<OsString>): Option<Option<Plugin>>
  {
    if tokens == [] then Some(None)
    else if 2 <= |tokens| && tokens[0] == PLUGIN_FLAG then
      match ToStrs(tokens[2..])
      case Some(args) => Some(Some(Plugin(tokens[1], args)))
      case None => None
    else None
  }

  /** Reads an optional `--config <path>`; returns it with the tokens that follow. */
  function ParseConfig(tokens: seq<OsString>): (Option<OsString>, seq<OsString>)
  {
    if 2 <= |tokens| && tokens[0] == CONFIG_FLAG then (Some(tokens[1]), tokens[2..]) else (None, tokens)
  }

  function ParseArguments(tokens: seq<OsString>): Option<Invocation>
  {
    var (config, rest) := ParseConfig(tokens);
    match ParseRemotes(rest)
    case None => None
    case Some((remotes, rest')) =>
      match ParsePlugin(rest')
      case None => None
      case Some(plugin) => Some(Invocation(config, remotes, plugin))
  }

  /** The three flags are different tokens. */
  lemma FlagsDistinct()
    ensures CONFIG_FLAG != REMOTE_FLAG && CONFIG_FLAG != PLUGIN_FLAG && REMOTE_FLAG != PLUGIN_FLAG
  {
    assert CONFIG_FLAG[2] == Char('c');
    assert REMOTE_FLAG[2] == Char('r');
    assert PLUGIN_FLAG[2] == Char('p');
  }

  lemma PortRoundTrip(port: Port)
    ensures ParsePort(FromStr(Decimal(port))) == Some(port)
  {
    ToStrFromStr(Decimal(port));
    DecimalRoundTrip(port);
  }

  lemma {:induction false} ToStrsOsStrings(ss: seq<string>)
    ensures ToStrs(OsStrings(ss)) == Some(ss)
  {
    if ss != [] {
      assert OsStrings(ss)[1..] == OsStrings(ss[1..]);
      ToStrFromStr(ss[0]);
      ToStrsOsStrings(ss[1..]);
      assert [ss[0]] + ss[1..] == ss;
    }
  }

  lemma PluginRoundTrip(plugin: Option<Plugin>)
    ensures ParsePlugin(PluginTokens(plugin)) == Some(plugin)
  {
    if plugin.Some? {
      var tokens := PluginTokens(plugin);
      assert tokens[2..] == OsStrings(plugin.value.args);
      ToStrsOsStrings(plugin.value.args);
    }
  }

  /** A remote's three tokens are read back as that remote, ahead of what the rest reads as. */
  lemma ParseRemotesCons(remote: RemoteAddr, later: seq<OsString>)
    ensures ParseRemotes(RemoteTokens(remote) + later) ==
      match ParseRemotes(later)
      case None => None
      case Some((remotes, rest)) => Some(([remote] + remotes, rest))
  {
    var tokens := RemoteTokens(remote) + later;
    assert tokens[0] == REMOTE_FLAG && tokens[1] == FromStr(remote.address);
    assert tokens[2] == FromStr(Decimal(remote.port)) && tokens[3..] == later;
    ToStrFromStr(remote.address);
    PortRoundTrip(remote.port);
  }

  /** The remote section is read back as the same remotes, in the same order, and the plugin section is left over. */
  lemma {:induction false} RemotesRoundTrip(remotes: seq<RemoteAddr>, plugin: Option<Plugin>)
    ensures ParseRemotes(RemotesTokens(remotes) + PluginTokens(plugin)) == Some((remotes, PluginTokens(plugin)))
  {
    var tail := PluginTokens(plugin);
    if remotes == [] {
      FlagsDistinct();
      assert RemotesTokens(remotes) + tail == tail;
    } else {
      var r := remotes[0];
      var later := RemotesTokens(remotes[1..]) + tail;
      assert RemotesTokens(remotes) + tail == RemoteTokens(r) + later by {
        ConcatAssociative(RemoteTokens(r), RemotesTokens(remotes[1..]), tail);
      }
      ParseRemotesCons(r, later);
      RemotesRoundTrip(remotes[1..], plugin);
      assert [r] + remotes[1..] == remotes;
    }
  }

  /** After the config section, the first token (if any) is `--remote` or `--plugin`, never `--config`. */
  lemma RestDoesNotStartWithConfig(remotes: seq<RemoteAddr>, plugin: Option<Plugin>)
    ensures var rest := RemotesTokens(remotes) + PluginTokens(plugin);
      rest == [] || rest[0] != CONFIG_FLAG
  {
    FlagsDistinct();
    if remotes != [] {
      assert (RemotesTokens(remotes) + PluginTokens(plugin))[0] == REMOTE_FLAG;
    } else if plugin.Some? {
      assert (RemotesTokens(remotes) + PluginTokens(plugin))[0] == PLUGIN_FLAG;
    }
  }

  /** The config section is read back as the config; the remote and plugin sections are left over. */
  lemma ConfigRoundTrip(c: Command)
    ensures ParseConfig(Arguments(c)) == (c.config, RemotesTokens(c.remotes) + PluginTokens(c.plugin))
  {
    var rest := RemotesTokens(c.remotes) + PluginTokens(c.plugin);
    assert Arguments(c) == ConfigTokens(c.config) + rest by {
      ConcatAssociative(ConfigTokens(c.config), RemotesTokens(c.remotes), PluginTokens(c.plugin));
    }
    if c.config.None? {
      assert ConfigTokens(c.config) + rest == rest;
      RestDoesNotStartWithConfig(c.remotes, c.plugin);
    }
  }

  /**
   * Reading the arguments back recovers the config, every remote in its
   * order and the plugin with its arguments in their order.
   */
  lemma ParseArgumentsRoundTrip(c: Command)
    ensures ParseArguments(Arguments(c)) == Some(Invocation(c.config, c.remotes, c.plugin))
  {
    ConfigRoundTrip(c);
    RemotesRoundTrip(c.remotes, c.plugin);
    PluginRoundTrip(c.plugin);
  }

  /** Two builders with the same arguments agree on config, remotes and plugin. */
  lemma ArgumentsInjective(c1: Command, c2: Command)
    requires Arguments(c1) == Arguments(c2)
    ensures c1.config == c2.config && c1.remotes == c2.remotes && c1.plugin == c2.plugin
  {
    ParseArgumentsRoundTrip(c1);
    ParseArgumentsRoundTrip(c2);
  }
}
