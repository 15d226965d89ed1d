/**
 * The OpenVPN command builder: a mutable object with fluent setters, the
 * argument serialiser proved equal to `OpenVpnArgs.Arguments`, and the
 * display formatter proved equal to `OpenVpnDisplay.Display`.
 */
module OpenVpn {
  import opened Wrappers
  import opened OsText
  import opened DecimalText
  import opened Net
  import opened OpenVpnArgs
  import opened OpenVpnDisplay
  import opened Sequences

  /** `fmt::Formatter`, seen as the text written to it so far. Its write errors are not modelled. */
  class Formatter {
    var output: string

    constructor ()
      ensures output == ""
    {
      output := "";
    }

    method WriteStr(s: string)
      modifies this
      ensures output == old(output) + s
    {
      output := output + s;
    }
  }

  /** `write_argument`: one space, then the argument, in double quotes when it contains whitespace. */
  method WriteArgument(f: Formatter, arg: string)
    modifies f
    ensures f.output == old(f.output) + ArgumentPiece(arg)
  {
    f.WriteStr(" ");
    var quote := ContainsWhitespace(arg);
    if quote {
      f.WriteStr("\"");
    }
    f.WriteStr(arg);
    if quote {
      f.WriteStr("\"");
    }
  }

  /** `OpenVpnCommand`: how an OpenVPN process is to be started. */
  class OpenVpnCommand {
    var openvpnBin: OsString
    var config: Option<OsString>
    var remotes: seq<RemoteAddr>
    var plugin: Option<Plugin>
    var pipeOutput: bool

    /** The builder's five fields as a value. */
    function State(): Command
      reads this
    {
      Command(openvpnBin, config, remotes, plugin, pipeOutput)
    }

    /** `OpenVpnCommand::new`: no config, no remotes, no plugin, output piped. */
    constructor (openvpnBin: OsString)
      ensures State() == NewCommand(openvpnBin)
    {
      this.openvpnBin := openvpnBin;
      config := None;
      remotes := [];
      plugin := None;
      pipeOutput := true;
    }

    /** Sets the configuration file; every other field is unchanged. */
    method Config(path: OsString) returns (self: OpenVpnCommand)
      modifies this
      ensures self == this
      ensures State() == old(State()).(config := Some(path))
    {
      config := Some(path);
      self := this;
    }

    /**
     * Sets the remotes to what `resolve` (the `ToRemoteAddrs` conversion)
     * makes of `addrs`, replacing the old list. When resolution fails, its
     * error is returned and the builder is unchanged.
     */
    method Remotes<A>(addrs: A, resolve: A -> Result<seq<RemoteAddr>, IoError>)
      returns (r: Result<OpenVpnCommand, IoError>)
      modifies this
      ensures resolve(addrs).Ok? ==> r == Ok(this) && State() == old(State()).(remotes := resolve(addrs).value)
      ensures resolve(addrs).Err? ==> r == Err(resolve(addrs).error) && State() == old(State())
    {
      var resolved := resolve(addrs);
      if resolved.Err? {
        return Err(resolved.error);
      }
      remotes := resolved.value;
      r := Ok(this);
    }

    /** Sets the plugin and its arguments; every other field is unchanged. */
    method Plugin(path: OsString, args: seq<string>) returns (self: OpenVpnCommand)
      modifies this
      ensures self == this
      ensures State() == old(State()).(plugin := Some(OpenVpnArgs.Plugin(path, args)))
    {
      plugin := Some(OpenVpnArgs.Plugin(path, args));
      self := this;
    }

    /** Chooses between piping the child's output and discarding it; every other field is unchanged. */
    method PipeOutput(pipeOutput: bool) returns (self: OpenVpnCommand)
      modifies this
      ensures self == this
      ensures State() == old(State()).(pipeOutput := pipeOutput)
    {
      this.pipeOutput := pipeOutput;
      self := this;
    }

    /** `get_arguments`: reads the state only, and returns the arguments it determines. */
    method GetArguments() returns (args: seq<OsString>)
      ensures args == Arguments(State())
    {
      args := [];
      if config.Some? {
        args := args + [CONFIG_FLAG];
        args := args + [config.value];
      }
      ghost var prefix := args;
      assert prefix == ConfigTokens(config);
      for i := 0 to |remotes|
        invariant args == prefix + RemotesTokens(remotes[..i])
      {
        args := args + [REMOTE_FLAG];
        args := args + [FromStr(remotes[i].address)];
        args := args + [FromStr(Decimal(remotes[i].port))];
        RemoteStep(prefix, remotes, i);
      }
      assert remotes[..|remotes|] == remotes;
      if plugin.Some? {
        ghost var before := args;
        args := args + [PLUGIN_FLAG];
        args := args + [plugin.value.path];
        args := args + OsStrings(plugin.value.args);
        PluginStep(before, plugin.value);
      }
    }

    /** `Display::fmt`: writes the binary's text, then each argument's piece in order. */
    method Fmt(f: Formatter)
      modifies f
      ensures f.output == old(f.output) + Display(State())
    {
      ghost var written := f.output;
      f.WriteStr(Lossy(openvpnBin));
      var args := GetArguments();
      WriteArguments(f, args);
      ConcatAssociative(written, Lossy(openvpnBin), Pieces(args));
    }
  }

  /** The loop of `Display::fmt`: writes the piece of each argument's lossy text, in order. */
  method WriteArguments(f: Formatter, args: seq<OsString>)
    modifies f
    ensures f.output == old(f.output) + Pieces(args)
  {
    ghost var prefix := f.output;
    for i := 0 to |args|
      invariant f.output == prefix + Pieces(args[..i])
    {
      WriteArgument(f, Lossy(args[i]));
      assert args[..i + 1][..i] == args[..i];
    }
    assert args[..|args|] == args;
  }

  /** One turn of the serialising loop appends the three tokens of remote `i`. */
  lemma RemoteStep(prefix: seq<OsString>, remotes: seq<RemoteAddr>, i: nat)
    requires i < |remotes|
    ensures prefix + RemotesTokens(remotes[..i]) + [REMOTE_FLAG] + [FromStr(remotes[i].address)]
      + [FromStr(Decimal(remotes[i].port))] == prefix + RemotesTokens(remotes[..i + 1])
  {
    assert remotes[..i + 1] == remotes[..i] + [remotes[i]];
    RemotesTokensAppend(remotes[..i], remotes[i]);
  }

  /** The plugin's pushes append its tokens. */
  lemma PluginStep(before: seq<OsString>, plugin: Plugin)
    ensures before + [PLUGIN_FLAG] + [plugin.path] + OsStrings(plugin.args) == before + PluginTokens(Some(plugin))
  {
  }

  /** A single `RemoteAddr` and a slice of them resolve to themselves, in order. */
  function ResolveOne(remote: RemoteAddr): Result<seq<RemoteAddr>, IoError>
  {
    Ok([remote])
  }

  function ResolveSlice(remotes: seq<RemoteAddr>): Result<seq<RemoteAddr>, IoError>
  {
    Ok(remotes)
  }

  /** The decimal texts of the ports the tests use. */
  lemma TestPortTexts()
    ensures Decimal(3333) == "3333" && Decimal(998) == "998" && Decimal(1337) == "1337"
  {
    assert Decimal(3) == "3" && Decimal(33) == "33" && Decimal(333) == "333";
    assert Decimal(9) == "9" && Decimal(99) == "99";
    assert Decimal(1) == "1" && Decimal(13) == "13" && Decimal(133) == "133";
  }

  /** The remote section of two remotes. */
  lemma RemotesTokensOfTwo(first: RemoteAddr, second: RemoteAddr)
    ensures RemotesTokens([first, second]) == RemoteTokens(first) + RemoteTokens(second)
  {
    RemotesTokensAppend([], first);
    assert [] + [first] == [first];
    RemotesTokensAppend([first], second);
    assert [first] + [second] == [first, second];
  }

  /** The `no_arguments` test: a fresh builder with an empty binary name has no arguments. */
  method NoArguments() returns (args: seq<OsString>)
    ensures args == []
  {
    var command := new OpenVpnCommand(FromStr(""));
    args := command.GetArguments();
    NewCommandHasNoArguments(FromStr(""));
  }

  /** The `passes_one_remote` test: the address and the port are standalone arguments. */
  method PassesOneRemote() returns (args: seq<OsString>)
    ensures args == [REMOTE_FLAG, FromStr("example.com"), FromStr("3333")]
  {
    var command := new OpenVpnCommand(FromStr(""));
    var result := command.Remotes(RemoteAddr("example.com", 3333), ResolveOne);
    assert result.Ok?;
    args := result.value.GetArguments();
    TestPortTexts();
    var remote := RemoteAddr("example.com", 3333);
    RemotesTokensAppend([], remote);
    assert [] + [remote] == [remote];
  }

  /** The `passes_two_remotes` test: both remotes appear, in the given order. */
  method PassesTwoRemotes() returns (args: seq<OsString>)
    ensures args == [REMOTE_FLAG, FromStr("127.0.0.1"), FromStr("998"),
                     REMOTE_FLAG, FromStr("fe80::1"), FromStr("1337")]
  {
    var command := new OpenVpnCommand(FromStr(""));
    var first, second := RemoteAddr("127.0.0.1", 998), RemoteAddr("fe80::1", 1337);
    var result := command.Remotes([first, second], ResolveSlice);
    assert result.Ok?;
    args := result.value.GetArguments();
    RemotesTokensOfTwo(first, second);
    TestPortTexts();
  }

  /** The rendering of a builder whose only setting is plugin `p` with the one argument `a b`. */
  lemma PluginDisplayText(openvpnBin: string)
    ensures Display(NewCommand(FromStr(openvpnBin)).(plugin := Some(OpenVpnArgs.Plugin(FromStr("p"), ["a b"]))))
      == openvpnBin + " --plugin p \"a b\""
  {
    var c := NewCommand(FromStr(openvpnBin)).(plugin := Some(OpenVpnArgs.Plugin(FromStr("p"), ["a b"])));
    assert OsStrings(["a b"]) == [FromStr("a b")];
    assert Arguments(c) == [PLUGIN_FLAG, FromStr("p"), FromStr("a b")];
    PiecesOfThree(PLUGIN_FLAG, FromStr("p"), FromStr("a b"));
    LossyFromStr(openvpnBin);
    LossyFromStr("--plugin");
    LossyFromStr("p");
    LossyFromStr("a b");
    assert IsWhitespace("a b"[1]);
    assert !ContainsWhitespace("--plugin") by {
      forall i | 0 <= i < |"--plugin"| ensures !IsWhitespace("--plugin"[i]) { }
    }
    assert !ContainsWhitespace("p") by {
      assert !IsWhitespace("p"[0]);
    }
  }

  /** The display example: a plugin argument with a space is quoted, everything else is written bare. */
  method DisplaysPlugin() returns (text: string)
    ensures text == "openvpn --plugin p \"a b\""
  {
    var command := new OpenVpnCommand(FromStr("openvpn"));
    command := command.Plugin(FromStr("p"), ["a b"]);
    var f := new Formatter();
    command.Fmt(f);
    text := f.output;
    PluginDisplayText("openvpn");
  }
}
