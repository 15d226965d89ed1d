# OpenVPN command builder — a Dafny model

This project models `OpenVpnCommand` from `src/process/openvpn.rs` of the
Mullvad VPN daemon: the builder that describes how the `openvpn` binary is
started. It holds the binary, an optional configuration file, an ordered list of
remote endpoints, an optional plugin with its arguments, and whether the
child's output is piped. From that state it produces the argument list
`[--config <path>] [--remote <addr> <port>]* [--plugin <path> <arg>*]` and a
one-line rendering of the whole invocation for logs.

Files and modules:

- `wrappers.dfy` (`Wrappers`): `Option` and `Result`, for Rust's `Option` and `io::Result`.
- `os_text.dfy` (`OsText`): `OsString`/`PathBuf` as a sequence of units. A unit is a
  character that decodes or a run of bytes that does not. Also
  `to_str`, `to_string_lossy` (U+FFFD for each undecodable run) and
  `char::is_whitespace` with its exact table: ASCII space, U+0009 to U+000D, and
  the Unicode White_Space characters above U+007F.
- `decimal.dfy` (`DecimalText`): `u16::to_string` as `Decimal`. `ParseDecimal` is its inverse.
- `net.dfy` (`Net`): the interface of the `net` module. It holds `RemoteAddr`
  (address and `u16` port) and `io::Error`.
- `openvpn_args.dfy` (`OpenVpnArgs`): the builder state as a value (`Command`).
  `Arguments` is the serialisation as a function of that state, with lemmas on
  its layout. `ParseArguments` is the positional inverse of `Arguments`: it
  expects the sections in this order, exactly three tokens per `--remote` and
  every token after `--plugin <path>` as a plugin argument. It is not how
  `openvpn` itself parses its command line; the round-trip lemma uses it to
  show that no endpoint or plugin argument is dropped or reordered.
- `openvpn_display.dfy` (`OpenVpnDisplay`): the log rendering (`Display`) and the
  quoting rule for one argument (`ArgumentPiece`). `UnquotePiece` is its inverse.
- `openvpn.dfy` (`OpenVpn`): the class `OpenVpnCommand` with its five fields, its
  fluent setters, `GetArguments` (a loop proved equal to `Arguments`) and `Fmt`
  (proved equal to `Display`; its loop over the arguments is the method
  `WriteArguments`). It also has the free method `WriteArgument`, a
  `Formatter` that collects text, and the source's unit tests that do not
  need the `net` parser.
- `sequences.dfy` (`Sequences`): associativity of concatenation, which the
  proofs use to regroup sections.

Endpoint resolution (`ToRemoteAddrs::to_remote_addrs`) is a parameter of
`Remotes`: a total function from the caller's value to either a sequence of
endpoints or an error. The tests resolve a single `RemoteAddr` to itself and a
slice of them to its elements in order (`ResolveOne`, `ResolveSlice`). That is
the behaviour the tests rely on; the `net` module is not part of this model.

How many `--remote` tokens the list holds equals the number of remotes only
when counted at the flag positions (`ArgumentsRemoteAt`). A config path, an
address or a plugin argument that is literally `--remote` is serialised
verbatim and adds to a plain count.

## Model

| member | source | states |
|---|---|---|
| `OpenVpn.OpenVpnCommand.constructor` | src/process/openvpn.rs:27-35 | a new builder keeps the binary it is given, has no config, no remotes and no plugin, and pipes output |
| `OpenVpn.OpenVpnCommand.Config` | src/process/openvpn.rs:38-41 | sets the config to the path, changes no other field, and returns the same builder |
| `OpenVpn.OpenVpnCommand.Remotes` | src/process/openvpn.rs:45-48 | on successful resolution, replaces the whole remote list with the resolved sequence (no appending), changes nothing else and returns the same builder; on failure, returns the resolver's error and leaves every field, the list included, as it was |
| `OpenVpn.OpenVpnCommand.Plugin` | src/process/openvpn.rs:51-54 | sets the plugin to the path and the arguments exactly as given, changes no other field, and returns the same builder |
| `OpenVpn.OpenVpnCommand.PipeOutput` | src/process/openvpn.rs:59-62 | sets the output policy, changes no other field, and returns the same builder |
| `OpenVpn.OpenVpnCommand.GetArguments` | src/process/openvpn.rs:89-106 | changes nothing, and returns `Arguments` of the current state; so two calls with no change between them, or two builders in equal states, give identical lists |
| `OpenVpn.OpenVpnCommand.Fmt` | src/process/openvpn.rs:112-118 | appends the lossy text of the binary, then the piece of each argument's lossy text, in argument order |
| `OpenVpn.WriteArguments` | src/process/openvpn.rs:114-116 | appends the piece of each argument's lossy text, in argument order |
| `OpenVpn.WriteArgument` | src/process/openvpn.rs:121-132 | appends one space and the argument, wrapped in double quotes when it contains whitespace |
| `OpenVpn.Formatter.WriteStr` | src/process/openvpn.rs:122 | appends the text to what has been written |
| `OpenVpn.NoArguments` | src/process/openvpn.rs:150-154 | a fresh builder with an empty binary name yields no arguments |
| `OpenVpn.PassesOneRemote` | src/process/openvpn.rs:156-164 | one remote `example.com:3333` yields exactly `--remote`, `example.com`, `3333` |
| `OpenVpn.PassesTwoRemotes` | src/process/openvpn.rs:166-176 | two remotes yield their two triples, in the order given |
| `OpenVpnArgs.NewCommandHasNoArguments` | src/process/openvpn.rs:27-35 | a fresh builder has no arguments, whatever its binary |
| `OpenVpnArgs.ArgumentsEmpty` | src/process/openvpn.rs:89-106 | the argument list is empty if and only if no config, no remote and no plugin is set |
| `OpenVpnArgs.ArgumentsLength` | src/process/openvpn.rs:89-106 | the list has 2 tokens for a config, 3 per remote, and 2 plus the plugin's argument count for a plugin |
| `OpenVpnArgs.ArgumentsConfigAt` | src/process/openvpn.rs:91-94 | a config comes first, as `--config` followed by its path |
| `OpenVpnArgs.ArgumentsRemoteAt` | src/process/openvpn.rs:95-99 | remote i sits right after the config section and the i remotes before it, as `--remote`, its address and its decimal port on three consecutive tokens |
| `OpenVpnArgs.RemotesTokensAt` | src/process/openvpn.rs:95-99 | the remote section has 3 tokens per remote, and remote i fills positions 3i to 3i+2 |
| `OpenVpnArgs.RemotesTokensAppend` | src/process/openvpn.rs:95-99 | one more turn of the loop appends exactly that remote's three tokens |
| `OpenVpnArgs.ArgumentsPluginAt` | src/process/openvpn.rs:100-104 | a plugin comes last, as `--plugin`, its path and then each of its arguments in order, with nothing after them |
| `OpenVpnArgs.ToStrsOsStrings` | src/process/openvpn.rs:103 | converting the plugin arguments to OS strings keeps each one and their order |
| `OpenVpnArgs.ConfigRoundTrip` | src/process/openvpn.rs:91-94 | reading the list back yields the config, and leaves the remote and plugin sections |
| `OpenVpnArgs.ParseRemotesCons` | src/process/openvpn.rs:96-98 | a remote's three tokens read back as that remote, ahead of whatever the tokens after them read as |
| `OpenVpnArgs.RemotesRoundTrip` | src/process/openvpn.rs:95-99 | reading the remote section back yields the same remotes in the same order |
| `OpenVpnArgs.PluginRoundTrip` | src/process/openvpn.rs:100-104 | reading the plugin section back yields the same plugin path and arguments |
| `OpenVpnArgs.PortRoundTrip` | src/process/openvpn.rs:98 | the port's token reads back as the same port |
| `OpenVpnArgs.ParseArgumentsRoundTrip` | src/process/openvpn.rs:89-106 | reading the argument list back recovers the config, every remote in order and the plugin with its arguments in order |
| `OpenVpnArgs.ArgumentsInjective` | src/process/openvpn.rs:89-106 | two states with the same arguments have the same config, remotes and plugin |
| `DecimalText.Decimal` | src/process/openvpn.rs:98 | a port's text is non-empty, all digits, and starts with `0` only for zero |
| `DecimalText.DecimalRoundTrip` | src/process/openvpn.rs:98 | the decimal text of n reads back as n |
| `DecimalText.DecimalOfParsed` | src/process/openvpn.rs:98 | digit text without a superfluous leading zero is exactly the decimal text of its value |
| `DecimalText.DecimalHasNoWhitespace` | src/process/openvpn.rs:98 | a port's text contains no whitespace |
| `OsText.ToStrFromStr` | src/process/openvpn.rs:96-98 | text turned into an OS string reads back as the same text |
| `OsText.FromStrToStr` | src/process/openvpn.rs:96-98 | an OS string that decodes is the OS string of its text |
| `OsText.LossyOfText` | src/process/openvpn.rs:113-114 | lossy conversion leaves an OS string that decodes unchanged |
| `OsText.LossyFromStr` | src/process/openvpn.rs:114 | the lossy text of an argument made from text is that text |
| `OsText.LossyReplaces` | src/process/openvpn.rs:110-111 | the lossy text has U+FFFD at a position exactly when that unit does not decode or is U+FFFD itself |
| `OsText.ContainsWhitespaceConcat` | src/process/openvpn.rs:123 | a concatenation contains whitespace if and only if one of its parts does |
| `OpenVpnDisplay.ArgumentPieceQuoting` | src/process/openvpn.rs:122-130 | an argument is written as `" " + a` if and only if it has no whitespace, and as `" \"" + a + "\""` if and only if it has some |
| `OpenVpnDisplay.UnquoteRoundTrip` | src/process/openvpn.rs:121-132 | every argument is recovered from its written piece, quoted or not |
| `OpenVpnDisplay.DecimalPieceUnquoted` | src/process/openvpn.rs:121-132 | a port is never quoted |
| `OpenVpnDisplay.PiecesAppend` | src/process/openvpn.rs:114-116 | the rendering of a list of arguments is the rendering of its parts, in order |
| `OpenVpnDisplay.RemotePieces` | src/process/openvpn.rs:114-116 | a remote renders as ` --remote`, its address (quoted if it has whitespace), a space and its port |
| `OpenVpnDisplay.DisplaySections` | src/process/openvpn.rs:112-118 | the rendering is the binary's lossy text, then the config, remote and plugin sections in that order |
| `OpenVpnDisplay.DisplayOfNew` | src/process/openvpn.rs:112-118 | a fresh builder renders as its binary's lossy text alone |
| `OpenVpn.PluginDisplayText` | src/process/openvpn.rs:112-132 | a builder with only plugin `p` and argument `a b` renders as the binary, ` --plugin p` and the quoted `"a b"` |
| `OpenVpn.DisplaysPlugin` | src/process/openvpn.rs:112-132 | formatting the builder `new("openvpn")` with plugin `p` and argument `a b` writes `openvpn --plugin p "a b"` |

## Left out

- `spawn`, `create_command`, `get_output_pipe_policy` and the `ChildSpawner` impl (src/process/openvpn.rs:65-86, 135-141): they create an OS process through `std::process::Command` and the `clonablechild` crate. The `pipeOutput` field is kept and set, but nothing in the model reads it.
- Parsing and resolution of `"host:port"` strings by `ToRemoteAddrs`/`RemoteAddr`: the `net` module is not part of this model. The tests that depend on it (`accepts_str`, `accepts_slice_of_str`, src/process/openvpn.rs:178-193) are left out with it.
- UTF-8 decoding at the byte level: an OS string is modelled as its decoded units, so where one undecodable run ends and the next begins is taken as given.
- `fmt::Formatter` write errors: the formatter only collects text, and `?` never returns early.
- The `Clone` derive, and sharing or concurrency of child handles.
- Rust's `u16` is a subset type of `nat` below 65536. The builder does no arithmetic on ports, so nothing can wrap around.
