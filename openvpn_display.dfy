/**
 * The one-line rendering of an OpenVPN command for logs: the binary's text
 * followed by each argument, each behind one space and wrapped in double
 * quotes exactly when it contains whitespace. No escaping is done, so the
 * line as a whole is not meant to be read back; a single argument is.
 */
module OpenVpnDisplay {
  import opened OsText
  import opened DecimalText
  import opened Net
  import opened OpenVpnArgs
  import opened Sequences

  /** What `write_argument` writes for the text of one argument. */
  function ArgumentPiece(arg: string): string
  {
    " " + (if ContainsWhitespace(arg) then "\"" + arg + "\"" else arg)
  }

  /** The pieces of a list of arguments, each converted lossily, in order. */
  function Pieces(args: seq<OsString>): string
  {
    if args == [] then "" else Pieces(args[..|args| - 1]) + ArgumentPiece(Lossy(args[|args| - 1]))
  }

  /** The text `Display::fmt` writes for a builder in state `c`. */
  function Display(c: Command): string
  {
    Lossy(c.openvpnBin) + Pieces(Arguments(c))
  }

  /** Reads one piece back: drops the leading space, and the quotes when they wrap text with whitespace. */
  function UnquotePiece(piece: string): string
  {
    var text := if piece == [] then [] else piece[1..];
    if 2 <= |text| && text[0] == '"' && text[|text| - 1] == '"' && ContainsWhitespace(text) then
      text[1..|text| - 1]
    else
      text
  }

  /** Every argument text is recovered from its piece, quoted or not. */
  lemma UnquoteRoundTrip(arg: string)
    ensures UnquotePiece(ArgumentPiece(arg)) == arg
  {
    var text := ArgumentPiece(arg)[1..];
    if ContainsWhitespace(arg) {
      assert text == "\"" + arg + "\"";
      ContainsWhitespaceConcat("\"", arg);
      ContainsWhitespaceConcat("\"" + arg, "\"");
      assert text[1..|text| - 1] == arg;
    } else {
      assert text == arg;
    }
  }

  /** The quotes are there if and only if the argument contains whitespace. */
  lemma ArgumentPieceQuoting(arg: string)
    ensures ArgumentPiece(arg) == " " + arg <==> !ContainsWhitespace(arg)
    ensures ArgumentPiece(arg) == " \"" + arg + "\"" <==> ContainsWhitespace(arg)
  {
    assert |" " + arg| != |" \"" + arg + "\""|;
  }

  /** A port is never quoted. */
  lemma DecimalPieceUnquoted(n: nat)
    ensures ArgumentPiece(Decimal(n)) == " " + Decimal(n)
  {
    DecimalHasNoWhitespace(n);
  }

  /** The display of a list of arguments is the display of its parts, in order. */
  lemma {:induction false} PiecesAppend(a: seq<OsString>, b: seq<OsString>)
    ensures Pieces(a + b) == Pieces(a) + Pieces(b)
    decreases |b|
  {
    if b == [] {
      assert a + b == a;
    } else {
      var b', last := b[..|b| - 1], b[|b| - 1];
      var piece := ArgumentPiece(Lossy(last));
      assert (a + b)[..|a + b| - 1] == a + b';
      assert (a + b)[|a + b| - 1] == last;
      assert Pieces(a + b) == Pieces(a + b') + piece;
      PiecesAppend(a, b');
      ConcatAssociative(Pieces(a), Pieces(b'), piece);
    }
  }

  /** Three arguments are shown as their three pieces, in order. */
  lemma PiecesOfThree(x: OsString, y: OsString, z: OsString)
    ensures Pieces([x, y, z]) ==
      ArgumentPiece(Lossy(x)) + ArgumentPiece(Lossy(y)) + ArgumentPiece(Lossy(z))
  {
    var px, py, pz := ArgumentPiece(Lossy(x)), ArgumentPiece(Lossy(y)), ArgumentPiece(Lossy(z));
    assert [x][..0] == [];
    assert Pieces([x]) == px;
    assert [x, y][..1] == [x];
    assert Pieces([x, y]) == px + py;
    assert [x, y, z][..2] == [x, y];
    assert Pieces([x, y, z]) == px + py + pz;
  }

  /** A remote is shown as ` --remote`, its address (quoted if it has whitespace) and its port. */
  lemma RemotePieces(remote: RemoteAddr)
    ensures Pieces(RemoteTokens(remote)) ==
      " --remote" + ArgumentPiece(remote.address) + " " + Decimal(remote.port)
  {
    var port := Decimal(remote.port);
    PiecesOfThree(REMOTE_FLAG, FromStr(remote.address), FromStr(port));
    LossyFromStr("--remote");
    LossyFromStr(remote.address);
    LossyFromStr(port);
    assert ArgumentPiece("--remote") == " --remote" by {
      assert forall i :: 0 <= i < |"--remote"| ==> "--remote"[i] in "-remot";
    }
    DecimalPieceUnquoted(remote.port);
    ConcatAssociative(" --remote" + ArgumentPiece(remote.address), " ", port);
  }

  /** The display is the binary's text, then the config, remote and plugin sections in that order. */
  lemma DisplaySections(c: Command)
    ensures Display(c) == Lossy(c.openvpnBin) + Pieces(ConfigTokens(c.config))
      + Pieces(RemotesTokens(c.remotes)) + Pieces(PluginTokens(c.plugin))
  {
    PiecesAppend(ConfigTokens(c.config), RemotesTokens(c.remotes));
    PiecesAppend(ConfigTokens(c.config) + RemotesTokens(c.remotes), PluginTokens(c.plugin));
  }

  /** A fresh builder displays as its binary alone. */
  lemma DisplayOfNew(openvpnBin: OsString)
    ensures Display(NewCommand(openvpnBin)) == Lossy(openvpnBin)
  {
    NewCommandHasNoArguments(openvpnBin);
  }
}
