/**
 * Operating-system strings (`std::ffi::OsString`, `PathBuf`) and the two text
 * services the builder applies to them: lossy conversion to text
 * (`OsStr::to_string_lossy`) and the Unicode whitespace test
 * (`char::is_whitespace`).
 *
 * An OS string is modelled as the sequence a UTF-8 decoder sees in it: each
 * unit is either a character that decodes or a run of bytes that does not.
 * The byte-level decoding itself is not modelled.
 */
module OsText {
  import opened Wrappers

  newtype byte = x: int | 0 <= x < 0x100

  datatype OsUnit = Char(c: char) | Invalid(bytes: seq<byte>)

  type OsString = seq<OsUnit>

  /** U+FFFD, what lossy conversion writes for each undecodable run. */
  const REPLACEMENT_CHARACTER: char := '\U{FFFD}'

  /** `OsString::from(&str)`: every character of the text is a valid unit. */
  function FromStr(s: string): OsString
  {
    seq(|s|, i requires 0 <= i < |s| => Char(s[i]))
  }

  /** `OsStr::to_str`: the text of an OS string that decodes throughout. */
  function ToStr(os: OsString): Option<string>
  {
    if forall i :: 0 <= i < |os| ==> os[i].Char? then
      Some(seq(|os|, i requires 0 <= i < |os| && os[i].Char? => os[i].c))
    else
      None
  }

  function UnitText(u: OsUnit): char
  {
    match u
    case Char(c) => c
    case Invalid(_) => REPLACEMENT_CHARACTER
  }

  /** `OsStr::to_string_lossy`: one character per unit, U+FFFD for a run that does not decode. */
  function Lossy(os: OsString): (s: string)
    ensures |s| == |os|
  {
    seq(|os|, i requires 0 <= i < |os| => UnitText(os[i]))
  }

  /** Text survives the trip through an OS string unchanged. */
  lemma ToStrFromStr(s: string)
    ensures ToStr(FromStr(s)) == Some(s)
  {
    var os := FromStr(s);
    assert forall i :: 0 <= i < |os| ==> os[i] == Char(s[i]);
    assert ToStr(os).Some?;
    assert ToStr(os).value == s;
  }

  /** An OS string that decodes is the OS string of its text. */
  lemma FromStrToStr(os: OsString, s: string)
    requires ToStr(os) == Some(s)
    ensures FromStr(s) == os
  {
    assert |s| == |os|;
    forall i | 0 <= i < |os|
      ensures FromStr(s)[i] == os[i]
    {
      assert os[i].Char?;
    }
  }

  /** Lossy conversion changes nothing in an OS string that decodes. */
  lemma LossyOfText(os: OsString, s: string)
    requires ToStr(os) == Some(s)
    ensures Lossy(os) == s
  {
    forall i | 0 <= i < |os|
      ensures Lossy(os)[i] == s[i]
    {
      assert os[i].Char?;
    }
  }

  /** Lossy conversion of `OsString::from(s)` gives back `s`. */
  lemma LossyFromStr(s: string)
    ensures Lossy(FromStr(s)) == s
  {
    ToStrFromStr(s);
    LossyOfText(FromStr(s), s);
  }

  /** The replacement character appears exactly where a unit does not decode, or where the text itself has one. */
  lemma LossyReplaces(os: OsString, i: nat)
    requires i < |os|
    ensures Lossy(os)[i] == REPLACEMENT_CHARACTER <==> os[i].Invalid? || os[i] == Char(REPLACEMENT_CHARACTER)
  {
  }

  /**
   * `char::is_whitespace`: ASCII space and the controls U+0009 to U+000D,
   * and above U+007F the characters with the Unicode White_Space property.
   */
  predicate IsWhitespace(c: char)
  {
    c == ' ' || ('\t' <= c <= '\r') ||
    (c > '\U{7F}' &&
      (c == '\U{85}' || c == '\U{A0}' || c == '\U{1680}' ||
       ('\U{2000}' <= c <= '\U{200A}') ||
       c == '\U{2028}' || c == '\U{2029}' || c == '\U{202F}' ||
       c == '\U{205F}' || c == '\U{3000}'))
  }

  /** `str::contains(char::is_whitespace)`. */
  predicate ContainsWhitespace(s: string)
  {
    exists i :: 0 <= i < |s| && IsWhitespace(s[i])
  }

  /** Whitespace in a concatenation is whitespace in one of its parts. */
  lemma ContainsWhitespaceConcat(a: string, b: string)
    ensures ContainsWhitespace(a + b) <==> ContainsWhitespace(a) || ContainsWhitespace(b)
  {
    if ContainsWhitespace(a + b) {
      var i :| 0 <= i < |a + b| && IsWhitespace((a + b)[i]);
      if i < |a| {
        assert IsWhitespace(a[i]);
      } else {
        assert IsWhitespace(b[i - |a|]);
      }
    }
    if ContainsWhitespace(b) {
      var j :| 0 <= j < |b| && IsWhitespace(b[j]);
      assert (a + b)[|a| + j] == b[j];
    }
    if ContainsWhitespace(a) {
      var j :| 0 <= j < |a| && IsWhitespace(a[j]);
      assert (a + b)[j] == a[j];
    }
  }
}
