/**
 Indentation of messages: `_format` (every line of a message shifted right by
 the current indent, the empty message left alone) and `_indentSingleLine`
 (a title shifted right as one line). Colour is not applied here: the model
 carries it as a tag on the printed event.
 */
module Formatting {
  import opened Text

  /** Every line with `prefix` in front of it, in order. */
  function PrefixEach(prefix: string, lines: seq<string>): (r: seq<string>)
    ensures |r| == |lines|
    ensures forall i :: 0 <= i < |lines| ==> r[i] == prefix + lines[i]
  {
    if lines == [] then [] else [prefix + lines[0]] + PrefixEach(prefix, lines[1..])
  }

  /** Every line with its first `n` characters removed (lines shorter than `n` are kept). */
  function DropEach(n: nat, lines: seq<string>): (r: seq<string>)
    ensures |r| == |lines|
    ensures forall i :: 0 <= i < |lines| && n <= |lines[i]| ==> r[i] == lines[i][n..]
  {
    if lines == [] then []
    else [if n <= |lines[0]| then lines[0][n..] else lines[0]] + DropEach(n, lines[1..])
  }

  /** `_format(msg)` without colour, for the indent `indent`. */
  function Format(indent: int, msg: string): (r: string)
    ensures msg == "" ==> r == ""
    ensures indent <= 0 ==> r == msg
  {
    if msg == "" then msg
    else if indent > 0 then Join(PrefixEach(Spaces(indent), Split(msg, '\n')), '\n')
    else msg
  }

  /** `_indentSingleLine(msg)` for the indent `indent`. */
  function IndentSingleLine(indent: nat, msg: string): (r: string)
    ensures |r| == indent + |msg|
    ensures r[indent..] == msg
    ensures forall i :: 0 <= i < indent ==> r[i] == ' '
  {
    Spaces(indent) + msg
  }

  /** Removing `indent` leading characters from every line; the left inverse of `Format`. */
  function Unformat(indent: int, s: string): string
  {
    if s == "" || indent <= 0 then s
    else Join(DropEach(indent, Split(s, '\n')), '\n')
  }

  /** A formatted non-empty message has exactly the lines of the message, each
      preceded by `indent` spaces. */
  lemma FormatLines(indent: nat, msg: string)
    requires msg != ""
    ensures Split(Format(indent, msg), '\n') == PrefixEach(Spaces(indent), Split(msg, '\n'))
  {
    var lines := Split(msg, '\n');
    var shifted := PrefixEach(Spaces(indent), lines);
    if indent > 0 {
      forall i | 0 <= i < |shifted|
        ensures '\n' !in shifted[i]
      {
        assert shifted[i] == Spaces(indent) + lines[i];
      }
      SplitJoin(shifted, '\n');
    } else {
      assert Spaces(0) == "";
      forall i | 0 <= i < |lines|
        ensures shifted[i] == lines[i]
      {
        assert "" + lines[i] == lines[i];
      }
      assert shifted == lines;
    }
  }

  /** Format then Unformat gives the message back, whatever the indent. */
  lemma FormatRoundTrip(indent: int, msg: string)
    ensures Unformat(indent, Format(indent, msg)) == msg
  {
    if msg != "" && indent > 0 {
      var lines := Split(msg, '\n');
      var shifted := PrefixEach(Spaces(indent), lines);
      var f := Format(indent, msg);
      JoinStartsWithHead(shifted, '\n');
      assert |f| >= indent;
      FormatLines(indent, msg);
      assert DropEach(indent, shifted) == lines;
      JoinSplit(msg, '\n');
    }
  }

  /** On a single non-empty line, `_format` and `_indentSingleLine` agree. */
  lemma FormatSingleLine(indent: nat, msg: string)
    requires msg != "" && '\n' !in msg
    ensures Format(indent, msg) == IndentSingleLine(indent, msg)
  {
    SplitJoin([msg], '\n');
    assert Split(msg, '\n') == [msg];
    if indent == 0 {
      assert Spaces(0) + msg == msg;
    }
  }
}
