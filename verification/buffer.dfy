/**
 The buffered ("log") side of the logger: appending plain and titled entries,
 the title column that only ever widens, and reading the buffer back as
 aligned lines.
 */
module Buffer {
  import opened Options
  import opened Text
  import opened Formatting
  import opened LoggerState

  /** `_log(msg, options)`: close the collapsing runs the options allow, then
      append `msg` formatted for the current indent. */
  function LogLine(s: State, msg: string, stops: Stops): (r: State)
    ensures r.logs == s.logs + [Plain(Format(s.indent, msg))]
    ensures r == ApplyStops(s, stops).(logs := r.logs)
    ensures Valid(s) ==> Valid(r)
  {
    var t := ApplyStops(s, stops);
    t.(logs := t.logs + [Plain(Format(t.indent, msg))])
  }

  /** `log(msg)`. */
  function Log(s: State, msg: string): (r: State)
    ensures r == Appended(s, [Plain(Format(s.indent, msg))])
    ensures Valid(s) ==> Valid(r)
  {
    AppendedSingle(s, Plain(Format(s.indent, msg)));
    LogLine(s, msg, DefaultStops)
  }

  /** `logEmptyLine()`: a blank entry, never indented. */
  function LogEmptyLine(s: State): (r: State)
    ensures r.logs == s.logs + [Plain("")]
    ensures r == Appended(s, [Plain("")])
    ensures Valid(s) ==> Valid(r)
  {
    Log(s, "")
  }

  /** `logWithTitle(title, msg)`: the title is indented, the column widens to
      fit it, and the (indented title, raw message) pair is appended; neither
      collapsing run is touched. */
  function LogWithTitle(s: State, title: string, msg: string): (r: State)
    requires s.indent >= 0
    ensures r.titleLength == Max(s.titleLength, s.indent + |title|)
    ensures r.logs == s.logs + [Titled(IndentSingleLine(s.indent, title), msg)]
    ensures r == s.(logs := r.logs, titleLength := r.titleLength)
    ensures r == Appended(s, [Titled(IndentSingleLine(s.indent, title), msg)])
    ensures Valid(s) ==> Valid(r)
  {
    var t := IndentSingleLine(s.indent, title);
    var width := Max(s.titleLength, |t|);
    AppendedSingle(s, Titled(t, msg));
    s.(logs := s.logs + [Titled(t, msg)], titleLength := width)
  }

  /** `clearLogs()`: the buffer is emptied; the title column keeps its width. */
  function ClearLogs(s: State): (r: State)
    ensures r.logs == [] && GetLogs(r) == [] && !HasLogs(r)
    ensures r == s.(logs := [])
    ensures Valid(s) ==> Valid(r)
  {
    s.(logs := [])
  }

  /** `hasLogs()`. */
  function HasLogs(s: State): (b: bool)
    ensures b <==> GetLogs(s) != []
  {
    |s.logs| > 0
  }

  /** A titled entry as `getLogs` renders it: `padEnd(title + ":", width + 1) + " " + value`.
      The title and colon come first, then spaces, and the value starts at
      column `max(|title|, width) + 2`. */
  function RenderTitled(title: string, value: string, width: nat): (r: string)
    ensures |r| == Max(|title|, width) + 2 + |value|
    ensures r[..|title|] == title && r[|title|] == ':'
    ensures forall i :: |title| < i < Max(|title|, width) + 2 ==> r[i] == ' '
    ensures r[Max(|title|, width) + 2..] == value
  {
    var head := PadEnd(title + ":", width + 1);
    assert head[..|title| + 1] == title + ":";
    assert head[..|title|] == title by {
      assert head[..|title|] == head[..|title| + 1][..|title|];
    }
    head + " " + value
  }

  function RenderEntry(e: Entry, width: nat): string
  {
    match e
    case Plain(text) => text
    case Titled(title, value) => RenderTitled(title, value, width)
  }

  /** `getLogs()`: one line per entry, in order. Plain entries come back
      unchanged; in a reachable state every titled line has its title at the
      start and its value at column `titleLength + 2`, so values line up. */
  function GetLogs(s: State): (r: seq<string>)
    ensures |r| == |s.logs|
    ensures forall i :: 0 <= i < |r| && s.logs[i].Plain? ==> r[i] == s.logs[i].text
    ensures forall i :: 0 <= i < |r| && s.logs[i].Titled? ==>
      r[i] == RenderTitled(s.logs[i].title, s.logs[i].value, s.titleLength)
    ensures Valid(s) ==> forall i :: 0 <= i < |r| && s.logs[i].Titled? ==>
      && |r[i]| == s.titleLength + 2 + |s.logs[i].value|
      && r[i][..|s.logs[i].title|] == s.logs[i].title
      && r[i][s.titleLength + 2..] == s.logs[i].value
  {
    var r := seq(|s.logs|, i requires 0 <= i < |s.logs| => RenderEntry(s.logs[i], s.titleLength));
    assert Valid(s) ==> forall i :: 0 <= i < |r| && s.logs[i].Titled? ==>
      s.logs[i] in s.logs && Max(|s.logs[i].title|, s.titleLength) == s.titleLength;
    r
  }

  /* ---------------------------------------------------------------------- */
  /* Appending a list of entries: the reference for composite operations      */
  /* ---------------------------------------------------------------------- */

  /** The title column after appending `es` to a buffer whose column is `width`. */
  function MaxTitle(width: nat, es: seq<Entry>): (w: nat)
    ensures w >= width
    decreases |es|
  {
    if es == [] then width
    else
      var w0 := if es[0].Titled? && |es[0].title| > width then |es[0].title| else width;
      MaxTitle(w0, es[1..])
  }

  /** Every appended title fits the widened column. */
  lemma {:induction false} MaxTitleFits(width: nat, es: seq<Entry>)
    ensures forall i :: 0 <= i < |es| && es[i].Titled? ==> |es[i].title| <= MaxTitle(width, es)
    decreases |es|
  {
    if es != [] {
      var w0 := if es[0].Titled? && |es[0].title| > width then |es[0].title| else width;
      MaxTitleFits(w0, es[1..]);
      forall i | 0 <= i < |es| && es[i].Titled?
        ensures |es[i].title| <= MaxTitle(width, es)
      {
        if i > 0 {
          assert es[i] == es[1..][i - 1];
        }
      }
    }
  }

  /** Some entry of `es` is a plain line. */
  predicate HasPlain(es: seq<Entry>)
    decreases |es|
  {
    es != [] && (es[0].Plain? || HasPlain(es[1..]))
  }

  lemma {:induction false} HasPlainConcat(a: seq<Entry>, b: seq<Entry>)
    ensures HasPlain(a + b) <==> HasPlain(a) || HasPlain(b)
    decreases |a|
  {
    if a == [] {
      assert a + b == b;
    } else {
      assert (a + b)[0] == a[0];
      assert (a + b)[1..] == a[1..] + b;
      HasPlainConcat(a[1..], b);
    }
  }

  /** What logging the already formatted entries `es` one after another does:
      the buffer grows by exactly `es`, the title column widens to the widest
      new title, and both collapsing runs close as soon as one plain line is
      logged (`logWithTitle` leaves them alone). */
  function Appended(s: State, es: seq<Entry>): (r: State)
    ensures r.logs == s.logs + es
    ensures r.enabled == s.enabled && r.indent == s.indent
  {
    var t := s.(logs := s.logs + es, titleLength := MaxTitle(s.titleLength, es));
    if HasPlain(es) then ApplyStops(t, DefaultStops) else t
  }

  /** Appending keeps a reachable state reachable: in particular every title,
      old and new, still fits the column. */
  lemma AppendedValid(s: State, es: seq<Entry>)
    requires Valid(s)
    ensures Valid(Appended(s, es))
  {
    var w := MaxTitle(s.titleLength, es);
    MaxTitleFits(s.titleLength, es);
    var logs := s.logs + es;
    forall i | 0 <= i < |logs| && logs[i].Titled?
      ensures |logs[i].title| <= w
    {
      if i >= |s.logs| {
        assert logs[i] == es[i - |s.logs|];
      }
    }
    var t := s.(logs := logs, titleLength := w);
    assert Valid(t);
  }

  lemma {:induction false} MaxTitleConcat(width: nat, a: seq<Entry>, b: seq<Entry>)
    ensures MaxTitle(width, a + b) == MaxTitle(MaxTitle(width, a), b)
    decreases |a|
  {
    if a == [] {
      assert a + b == b;
    } else {
      var w0 := if a[0].Titled? && |a[0].title| > width then |a[0].title| else width;
      assert (a + b)[0] == a[0];
      assert (a + b)[1..] == a[1..] + b;
      MaxTitleConcat(w0, a[1..], b);
    }
  }

  /** Appending one entry is what `_log` (default options) or `logWithTitle` does. */
  lemma AppendedSingle(s: State, e: Entry)
    ensures e.Plain? ==> Appended(s, [e]) == ApplyStops(s, DefaultStops).(logs := s.logs + [e])
    ensures e.Titled? ==>
      Appended(s, [e]) == s.(logs := s.logs + [e], titleLength := Max(s.titleLength, |e.title|))
  {
    assert [e][1..] == [];
    assert HasPlain([e]) == e.Plain?;
    var w := MaxTitle(s.titleLength, [e]);
    assert w == MaxTitle(if e.Titled? && |e.title| > s.titleLength then |e.title| else s.titleLength, []);
    assert w == Max(s.titleLength, if e.Titled? then |e.title| else 0);
  }

  lemma AppendedNothing(s: State)
    ensures Appended(s, []) == s
  {
    assert s.logs + [] == s.logs;
  }

  /** Appending `a` and then `b` is appending `a + b`. */
  lemma AppendedConcat(s: State, a: seq<Entry>, b: seq<Entry>)
    ensures Appended(Appended(s, a), b) == Appended(s, a + b)
  {
    MaxTitleConcat(s.titleLength, a, b);
    assert s.logs + a + b == s.logs + (a + b);
    HasPlainConcat(a, b);
  }

  /** Three appends in a row are one append of the three lists. */
  lemma AppendedChain(s: State, s1: State, s2: State, s3: State, a: seq<Entry>, b: seq<Entry>, c: seq<Entry>)
    requires s1 == Appended(s, a) && s2 == Appended(s1, b) && s3 == Appended(s2, c)
    ensures s3 == Appended(s, a + b + c)
  {
    AppendedConcat(s, a, b);
    AppendedConcat(s, a + b, c);
  }

  /** Appending does not depend on the indent, and keeps it. */
  lemma AppendedIndent(s: State, indent: int, es: seq<Entry>)
    ensures Appended(s.(indent := indent), es) == Appended(s, es).(indent := indent)
  {
  }
}
