/**
 The direct ("print") side of the logger: lines written to the sink at once,
 flushing the buffer, and the two collapsing rules that rewrite the last
 terminal line instead of appending one: repeated RPC method names and runs
 of mined blocks.
 */
module Printing {
  import opened Options
  import opened Text
  import opened Formatting
  import opened LoggerState
  import opened Buffer

  /** `_print(msg, options)`: close the collapsing runs the options allow, then
      write `msg` formatted for the current indent. Nothing is buffered. */
  function PrintLine(s: State, msg: string, colour: Colour, stops: Stops): (r: Step)
    ensures r.out == [Print(Format(s.indent, msg), colour)]
    ensures r.st == ApplyStops(s, stops)
    ensures Valid(s) ==> Valid(r.st)
  {
    var t := ApplyStops(s, stops);
    Step(t, [Print(Format(t.indent, msg), colour)])
  }

  /** `printEmptyLine()`: a blank line, never indented, that closes both runs. */
  function PrintEmptyLine(s: State): (r: Step)
    ensures r.out == [Print("", NoColour)]
    ensures r.st.methodBeingCollapsed.None? && r.st.emptyMinedBlocksRangeStart.None?
    ensures r.st.logs == s.logs
    ensures r.st == ApplyStops(s, DefaultStops)
    ensures Valid(s) ==> Valid(r.st)
  {
    PrintLine(s, "", NoColour, DefaultStops)
  }

  /** `printLogs()`: write every rendered buffered line through `_print`, in
      order, then clear the buffer; report whether there was anything. */
  method PrintLogs(s: State) returns (r: State, out: seq<Event>, printed: bool)
    ensures printed <==> HasLogs(s)
    ensures !printed ==> r == s && out == []
    ensures printed ==> |out| == |s.logs|
    ensures printed ==> forall k :: 0 <= k < |out| ==> out[k] == Print(Format(s.indent, GetLogs(s)[k]), NoColour)
    ensures printed ==> r == ClearLogs(ApplyStops(s, DefaultStops))
    ensures Valid(s) ==> Valid(r)
  {
    var lines := GetLogs(s);
    if |lines| == 0 {
      return s, [], false;
    }
    var cur := s;
    out := [];
    var i := 0;
    while i < |lines|
      invariant 0 <= i <= |lines|
      invariant |out| == i
      invariant forall k :: 0 <= k < i ==> out[k] == Print(Format(s.indent, lines[k]), NoColour)
      invariant i == 0 ==> cur == s
      invariant i > 0 ==> cur == ApplyStops(s, DefaultStops)
    {
      var step := PrintLine(cur, lines[i], NoColour, DefaultStops);
      out := out + step.out;
      cur := step.st;
      i := i + 1;
    }
    r := ClearLogs(cur);
    printed := true;
  }

  /* ---------------------------------------------------------------------- */
  /* collapsing repeated method names                                        */
  /* ---------------------------------------------------------------------- */

  /** `_shouldCollapseMethod(method)`. In a reachable state the counter test
      is implied by the name test, so a call collapses exactly when it repeats
      the method being collapsed and nothing is buffered. */
  predicate ShouldCollapseMethod(s: State, name: string): (b: bool)
    ensures Valid(s) ==> (b <==> s.methodBeingCollapsed == Some(name) && s.logs == [])
  {
    s.methodBeingCollapsed == Some(name) && !HasLogs(s) && s.methodCollapsedCount > 0
  }

  /** The rewritten line for a collapsed method: `"<method> (<count>)"`. */
  function CountedMethod(name: string, count: nat): string
  {
    name + " (" + NatToString(count) + ")"
  }

  /** `printMethod(method)`. When the same method is still being collapsed and
      nothing is buffered, the counter goes up and the last line is replaced
      (unindented); otherwise a new run starts with a fresh indented line,
      which also closes any open mined-block range. */
  function PrintMethod(s: State, name: string): (r: Step)
    ensures ShouldCollapseMethod(s, name) ==>
      && r.out == [Replace(CountedMethod(name, s.methodCollapsedCount + 1), Green)]
      && r.st == s.(methodCollapsedCount := s.methodCollapsedCount + 1)
    ensures !ShouldCollapseMethod(s, name) ==>
      && r.out == [Print(Format(s.indent, name), Green)]
      && r.st.methodBeingCollapsed == Some(name) && r.st.methodCollapsedCount == 1
      && r.st.emptyMinedBlocksRangeStart.None?
      && r.st.logs == s.logs && r.st.indent == s.indent && r.st.titleLength == s.titleLength
      && r.st.enabled == s.enabled
    ensures Valid(s) ==> Valid(r.st)
  {
    if ShouldCollapseMethod(s, name) then
      var count := s.methodCollapsedCount + 1;
      Step(s.(methodCollapsedCount := count), [Replace(CountedMethod(name, count), Green)])
    else
      PrintLine(StartCollapsingMethod(s, name), name, Green, Stops(false, true))
  }

  /** `printMethod` called once per name, in order, with nothing in between. */
  function PrintMethods(s: State, names: seq<string>): Step
    decreases |names|
  {
    if names == [] then Step(s, [])
    else
      var a := PrintMethod(s, names[0]);
      var b := PrintMethods(a.st, names[1..]);
      Step(b.st, a.out + b.out)
  }

  /** With an empty buffer, every call of a run writes exactly one event, and
      a call after the first rewrites the last line exactly when it repeats
      the previous name. The buffer and the indent are left as they were. */
  lemma {:induction false} PrintMethodsCollapseIffRepeated(s: State, names: seq<string>)
    requires s.logs == []
    ensures var r := PrintMethods(s, names);
      && |r.out| == |names|
      && r.st.logs == [] && r.st.indent == s.indent
      && (|names| > 0 ==> (r.out[0].Replace? <==> ShouldCollapseMethod(s, names[0])))
      && (forall k :: 1 <= k < |names| ==> (r.out[k].Replace? <==> names[k] == names[k - 1]))
    decreases |names|
  {
    if names != [] {
      var a := PrintMethod(s, names[0]);
      var rest := names[1..];
      PrintMethodsCollapseIffRepeated(a.st, rest);
      var b := PrintMethods(a.st, rest);
      assert a.st.methodBeingCollapsed == Some(names[0]) && a.st.methodCollapsedCount > 0;
      var r := PrintMethods(s, names);
      assert r.out == a.out + b.out;
      forall k | 1 <= k < |names|
        ensures r.out[k].Replace? <==> names[k] == names[k - 1]
      {
        assert r.out[k] == b.out[k - 1];
        assert rest[k - 1] == names[k];
        if k >= 2 {
          assert rest[k - 2] == names[k - 1];
        } else {
          assert ShouldCollapseMethod(a.st, rest[0]) <==> rest[0] == names[0];
        }
      }
    }
  }

  /** While a method is being collapsed with nothing buffered, every further
      call with that method rewrites the line with the next count. */
  lemma {:induction false} CollapsingContinues(s: State, name: string, n: nat)
    requires s.methodBeingCollapsed == Some(name) && s.logs == [] && s.methodCollapsedCount > 0
    ensures var r := PrintMethods(s, seq(n, _ => name));
      && |r.out| == n
      && (forall k :: 0 <= k < n ==>
            r.out[k] == Replace(CountedMethod(name, s.methodCollapsedCount + k + 1), Green))
      && r.st == s.(methodCollapsedCount := s.methodCollapsedCount + n)
    decreases n
  {
    if n > 0 {
      var names := seq(n, _ => name);
      var a := PrintMethod(s, name);
      assert names[0] == name;
      assert names[1..] == seq(n - 1, _ => name);
      CollapsingContinues(a.st, name, n - 1);
    }
  }

  /** The rewritten line determines the count: distinct counts give distinct lines. */
  lemma CountedMethodInjective(name: string, a: nat, b: nat)
    ensures CountedMethod(name, a) == CountedMethod(name, b) ==> a == b
  {
    if CountedMethod(name, a) == CountedMethod(name, b) {
      var p := name + " (";
      var x, y := NatToString(a), NatToString(b);
      assert CountedMethod(name, a) == p + x + ")" && CountedMethod(name, b) == p + y + ")";
      assert |x| == |y|;
      assert x == (p + x + ")")[|p|..|p| + |x|];
      assert y == (p + y + ")")[|p|..|p| + |y|];
      NatToStringInjective(a, b);
    }
  }

  /** Each rewrite of a collapsed line differs from every earlier one, so
      the terminal always shows the new count. */
  lemma CollapsedLinesDistinct(s: State, name: string, n: nat)
    requires s.methodBeingCollapsed == Some(name) && s.logs == [] && s.methodCollapsedCount > 0
    ensures var r := PrintMethods(s, seq(n, _ => name));
      forall j, k :: 0 <= j < k < |r.out| ==> r.out[j] != r.out[k]
  {
    CollapsingContinues(s, name, n);
    var r := PrintMethods(s, seq(n, _ => name));
    var c := s.methodCollapsedCount;
    forall j, k | 0 <= j < k < |r.out|
      ensures r.out[j] != r.out[k]
    {
      CountedMethodInjective(name, c + j + 1, c + k + 1);
    }
  }

  /** Printing the same method N times in a row, starting from a state that
      is not already collapsing it and with nothing buffered, writes one line
      and rewrites it N - 1 times, the last time as `"M (N)"`. */
  lemma RepeatedMethodCollapses(s: State, name: string, n: nat)
    requires n >= 1 && s.logs == [] && !ShouldCollapseMethod(s, name)
    ensures var r := PrintMethods(s, seq(n, _ => name));
      && |r.out| == n
      && r.out[0] == Print(Format(s.indent, name), Green)
      && (forall k :: 1 <= k < n ==> r.out[k] == Replace(CountedMethod(name, k + 1), Green))
      && r.st.methodCollapsedCount == n
      && r.out[n - 1] == (if n == 1 then Print(Format(s.indent, name), Green)
                          else Replace(CountedMethod(name, n), Green))
  {
    var names := seq(n, _ => name);
    var a := PrintMethod(s, name);
    assert names[0] == name;
    assert names[1..] == seq(n - 1, _ => name);
    CollapsingContinues(a.st, name, n - 1);
  }

  /* ---------------------------------------------------------------------- */
  /* collapsing runs of mined blocks                                         */
  /* ---------------------------------------------------------------------- */

  /** `"Mined [empty ]block #<n>"`. */
  function MinedBlockLine(blockNumber: nat, isEmpty: bool): string
  {
    "Mined " + (if isEmpty then "empty " else "") + "block #" + NatToString(blockNumber)
  }

  /** `"Mined empty block range #<start> to #<n>"`. */
  function MinedRangeLine(start: nat, blockNumber: nat): string
  {
    "Mined empty block range #" + NatToString(start) + " to #" + NatToString(blockNumber)
  }

  /** `printMinedBlockNumber(blockNumber, isEmpty)`. With a range open, only
      the last line is rewritten (unindented) as a range ending at this block,
      whether or not the block is empty, and nothing changes. Otherwise a range
      opens at this block and a fresh indented line is written, closing any
      method run but not the range it has just opened. */
  function PrintMinedBlockNumber(s: State, blockNumber: nat, isEmpty: bool): (r: Step)
    ensures s.emptyMinedBlocksRangeStart.Some? ==>
      && r.st == s
      && r.out == [Replace(MinedRangeLine(s.emptyMinedBlocksRangeStart.value, blockNumber), NoColour)]
    ensures s.emptyMinedBlocksRangeStart.None? ==>
      && r.st.emptyMinedBlocksRangeStart == Some(blockNumber)
      && r.st.methodBeingCollapsed.None? && r.st.methodCollapsedCount == 0
      && r.out == [Print(Format(s.indent, MinedBlockLine(blockNumber, isEmpty)), NoColour)]
      && r.st.logs == s.logs && r.st.indent == s.indent && r.st.titleLength == s.titleLength
      && r.st.enabled == s.enabled
    ensures Valid(s) ==> Valid(r.st)
  {
    match s.emptyMinedBlocksRangeStart
    case Some(start) =>
      Step(s, [Replace(MinedRangeLine(start, blockNumber), NoColour)])
    case None =>
      var t := s.(emptyMinedBlocksRangeStart := Some(blockNumber));
      PrintLine(t, MinedBlockLine(blockNumber, isEmpty), NoColour, Stops(true, false))
  }

  /** `logMinedBlockNumber(blockNumber, isEmpty)`: the buffered counterpart,
      which never collapses and closes both runs. */
  function LogMinedBlockNumber(s: State, blockNumber: nat, isEmpty: bool): (r: State)
    ensures r.logs == s.logs + [Plain(Format(s.indent, MinedBlockLine(blockNumber, isEmpty)))]
    ensures r == Appended(s, [Plain(Format(s.indent, MinedBlockLine(blockNumber, isEmpty)))])
    ensures r.emptyMinedBlocksRangeStart.None? && r.methodBeingCollapsed.None?
    ensures Valid(s) ==> Valid(r)
  {
    Log(s, MinedBlockLine(blockNumber, isEmpty))
  }

  datatype MinedBlock = MinedBlock(number: nat, isEmpty: bool)

  /** `printMinedBlockNumber` called once per block, in order, with nothing in between. */
  function PrintMinedBlocks(s: State, blocks: seq<MinedBlock>): Step
    decreases |blocks|
  {
    if blocks == [] then Step(s, [])
    else
      var a := PrintMinedBlockNumber(s, blocks[0].number, blocks[0].isEmpty);
      var b := PrintMinedBlocks(a.st, blocks[1..]);
      Step(b.st, a.out + b.out)
  }

  /** Once a range is open, every further block only rewrites the range line. */
  lemma {:induction false} RangeContinues(s: State, blocks: seq<MinedBlock>)
    requires s.emptyMinedBlocksRangeStart.Some?
    ensures var r := PrintMinedBlocks(s, blocks);
      && r.st == s
      && |r.out| == |blocks|
      && forall k :: 0 <= k < |blocks| ==>
           r.out[k] == Replace(MinedRangeLine(s.emptyMinedBlocksRangeStart.value, blocks[k].number), NoColour)
    decreases |blocks|
  {
    if blocks != [] {
      RangeContinues(s, blocks[1..]);
    }
  }

  /** A run of blocks printed with no range open writes one line for the first
      block and rewrites it once per further block as the range from the first
      block to the latest one, whatever the emptiness of the later blocks. */
  lemma MinedRunCollapses(s: State, blocks: seq<MinedBlock>)
    requires s.emptyMinedBlocksRangeStart.None? && |blocks| >= 1
    ensures var r := PrintMinedBlocks(s, blocks);
      && |r.out| == |blocks|
      && r.out[0] == Print(Format(s.indent, MinedBlockLine(blocks[0].number, blocks[0].isEmpty)), NoColour)
      && (forall k :: 1 <= k < |blocks| ==>
            r.out[k] == Replace(MinedRangeLine(blocks[0].number, blocks[k].number), NoColour))
      && r.st.emptyMinedBlocksRangeStart == Some(blocks[0].number)
  {
    var a := PrintMinedBlockNumber(s, blocks[0].number, blocks[0].isEmpty);
    RangeContinues(a.st, blocks[1..]);
  }

  /** Empty blocks #5, #6 and #7 mined in a row at indent 0: one line, two
      rewrites, ending in `"Mined empty block range #5 to #7"`. */
  lemma EmptyBlocksFiveToSeven(s: State)
    requires s.emptyMinedBlocksRangeStart.None? && s.indent == 0
    ensures PrintMinedBlocks(s, [MinedBlock(5, true), MinedBlock(6, true), MinedBlock(7, true)]).out ==
      [ Print("Mined empty block #5", NoColour),
        Replace("Mined empty block range #5 to #6", NoColour),
        Replace("Mined empty block range #5 to #7", NoColour) ]
  {
    var blocks := [MinedBlock(5, true), MinedBlock(6, true), MinedBlock(7, true)];
    MinedRunCollapses(s, blocks);
    assert NatToString(5) == "5" && NatToString(6) == "6" && NatToString(7) == "7";
    assert MinedBlockLine(5, true) == "Mined empty block #5";
    assert MinedRangeLine(5, 6) == "Mined empty block range #5 to #6";
    assert MinedRangeLine(5, 7) == "Mined empty block range #5 to #7";
  }
}
