/**
 The private fields of `ModulesLogger`, the sink calls it makes, and the two
 collapsing side effects every `_log`/`_print` call performs unless told not to.
 */
module LoggerState {
  import opened Options

  /** A buffered line: a plain, already formatted string, or a (title, value)
      pair whose title column is padded when the buffer is read. */
  datatype Entry = Plain(text: string) | Titled(title: string, value: string)

  /** The colour a line is written in. Only green is used by the operations
      modelled here; the escape codes themselves are not modelled. */
  datatype Colour = NoColour | Green

  /** One call of an injected sink: `_printLine` appends a terminal line,
      `_replaceLastLine` overwrites the last one. */
  datatype Event = Print(line: string, colour: Colour) | Replace(line: string, colour: Colour)

  /** The logger's fields: `_enabled`, `_logs`, `_titleLength`, `_currentIndent`,
      `_emptyMinedBlocksRangeStart`, `_methodBeingCollapsed` and `_methodCollapsedCount`. */
  datatype State = State(
    enabled: bool,
    logs: seq<Entry>,
    titleLength: nat,
    indent: int,
    emptyMinedBlocksRangeStart: Option<nat>,
    methodBeingCollapsed: Option<string>,
    methodCollapsedCount: nat)

  /** The state after an operation together with the sink calls it made, in order. */
  datatype Step = Step(st: State, out: seq<Event>)

  /** The `stopCollapsingMethod` and `stopCollapsingMinedBlock` options: each is
      in force unless the caller passes an explicit `false`. */
  datatype Stops = Stops(methodRun: bool, minedBlockRun: bool)

  const DefaultStops := Stops(true, true)

  /** Every buffered title fits in the title column. */
  predicate TitlesFit(logs: seq<Entry>, width: nat)
  {
    forall i :: 0 <= i < |logs| && logs[i].Titled? ==> |logs[i].title| <= width
  }

  /** What holds of every state the logger can reach: the indent is a
      non-negative multiple of 2, a method is being collapsed exactly when the
      counter is positive, at most one of the two collapsing runs is open, and
      the title column is at least as wide as every buffered title. */
  predicate Valid(s: State)
  {
    && s.indent >= 0
    && s.indent % 2 == 0
    && (s.methodBeingCollapsed.None? <==> s.methodCollapsedCount == 0)
    && (s.methodBeingCollapsed.None? || s.emptyMinedBlocksRangeStart.None?)
    && TitlesFit(s.logs, s.titleLength)
  }

  /** The freshly constructed logger. */
  function Init(enabled: bool): (s: State)
    ensures Valid(s)
    ensures s.enabled == enabled && s.logs == [] && s.titleLength == 0 && s.indent == 0
    ensures s.emptyMinedBlocksRangeStart.None? && s.methodBeingCollapsed.None?
  {
    State(enabled, [], 0, 0, None, None, 0)
  }

  /** `setEnabled`. */
  function SetEnabled(s: State, enabled: bool): State
  {
    s.(enabled := enabled)
  }

  /** `_stopCollapsingMethod`: no method is being collapsed afterwards, and a
      reachable state stays reachable. */
  function StopCollapsingMethod(s: State): (r: State)
    ensures r.methodBeingCollapsed.None? && r.methodCollapsedCount == 0
    ensures Valid(s) ==> Valid(r)
  {
    s.(methodBeingCollapsed := None, methodCollapsedCount := 0)
  }

  /** `_startCollapsingMethod(method)`: a run of `name` with count 1. The
      result is reachable once no mined-block range is open, which the `_print`
      that follows it in `printMethod` ensures. */
  function StartCollapsingMethod(s: State, name: string): (r: State)
    ensures r.methodBeingCollapsed == Some(name) && r.methodCollapsedCount == 1
    ensures Valid(s) ==> Valid(r.(emptyMinedBlocksRangeStart := None))
    ensures Valid(s) && s.emptyMinedBlocksRangeStart.None? ==> Valid(r)
  {
    s.(methodBeingCollapsed := Some(name), methodCollapsedCount := 1)
  }

  /** The side effects `_log` and `_print` perform before writing: each
      collapsing run is closed unless its option says otherwise, and nothing
      else changes. */
  function ApplyStops(s: State, stops: Stops): (r: State)
    ensures stops.methodRun ==> r.methodBeingCollapsed.None? && r.methodCollapsedCount == 0
    ensures !stops.methodRun ==>
      r.methodBeingCollapsed == s.methodBeingCollapsed && r.methodCollapsedCount == s.methodCollapsedCount
    ensures stops.minedBlockRun ==> r.emptyMinedBlocksRangeStart.None?
    ensures !stops.minedBlockRun ==> r.emptyMinedBlocksRangeStart == s.emptyMinedBlocksRangeStart
    ensures r.(methodBeingCollapsed := s.methodBeingCollapsed,
               methodCollapsedCount := s.methodCollapsedCount,
               emptyMinedBlocksRangeStart := s.emptyMinedBlocksRangeStart) == s
    ensures Valid(s) ==> Valid(r)
  {
    var t := if stops.methodRun then StopCollapsingMethod(s) else s;
    if stops.minedBlockRun then t.(emptyMinedBlocksRangeStart := None) else t
  }
}
