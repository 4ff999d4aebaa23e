/**
 `_indent(cb, enabled)`: run a callback with the indent raised by 2 (when
 enabled) and lower it again in a `finally`, so the indent is restored whether
 the callback returns or throws.
 */
module Scope {
  import opened LoggerState

  /** How the callback left: by returning or by throwing. */
  datatype Exit = Returned | Threw

  /** What the callback did: the state it left, the sink calls it made, how it exited. */
  datatype Run = Run(step: Step, exit: Exit)

  /** The amount `_indent` adds. */
  function Delta(enabled: bool): int
  {
    if enabled then 2 else 0
  }

  /** The state the callback starts from: exactly 2 deeper when enabled,
      unchanged otherwise, and nothing else differs. */
  function Entered(s: State, enabled: bool): (r: State)
    ensures r.indent == (if enabled then s.indent + 2 else s.indent)
    ensures r == s.(indent := r.indent)
    ensures Valid(s) ==> Valid(r)
  {
    s.(indent := s.indent + Delta(enabled))
  }

  /** A callback that leaves the indent where it found it (on both exits). */
  ghost predicate Balanced(body: State --> Run)
  {
    forall x :: body.requires(x) ==> body(x).step.st.indent == x.indent
  }

  /** The `finally` of `_indent`: whatever the callback did and however it
      exited, the indent is lowered by the amount it was raised. If the
      callback left the indent where it found it, the indent is back at its
      value before the call, and nothing the callback did is undone. */
  function Leave(s: State, enabled: bool, inner: Run): (r: Run)
    ensures r.exit == inner.exit && r.step.out == inner.step.out
    ensures inner.step.st.indent == Entered(s, enabled).indent ==>
      r.step.st == inner.step.st.(indent := s.indent)
    ensures Valid(s) && Valid(inner.step.st) && inner.step.st.indent == Entered(s, enabled).indent ==>
      Valid(r.step.st)
  {
    var st := inner.step.st;
    Run(Step(st.(indent := st.indent - Delta(enabled)), inner.step.out), inner.exit)
  }

  /** `_indent(body, enabled)`. The exit and the sink calls are the callback's.
      If the callback leaves the indent where it found it, the final state is
      the callback's with the indent back at its value before the call, on a
      return and on a throw alike; a reachable state stays reachable. */
  function Indent(s: State, enabled: bool, body: State --> Run): (r: Run)
    requires body.requires(Entered(s, enabled))
    ensures r.exit == body(Entered(s, enabled)).exit
    ensures r.step.out == body(Entered(s, enabled)).step.out
    ensures body(Entered(s, enabled)).step.st.indent == Entered(s, enabled).indent ==>
      r.step.st == body(Entered(s, enabled)).step.st.(indent := s.indent)
    ensures Valid(s) && Valid(body(Entered(s, enabled)).step.st)
            && body(Entered(s, enabled)).step.st.indent == Entered(s, enabled).indent ==>
      Valid(r.step.st)
  {
    Leave(s, enabled, body(Entered(s, enabled)))
  }

  /** Nesting preserves balance: `_indent` around a balanced callback is
      itself balanced, so a callback made of nested scoped indents, whichever
      way each level exits, ends at the indent it started from. */
  lemma NestedIndentBalanced(enabled: bool, body: State --> Run)
    requires Balanced(body)
    ensures forall x :: body.requires(Entered(x, enabled)) ==>
      Indent(x, enabled, body).step.st.indent == x.indent
  {
    forall x | body.requires(Entered(x, enabled))
      ensures Indent(x, enabled, body).step.st.indent == x.indent
    {
      assert body(Entered(x, enabled)).step.st.indent == Entered(x, enabled).indent;
    }
  }
}
