/**
 * The `setAtmosphere` tool: validating a theme name (`applyAtmosphere`) and
 * answering every function call of one tool-call message.
 */
module Tools {
  import opened Wrappers
  import opened Types

  /** The themes a tool call may select, as the source lists them. */
  const ValidThemes: seq<string> := ["sunny", "night", "party", "underwater"]

  /** The one function the agent may call. */
  const ToolName: string := "setAtmosphere"

  const ThemeNotFound: string := "Theme not found."

  /** The name the source uses for each theme. */
  function Name(a: Atmosphere): string {
    match a
    case Default => "default"
    case Sunny => "sunny"
    case Night => "night"
    case Party => "party"
    case Underwater => "underwater"
  }

  /** The theme a tool argument selects, if it is one of the valid themes. */
  function ThemeOf(name: string): (r: Option<Atmosphere>)
    ensures r.Some? <==> name in ValidThemes
    ensures r.Some? ==> r.value != Default && Name(r.value) == name
  {
    if name == "sunny" then Some(Sunny)
    else if name == "night" then Some(Night)
    else if name == "party" then Some(Party)
    else if name == "underwater" then Some(Underwater)
    else None
  }

  /** The new theme and the text handed back to the agent. */
  datatype Outcome = Outcome(atmosphere: Atmosphere, result: string)

  /**
   * `applyAtmosphere`. The argument is `None` when the call carried no
   * `theme` or a value that is not a string.
   */
  function ApplyAtmosphere(current: Atmosphere, theme: Option<string>): (r: Outcome)
    ensures theme.Some? && theme.value in ValidThemes ==>
      r.atmosphere != Default && Name(r.atmosphere) == theme.value &&
      r.result == "The atmosphere has been changed to " + theme.value + "!"
    ensures !(theme.Some? && theme.value in ValidThemes) ==>
      r.atmosphere == current && r.result == ThemeNotFound
  {
    match theme
    case None => Outcome(current, ThemeNotFound)
    case Some(name) =>
      match ThemeOf(name)
      case Some(a) => Outcome(a, "The atmosphere has been changed to " + name + "!")
      case None => Outcome(current, ThemeNotFound)
  }

  /** One entry of `message.toolCall.functionCalls`. */
  datatype FunctionCall = FunctionCall(id: string, name: string, theme: Option<string>)

  /** One `sendToolResponse` payload. */
  datatype ToolResponse = ToolResponse(id: string, name: string, result: string)

  datatype Handled = Handled(atmosphere: Atmosphere, responses: seq<ToolResponse>)

  /**
   * The tool-call loop of `onmessage`: each call in turn, in order; a call
   * named `setAtmosphere` is applied and answered, any other is skipped.
   */
  function HandleToolCalls(current: Atmosphere, calls: seq<FunctionCall>): (r: Handled)
    ensures |r.responses| <= |calls|
    ensures forall k :: 0 <= k < |r.responses| ==> r.responses[k].name == ToolName
  {
    if calls == [] then Handled(current, [])
    else
      var before := HandleToolCalls(current, calls[..|calls| - 1]);
      var fc := calls[|calls| - 1];
      if fc.name == ToolName then
        var o := ApplyAtmosphere(before.atmosphere, fc.theme);
        Handled(o.atmosphere, before.responses + [ToolResponse(fc.id, fc.name, o.result)])
      else before
  }

  /** The calls the handler answers, in message order. */
  function SetAtmosphereCalls(calls: seq<FunctionCall>): (r: seq<FunctionCall>)
    ensures |r| <= |calls|
    ensures forall c :: c in r ==> c in calls && c.name == ToolName
    ensures forall k :: 0 <= k < |calls| && calls[k].name == ToolName ==> calls[k] in r
  {
    if calls == [] then []
    else
      var last := calls[|calls| - 1];
      SetAtmosphereCalls(calls[..|calls| - 1]) + (if last.name == ToolName then [last] else [])
  }

  /**
   * The filter keeps message order: the answered calls of a message split
   * in two are those of the first part followed by those of the second.
   */
  lemma {:induction false} SetAtmosphereCallsAppend(a: seq<FunctionCall>, b: seq<FunctionCall>)
    ensures SetAtmosphereCalls(a + b) == SetAtmosphereCalls(a) + SetAtmosphereCalls(b)
  {
    if b != [] {
      var b' := b[..|b| - 1];
      assert (a + b)[..|a + b| - 1] == a + b';
      SetAtmosphereCallsAppend(a, b');
    } else {
      assert a + b == a;
    }
  }

  /** One call is kept exactly when it is named `setAtmosphere`. */
  lemma SetAtmosphereCallsSingle(c: FunctionCall)
    ensures SetAtmosphereCalls([c]) == if c.name == ToolName then [c] else []
  {
    assert [c][..0] == [];
  }

  /** A call that changes the theme: the right name and a valid theme. */
  predicate Selects(fc: FunctionCall) {
    fc.name == ToolName && fc.theme.Some? && fc.theme.value in ValidThemes
  }

  /** The text of a call's answer does not depend on the theme in force. */
  lemma ResultIgnoresCurrent(a: Atmosphere, b: Atmosphere, theme: Option<string>)
    ensures ApplyAtmosphere(a, theme).result == ApplyAtmosphere(b, theme).result
  {
  }

  /**
   * Every `setAtmosphere` call gets exactly one response, in order, with
   * the call's own `id` and `name` and that call's result text.
   */
  lemma {:induction false} EachCallAnsweredOnce(current: Atmosphere, calls: seq<FunctionCall>)
    ensures var f := SetAtmosphereCalls(calls);
            var rs := HandleToolCalls(current, calls).responses;
            |rs| == |f| &&
            forall k :: 0 <= k < |f| ==>
              rs[k] == ToolResponse(f[k].id, f[k].name, ApplyAtmosphere(current, f[k].theme).result)
  {
    if calls != [] {
      var init := calls[..|calls| - 1];
      EachCallAnsweredOnce(current, init);
      var fc := calls[|calls| - 1];
      if fc.name == ToolName {
        ResultIgnoresCurrent(HandleToolCalls(current, init).atmosphere, current, fc.theme);
      }
    }
  }

  /** A message whose calls all have other names changes nothing and sends nothing. */
  lemma {:induction false} OtherCallsIgnored(current: Atmosphere, calls: seq<FunctionCall>)
    requires forall k :: 0 <= k < |calls| ==> calls[k].name != ToolName
    ensures HandleToolCalls(current, calls) == Handled(current, [])
  {
    if calls != [] {
      OtherCallsIgnored(current, calls[..|calls| - 1]);
    }
  }

  /** When no call selects a valid theme, the theme is unchanged. */
  lemma {:induction false} NoValidCallKeepsTheme(current: Atmosphere, calls: seq<FunctionCall>)
    requires forall k :: 0 <= k < |calls| ==> !Selects(calls[k])
    ensures HandleToolCalls(current, calls).atmosphere == current
  {
    if calls != [] {
      var init := calls[..|calls| - 1];
      assert forall k :: 0 <= k < |init| ==> init[k] == calls[k];
      NoValidCallKeepsTheme(current, init);
    }
  }

  /**
   * The theme after the loop is the one chosen by the last call that
   * selects a valid theme: later calls with a bad theme or another name
   * do not undo it.
   */
  lemma {:induction false} LastValidCallWins(current: Atmosphere, calls: seq<FunctionCall>, k: nat)
    requires k < |calls| && Selects(calls[k])
    requires forall j :: k < j < |calls| ==> !Selects(calls[j])
    ensures Name(HandleToolCalls(current, calls).atmosphere) == calls[k].theme.value
  {
    var init := calls[..|calls| - 1];
    if k < |calls| - 1 {
      assert init[k] == calls[k];
      assert forall j :: k < j < |init| ==> init[j] == calls[j];
      LastValidCallWins(current, init, k);
    }
  }
}
