/**
 The template-generation phase: the history as the plain chat model sees it
 once the interview is over. Only the messages after the first tool call
 are forwarded, with the collected instructions in a system message.
 */
module Generation {
  import opened Messages

  const Header: string := "Based on the following requirements, write a good prompt template:\n"

  // A rendering of the tool arguments in the shape of Python's str() of a dict.
  function Quoted(s: string): string {
    "'" + s + "'"
  }

  function Items(xs: seq<string>): string {
    if xs == [] then ""
    else if |xs| == 1 then Quoted(xs[0])
    else Quoted(xs[0]) + ", " + Items(xs[1..])
  }

  function ReqsText(args: Option<PromptInstructions>): string {
    match args
    case None => "None"
    case Some(p) =>
      "{'objective': " + Quoted(p.objective)
      + ", 'variables': [" + Items(p.variables)
      + "], 'constraints': [" + Items(p.constraints)
      + "], 'requirements': [" + Items(p.requirements) + "]}"
  }

  /** The system instruction of the generation phase, embedding the collected arguments. */
  function PromptText(args: Option<PromptInstructions>): (r: string)
    ensures |r| > |Header| && r[..|Header|] == Header
    ensures r[|Header|..] == ReqsText(args)
  {
    Header + ReqsText(args)
  }

  /** What the scan forwards: neither a tool result nor a tool-calling assistant message. */
  predicate Forwarded(m: Message) {
    !m.Tool? && !CallsTool(m)
  }

  /** The forwarded messages of `s`, in order. */
  function Filter(s: seq<Message>): (r: seq<Message>)
    ensures |r| <= |s|
    ensures forall m :: m in r ==> m in s && Forwarded(m)
  {
    if s == [] then []
    else (if Forwarded(s[0]) then [s[0]] else []) + Filter(s[1..])
  }

  /** The messages strictly after the first tool-calling message; empty when there is none. */
  function AfterFirstCall(h: seq<Message>): (r: seq<Message>)
    ensures |r| <= |h|
  {
    if h == [] then []
    else if CallsTool(h[0]) then h[1..]
    else AfterFirstCall(h[1..])
  }

  /** The arguments of the first call of the most recent tool-calling message. */
  function LatestArgs(h: seq<Message>): Option<PromptInstructions> {
    if h == [] then None
    else if CallsTool(Last(h)) then Some(Last(h).toolCalls[0].args)
    else LatestArgs(h[..|h| - 1])
  }

  /** The messages the scan keeps behind the system instruction. */
  function Kept(h: seq<Message>): seq<Message> {
    Filter(AfterFirstCall(h))
  }

  /** The list handed to the generation model. */
  function PromptInput(h: seq<Message>): (r: seq<Message>)
    ensures |r| >= 1
  {
    [System(PromptText(LatestArgs(h)))] + Kept(h)
  }

  /** Message `i` of `h` reaches the generation model. */
  predicate Selected(h: seq<Message>, i: int)
    requires 0 <= i < |h|
  {
    Forwarded(h[i]) && HasCall(h[..i])
  }

  /**
   The scan of the source: one pass that remembers the latest tool-call
   arguments and collects every other non-tool message once a tool call
   has been seen.
   */
  method PromptMessages(messages: seq<Message>) returns (r: seq<Message>)
    ensures r == PromptInput(messages)
  {
    var toolArgs: Option<PromptInstructions> := None;
    var others: seq<Message> := [];
    for i := 0 to |messages|
      invariant toolArgs == LatestArgs(messages[..i])
      invariant others == Kept(messages[..i])
    {
      var m := messages[i];
      ScanStep(messages, i);
      if CallsTool(m) {
        toolArgs := Some(m.toolCalls[0].args);
      } else if m.Tool? {
        continue;
      } else if toolArgs.Some? {
        others := others + [m];
      }
    }
    assert messages[..|messages|] == messages;
    r := [System(PromptText(toolArgs))] + others;
  }

  /** How the remembered arguments and the kept list change when the scan reads message `i`. */
  lemma ScanStep(messages: seq<Message>, i: int)
    requires 0 <= i < |messages|
    ensures LatestArgs(messages[..i + 1])
         == if CallsTool(messages[i]) then Some(messages[i].toolCalls[0].args) else LatestArgs(messages[..i])
    ensures Kept(messages[..i + 1])
         == Kept(messages[..i]) + (if LatestArgs(messages[..i]).Some? && Forwarded(messages[i]) then [messages[i]] else [])
  {
    var p, m := messages[..i], messages[i];
    assert messages[..i + 1] == p + [m];
    assert (p + [m])[..i] == p;
    KeptSnoc(p, m);
    LatestArgsNone(p);
  }

  // ---------------------------------------------------------------------
  // Properties of the filter

  /** The filter distributes over concatenation: order is kept. */
  lemma {:induction false} FilterAppend(a: seq<Message>, b: seq<Message>)
    ensures Filter(a + b) == Filter(a) + Filter(b)
  {
    if a == [] {
      assert a + b == b;
    } else {
      assert (a + b)[0] == a[0];
      assert (a + b)[1..] == a[1..] + b;
      FilterAppend(a[1..], b);
    }
  }

  /** A single message passes exactly when it is forwarded. */
  lemma FilterSingle(m: Message)
    ensures Filter([m]) == if Forwarded(m) then [m] else []
  {
    assert [m][1..] == [];
  }

  /** Every forwarded message of `s` is in the filter's output. */
  lemma {:induction false} FilterKeepsForwarded(s: seq<Message>, i: int)
    requires 0 <= i < |s| && Forwarded(s[i])
    ensures s[i] in Filter(s)
  {
    if i > 0 {
      FilterKeepsForwarded(s[1..], i - 1);
    }
  }

  // ---------------------------------------------------------------------
  // What the scan keeps, one message at a time

  lemma {:induction false} AfterFirstCallSnoc(h: seq<Message>, m: Message)
    ensures AfterFirstCall(h + [m]) == if HasCall(h) then AfterFirstCall(h) + [m] else []
  {
    if h == [] {
      assert !HasCall(h);
      assert [m][1..] == [];
    } else {
      assert (h + [m])[0] == h[0];
      assert (h + [m])[1..] == h[1..] + [m];
      if CallsTool(h[0]) {
        assert HasCall(h);
      } else {
        AfterFirstCallSnoc(h[1..], m);
        assert HasCall(h) <==> HasCall(h[1..]) by {
          if HasCall(h) {
            var i :| 0 <= i < |h| && CallsTool(h[i]);
            assert h[1..][i - 1] == h[i];
          }
          if HasCall(h[1..]) {
            var i :| 0 <= i < |h[1..]| && CallsTool(h[1..][i]);
            assert h[i + 1] == h[1..][i];
          }
        }
      }
    }
  }

  lemma KeptSnoc(h: seq<Message>, m: Message)
    ensures Kept(h + [m]) == Kept(h) + (if HasCall(h) && Forwarded(m) then [m] else [])
  {
    AfterFirstCallSnoc(h, m);
    if HasCall(h) {
      FilterAppend(AfterFirstCall(h), [m]);
      FilterSingle(m);
    } else {
      assert AfterFirstCall(h) == [] by {
        NoCallKeepsNothing(h);
      }
    }
  }

  /** Without any tool call nothing after it exists to be kept. */
  lemma {:induction false} NoCallKeepsNothing(h: seq<Message>)
    requires !HasCall(h)
    ensures AfterFirstCall(h) == []
  {
    if h != [] {
      assert !CallsTool(h[0]);
      forall i | 0 <= i < |h[1..]|
        ensures !CallsTool(h[1..][i])
      {
        assert h[1..][i] == h[i + 1];
      }
      NoCallKeepsNothing(h[1..]);
    }
  }

  /** The remembered arguments are absent exactly when no message calls a tool. */
  lemma {:induction false} LatestArgsNone(h: seq<Message>)
    ensures LatestArgs(h) == None <==> !HasCall(h)
  {
    if h != [] {
      var p := h[..|h| - 1];
      if !CallsTool(Last(h)) {
        LatestArgsNone(p);
        assert HasCall(h) <==> HasCall(p) by {
          if HasCall(h) {
            var i :| 0 <= i < |h| && CallsTool(h[i]);
            assert p[i] == h[i];
          }
          if HasCall(p) {
            var i :| 0 <= i < |p| && CallsTool(p[i]);
            assert h[i] == p[i];
          }
        }
      } else {
        assert CallsTool(h[|h| - 1]);
      }
    }
  }

  // ---------------------------------------------------------------------
  // The properties of the generation input

  /**
   The system message embeds the arguments of the first call of the
   LAST tool-calling message: later calls overwrite earlier ones.
   */
  lemma {:induction false} LatestArgsAt(h: seq<Message>, k: int)
    requires 0 <= k < |h| && CallsTool(h[k])
    requires forall j :: k < j < |h| ==> !CallsTool(h[j])
    ensures LatestArgs(h) == Some(h[k].toolCalls[0].args)
    decreases |h|
  {
    if k < |h| - 1 {
      var p := h[..|h| - 1];
      assert !CallsTool(Last(h));
      LatestArgsAt(p, k);
    }
  }

  /** What the scan keeps is filtered from the suffix strictly after the FIRST tool call. */
  lemma {:induction false} AfterFirstCallAt(h: seq<Message>, k: int)
    requires 0 <= k < |h| && CallsTool(h[k])
    requires forall j :: 0 <= j < k ==> !CallsTool(h[j])
    ensures AfterFirstCall(h) == h[k + 1..]
    ensures Kept(h) == Filter(h[k + 1..])
  {
    if k > 0 {
      assert !CallsTool(h[0]);
      AfterFirstCallAt(h[1..], k - 1);
      assert h[1..][k..] == h[k + 1..];
    }
  }

  /** With no tool call in the history, only the system message is produced. */
  lemma NoCallOnlySystem(h: seq<Message>)
    requires !HasCall(h)
    ensures PromptInput(h) == [System(PromptText(None))]
  {
    NoCallKeepsNothing(h);
    LatestArgsNone(h);
  }

  /**
   The output starts with the one system message built here; none of the
   later elements is a tool result or a tool-calling assistant message.
   */
  lemma PromptInputShape(h: seq<Message>)
    ensures PromptInput(h)[0] == System(PromptText(LatestArgs(h)))
    ensures forall i :: 1 <= i < |PromptInput(h)| ==> Forwarded(PromptInput(h)[i])
  {
  }

  /**
   Exact selection in order: the kept messages are the messages of `h` at
   strictly increasing positions `idx`, and a position is among them
   exactly when its message is forwarded and some earlier message calls a
   tool.
   */
  lemma {:induction false} KeptPositions(h: seq<Message>) returns (idx: seq<int>)
    ensures |idx| == |Kept(h)|
    ensures forall j :: 0 <= j < |idx| ==> 0 <= idx[j] < |h| && Kept(h)[j] == h[idx[j]]
    ensures forall j, j' :: 0 <= j < j' < |idx| ==> idx[j] < idx[j']
    ensures forall i :: 0 <= i < |h| ==> (i in idx <==> Selected(h, i))
    decreases |h|
  {
    if h == [] {
      idx := [];
      assert AfterFirstCall(h) == [];
    } else {
      var p, m := h[..|h| - 1], Last(h);
      assert h == p + [m];
      var pidx := KeptPositions(p);
      KeptSnoc(p, m);
      assert h[..|p|] == p;
      forall i | 0 <= i < |p|
        ensures Selected(h, i) == Selected(p, i)
      {
        assert h[..i] == p[..i];
      }
      if HasCall(p) && Forwarded(m) {
        idx := pidx + [|p|];
      } else {
        idx := pidx;
      }
    }
  }

  // ---------------------------------------------------------------------
  // The scan keeps everything after the FIRST call, not after the latest one

  /** Three messages of which only the first is forwarded filter down to that one. */
  lemma FilterFirstOfThree(u: Message, a: Message, t: Message)
    requires Forwarded(u) && !Forwarded(a) && !Forwarded(t)
    ensures Filter([u, a, t]) == [u]
  {
    assert [u, a, t][1..] == [a, t];
    assert [a, t][1..] == [t];
    FilterSingle(t);
  }

  /**
   A user turn between two tool-calling messages still reaches the
   generation model, while the arguments come from the second call.
   */
  lemma EarlierTurnSurvivesSecondCall(first: ToolCall, second: ToolCall, text: string)
    ensures PromptInput([AI("", [first]), Human(text), AI("", [second]), Tool("Prompt generated!", second.id)])
         == [System(PromptText(Some(second.args))), Human(text)]
  {
    var u, a, t := Human(text), AI("", [second]), Tool("Prompt generated!", second.id);
    var h := [AI("", [first]), u, a, t];
    assert Kept(h) == [u] by {
      AfterFirstCallAt(h, 0);
      assert h[1..] == [u, a, t];
      FilterFirstOfThree(u, a, t);
    }
    assert LatestArgs(h) == Some(second.args) by {
      assert !CallsTool(h[3]);
      LatestArgsAt(h, 2);
    }
  }
}
