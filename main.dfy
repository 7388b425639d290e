/** `process_command`: one spoken request from recorded audio to the final
    reply. The speech recogniser, the classifying model, `json.loads`, the
    rewriting model and the effector are parameters; the early exits, the
    conversational branch, the ordered dispatch loop and the aggregation of
    the confirmation texts are modelled. */
module Orchestrator {
  import opened Wrappers
  import opened Strings
  import opened JsonValue
  import opened CommandResponseFetcher
  import opened CommandAndResponseGiver
  import OpenOrCloseDecisionMaker
  import OpenerDecisionMaker
  import Info

  const LoadFailed := "Could not process the audio file."
  const LoadFailedHeard := "Error processing audio."
  const HeardNothing := "Sorry, I didn't hear anything."
  const Silence := "(Silence)"
  const NotUnderstood := "Sorry, I had trouble understanding that."
  const NoResponse := "I'm not sure how to respond."
  const WorkingOnIt := "Working on it..."
  const NoAction := "no_action"

  /** The collaborators of `process_command`: the speech pipeline, the
      classifying model (`get_command`), `json.loads`, the rewriting model
      behind `responser`, and `open_or_close`. */
  datatype Services = Services(
    transcribe: seq<real> -> string,
    classify: string -> string,
    decode: string -> Decoded,
    chat: Json -> string,
    effector: (Json, Json) -> Result<Option<string>>)

  /** `responser(text)`: the rewriting model's reply, cleaned of translations. */
  function Respond(s: Services, text: Json): (r: string)
    ensures !HasMarker(r)
    ensures !HasMarker(s.chat(text)) ==> r == s.chat(text)
  {
    StripTranslation(s.chat(text))
  }

  /** The reply and the transcript shown to the user. */
  datatype Reply = Reply(response: string, heard: string)

  /** One effector call. */
  datatype Call = Call(command: Json, args: Json)

  /** The calls `process_command` makes to the collaborators with side effects
      or cost, in order. */
  datatype Event = Classified(heard: string) | Effected(call: Call) | Responded(text: Json)

  function EffectEvents(calls: seq<Call>): seq<Event>
  {
    seq(|calls|, k requires 0 <= k < |calls| => Effected(calls[k]))
  }

  // ---------------------------------------------------------------------------
  // The dispatch loop

  function Command(task: map<string, Json>): Json { Get(task, "command", JNull) }
  function Args(task: map<string, Json>): Json { Get(task, "args", JArray([])) }
  function Response(task: map<string, Json>): Json { Get(task, "response", JString(WorkingOnIt)) }

  /** `command is None or command == "no_action"`: the task is passed over. */
  predicate Skipped(task: map<string, Json>)
  {
    Command(task) == JNull || Command(task) == JString(NoAction)
  }

  /** A result that `if execution_result:` keeps. */
  predicate Kept(r: Result<Option<string>>)
  {
    r.Ok? && r.value.Some? && r.value.value != []
  }

  /** The loop's variables: the confirmation texts, the last kept result, the
      effector calls made, and the exception that ended the loop, if any. */
  datatype Progress = Progress(responses: seq<Json>, final: string, calls: seq<Call>, failure: Option<string>)

  /** One iteration on `task`. */
  function DispatchStep(p: Progress, task: Json, effector: (Json, Json) -> Result<Option<string>>): (r: Progress)
    // A task adds at most one call, and its confirmation text with it.
    ensures |p.calls| <= |r.calls| <= |p.calls| + 1
    ensures |r.calls| - |p.calls| == |r.responses| - |p.responses|
    ensures p.calls <= r.calls && p.responses <= r.responses
    // Only a called effector can change the final result or raise.
    ensures |r.calls| == |p.calls| ==> r.final == p.final && (r.failure == p.failure || !task.JObject?)
  {
    if !task.JObject? then p.(failure := Some("AttributeError"))
    else if Skipped(task.fields) then p
    else
      var call := Call(Command(task.fields), Args(task.fields));
      var result := effector(call.command, call.args);
      var p' := p.(responses := p.responses + [Response(task.fields)], calls := p.calls + [call]);
      if result.Raised? then p'.(failure := Some(result.exception))
      else if Kept(result) then p'.(final := result.value.value)
      else p'
  }

  /** The loop over `tasks`, which ends at the first exception. */
  function Dispatch(tasks: seq<Json>, effector: (Json, Json) -> Result<Option<string>>): (p: Progress)
    ensures |p.calls| == |p.responses| <= |tasks|
  {
    if tasks == [] then Progress([], "", [], None)
    else
      var p := Dispatch(tasks[..|tasks| - 1], effector);
      if p.failure.Some? then p else DispatchStep(p, tasks[|tasks| - 1], effector)
  }

  /** Once an exception has ended the loop, later tasks change nothing. */
  lemma {:induction false} FailureEndsDispatch(tasks: seq<Json>, i: nat, effector: (Json, Json) -> Result<Option<string>>)
    requires i <= |tasks| && Dispatch(tasks[..i], effector).failure.Some?
    ensures Dispatch(tasks, effector) == Dispatch(tasks[..i], effector)
  {
    if i < |tasks| {
      assert tasks[..|tasks| - 1][..i] == tasks[..i];
      FailureEndsDispatch(tasks[..|tasks| - 1], i, effector);
    } else {
      assert tasks[..i] == tasks;
    }
  }

  /** The tasks the loop hands to the effector: the objects whose command is
      neither None nor "no_action", in order. */
  function Dispatched(tasks: seq<Json>): (ds: seq<map<string, Json>>)
    ensures forall k :: 0 <= k < |ds| ==> !Skipped(ds[k])
  {
    if tasks == [] then []
    else
      var t := tasks[|tasks| - 1];
      Dispatched(tasks[..|tasks| - 1]) + if t.JObject? && !Skipped(t.fields) then [t.fields] else []
  }

  /** A dispatched task is an object of the list that is not passed over,
      and every such object is dispatched. */
  lemma {:induction false} DispatchedExactly(tasks: seq<Json>)
    ensures forall m :: m in Dispatched(tasks) <==> JObject(m) in tasks && !Skipped(m)
  {
    if tasks != [] {
      var prefix := tasks[..|tasks| - 1];
      var t := tasks[|tasks| - 1];
      DispatchedExactly(prefix);
      assert tasks == prefix + [t];
      var keep := if t.JObject? && !Skipped(t.fields) then [t.fields] else [];
      assert Dispatched(tasks) == Dispatched(prefix) + keep;
    }
  }

  /** The tasks of a list split in two are dispatched part by part: the
      loop keeps list order. */
  lemma {:induction false} DispatchedAppend(a: seq<Json>, b: seq<Json>)
    ensures Dispatched(a + b) == Dispatched(a) + Dispatched(b)
    decreases |b|
  {
    if b == [] {
      assert a + b == a;
    } else {
      var b' := b[..|b| - 1];
      var t := b[|b| - 1];
      var keep := if t.JObject? && !Skipped(t.fields) then [t.fields] else [];
      assert (a + b)[..|a + b| - 1] == a + b' && (a + b)[|a + b| - 1] == t;
      assert Dispatched(a + b) == Dispatched(a + b') + keep;
      assert Dispatched(b) == Dispatched(b') + keep;
      DispatchedAppend(a, b');
    }
  }

  /** All tasks are objects and no effector call raises. */
  predicate Clean(tasks: seq<Json>, effector: (Json, Json) -> Result<Option<string>>)
  {
    forall k :: 0 <= k < |tasks| ==>
      tasks[k].JObject? &&
      (!Skipped(tasks[k].fields) ==> effector(Command(tasks[k].fields), Args(tasks[k].fields)).Ok?)
  }

  /** Without an exception, the effector is called once per dispatchable task,
      in list order, and the confirmation texts are those tasks' responses,
      in the same order. */
  lemma {:induction false} DispatchInOrder(tasks: seq<Json>, effector: (Json, Json) -> Result<Option<string>>)
    requires Clean(tasks, effector)
    ensures var p := Dispatch(tasks, effector);
            var ds := Dispatched(tasks);
            && p.failure.None?
            && |p.calls| == |ds| == |p.responses|
            && (forall k :: 0 <= k < |ds| ==> p.calls[k] == Call(Command(ds[k]), Args(ds[k])))
            && (forall k :: 0 <= k < |ds| ==> p.responses[k] == Response(ds[k]))
  {
    if tasks != [] {
      var prefix := tasks[..|tasks| - 1];
      assert Clean(prefix, effector) by {
        forall k | 0 <= k < |prefix| ensures prefix[k] == tasks[k] { }
      }
      DispatchInOrder(prefix, effector);
    }
  }

  /** Only the last call may have raised, and its exception ended the loop. */
  predicate RaiseIsLast(p: Progress, effector: (Json, Json) -> Result<Option<string>>)
  {
    forall k :: 0 <= k < |p.calls| && effector(p.calls[k].command, p.calls[k].args).Raised? ==>
      k == |p.calls| - 1 && p.failure == Some(effector(p.calls[k].command, p.calls[k].args).exception)
  }

  /** The calls stop at the first one that raises, and its exception ends
      the loop. */
  lemma {:induction false} FirstRaiseEndsCalls(tasks: seq<Json>, effector: (Json, Json) -> Result<Option<string>>)
    ensures RaiseIsLast(Dispatch(tasks, effector), effector)
  {
    if tasks != [] {
      var prefix := tasks[..|tasks| - 1];
      FirstRaiseEndsCalls(prefix, effector);
      var p0 := Dispatch(prefix, effector);
      var p := Dispatch(tasks, effector);
      var task := tasks[|tasks| - 1];
      if p0.failure.None? && task.JObject? && !Skipped(task.fields) {
        var call := Call(Command(task.fields), Args(task.fields));
        assert p.calls == p0.calls + [call];
        forall k | 0 <= k < |p.calls| && effector(p.calls[k].command, p.calls[k].args).Raised?
          ensures k == |p.calls| - 1 && p.failure == Some(effector(p.calls[k].command, p.calls[k].args).exception)
        {
          if k < |p0.calls| {
            assert false;
          }
        }
      }
    }
  }

  /** Last write wins: the final result is the last kept effector result, and
      it is empty exactly when no call returned a kept result. */
  lemma {:induction false} LastKeptResultWins(tasks: seq<Json>, effector: (Json, Json) -> Result<Option<string>>)
    ensures var p := Dispatch(tasks, effector);
            && (p.final == [] <==> forall k :: 0 <= k < |p.calls| ==> !Kept(effector(p.calls[k].command, p.calls[k].args)))
            && (p.final != [] ==>
                  exists k :: 0 <= k < |p.calls| && effector(p.calls[k].command, p.calls[k].args) == Ok(Some(p.final))
                              && forall l :: k < l < |p.calls| ==> !Kept(effector(p.calls[l].command, p.calls[l].args)))
  {
    if tasks != [] {
      var prefix := tasks[..|tasks| - 1];
      LastKeptResultWins(prefix, effector);
      var p0 := Dispatch(prefix, effector);
      var p := Dispatch(tasks, effector);
      if p0.failure.None? && p.calls != p0.calls {
        LastCallStep(p0, tasks[|tasks| - 1], effector);
      }
    }
  }

  /** One more call keeps the last-write-wins relation between the calls made
      and the final result. */
  lemma LastCallStep(p0: Progress, task: Json, effector: (Json, Json) -> Result<Option<string>>)
    requires p0.final == [] <==> forall k :: 0 <= k < |p0.calls| ==> !Kept(effector(p0.calls[k].command, p0.calls[k].args))
    requires p0.final != [] ==>
               exists k :: 0 <= k < |p0.calls| && effector(p0.calls[k].command, p0.calls[k].args) == Ok(Some(p0.final))
                           && forall l :: k < l < |p0.calls| ==> !Kept(effector(p0.calls[l].command, p0.calls[l].args))
    requires DispatchStep(p0, task, effector).calls != p0.calls
    ensures var p := DispatchStep(p0, task, effector);
            && (p.final == [] <==> forall k :: 0 <= k < |p.calls| ==> !Kept(effector(p.calls[k].command, p.calls[k].args)))
            && (p.final != [] ==>
                  exists k :: 0 <= k < |p.calls| && effector(p.calls[k].command, p.calls[k].args) == Ok(Some(p.final))
                              && forall l :: k < l < |p.calls| ==> !Kept(effector(p.calls[l].command, p.calls[l].args)))
  {
    var p := DispatchStep(p0, task, effector);
    var last := |p.calls| - 1;
    assert p.calls[..last] == p0.calls;
    assert forall k :: 0 <= k < last ==> p.calls[k] == p0.calls[k];
    if !Kept(effector(p.calls[last].command, p.calls[last].args)) && p.final != [] {
      var k :| 0 <= k < |p0.calls| && effector(p0.calls[k].command, p0.calls[k].args) == Ok(Some(p0.final))
               && forall l :: k < l < |p0.calls| ==> !Kept(effector(p0.calls[l].command, p0.calls[l].args));
      assert p.calls[k] == p0.calls[k];
    }
  }

  // ---------------------------------------------------------------------------
  // Aggregation

  /** The texts of a list all of whose items are strings. */
  function Texts(vs: seq<Json>): (r: Option<seq<string>>)
    ensures r.Some? <==> forall k :: 0 <= k < |vs| ==> vs[k].JString?
    ensures r.Some? ==> |r.value| == |vs| && forall k :: 0 <= k < |vs| ==> r.value[k] == vs[k].s
  {
    if vs == [] then Some([])
    else
      match Texts(vs[..|vs| - 1])
      case None => None
      case Some(ts) => if vs[|vs| - 1].JString? then Some(ts + [vs[|vs| - 1].s]) else None
  }

  /** `f"{' '.join(responses)} {final}".strip()`; the join raises TypeError on
      an item that is not a string. */
  function FullResponse(p: Progress): (r: Result<string>)
    ensures r.Raised? <==> exists k :: 0 <= k < |p.responses| && !p.responses[k].JString?
  {
    match Texts(p.responses)
    case None => Raised("TypeError")
    case Some(ts) => Ok(Strip(Join(ts, " ") + " " + p.final))
  }

  // ---------------------------------------------------------------------------
  // The whole request

  /** What the recogniser heard, when the audio could be loaded. */
  function Heard(audio: seq<real>, s: Services): string
  {
    s.transcribe(audio)
  }

  /** The batch the classifier's output is normalised to. */
  function Tasks(heard: string, s: Services): seq<Json>
  {
    ParseCommands(s.decode(s.classify(heard)))
  }

  /** The conversational branch: only the first task decides it. */
  predicate Conversational(tasks: seq<Json>)
  {
    tasks != [] && tasks[0].JObject? && Command(tasks[0].fields) == JString(NoAction)
  }

  /** `process_command`. `trace` lists the calls made to the classifier, the
      effector and the rewriting model, in order. */
  method ProcessCommand(audio: Option<seq<real>>, s: Services) returns (outcome: Result<Reply>, trace: seq<Event>)
    // No audio: fixed texts, and nothing is called.
    ensures audio.None? ==> outcome == Ok(Reply(LoadFailed, LoadFailedHeard)) && trace == []
    // Nothing heard: the classifier is not called.
    ensures audio.Some? && IsBlank(Heard(audio.value, s)) ==>
              && outcome == Ok(Reply(Respond(s, JString(HeardNothing)), Silence))
              && trace == [Responded(JString(HeardNothing))]
    // Otherwise the classifier is called first, on what was heard.
    ensures audio.Some? && !IsBlank(Heard(audio.value, s)) ==>
              var heard := Heard(audio.value, s);
              var tasks := Tasks(heard, s);
              && |trace| >= 1 && trace[0] == Classified(heard)
              && (tasks == [] ==>
                    outcome == Ok(Reply(Respond(s, JString(NotUnderstood)), heard))
                    && trace == [Classified(heard), Responded(JString(NotUnderstood))])
              && (tasks != [] && !tasks[0].JObject? ==>
                    outcome == Raised("AttributeError") && trace == [Classified(heard)])
              && (Conversational(tasks) ==>
                    var text := Get(tasks[0].fields, "response", JString(NoResponse));
                    outcome == Ok(Reply(Respond(s, text), heard))
                    && trace == [Classified(heard), Responded(text)])
              && (tasks != [] && tasks[0].JObject? && !Conversational(tasks) ==>
                    ActionsOutcome(tasks, heard, s, outcome, trace[1..]))
  {
    if audio.None? {
      return Ok(Reply(LoadFailed, LoadFailedHeard)), [];
    }
    var heard := s.transcribe(audio.value);
    if heard == [] || Strip(heard) == [] {
      return Ok(Reply(Respond(s, JString(HeardNothing)), Silence)), [Responded(JString(HeardNothing))];
    }
    var tasks := ParseCommands(s.decode(s.classify(heard)));
    if tasks == [] {
      var text := JString(NotUnderstood);
      return Ok(Reply(Respond(s, text), heard)), [Classified(heard), Responded(text)];
    }
    if !tasks[0].JObject? {
      return Raised("AttributeError"), [Classified(heard)];
    }
    if Command(tasks[0].fields) == JString(NoAction) {
      var text := Get(tasks[0].fields, "response", JString(NoResponse));
      return Ok(Reply(Respond(s, text), heard)), [Classified(heard), Responded(text)];
    }
    var rest;
    outcome, rest := ExecuteTasks(tasks, heard, s);
    trace := [Classified(heard)] + rest;
  }

  /** The action branch's outcome and calls: the dispatch loop, then the
      aggregated confirmation texts and result handed to the rewriting model. */
  ghost predicate ActionsOutcome(tasks: seq<Json>, heard: string, s: Services, outcome: Result<Reply>, trace: seq<Event>)
  {
    var p := Dispatch(tasks, s.effector);
    var events := EffectEvents(p.calls);
    if p.failure.Some? then outcome == Raised(p.failure.value) && trace == events
    else match FullResponse(p)
      case Raised(e) => outcome == Raised(e) && trace == events
      case Ok(full) =>
        outcome == Ok(Reply(Respond(s, JString(full)), heard))
        && trace == events + [Responded(JString(full))]
  }

  /** The `else` branch of `process_command`: every task in order, then the
      rewritten summary. */
  method ExecuteTasks(tasks: seq<Json>, heard: string, s: Services) returns (outcome: Result<Reply>, trace: seq<Event>)
    ensures ActionsOutcome(tasks, heard, s, outcome, trace)
  {
    var responses: seq<Json> := [];
    var final: string := "";
    var calls: seq<Call> := [];
    trace := [];
    var i := 0;
    while i < |tasks|
      invariant 0 <= i <= |tasks|
      invariant Dispatch(tasks[..i], s.effector) == Progress(responses, final, calls, None)
      invariant trace == EffectEvents(calls)
    {
      assert tasks[..i + 1][..i] == tasks[..i];
      var task := tasks[i];
      if !task.JObject? {
        FailureEndsDispatch(tasks, i + 1, s.effector);
        return Raised("AttributeError"), trace;
      }
      var command := Get(task.fields, "command", JNull);
      var args := Get(task.fields, "args", JArray([]));
      var response := Get(task.fields, "response", JString(WorkingOnIt));
      if command == JNull || command == JString(NoAction) {
        i := i + 1;
        continue;
      }
      responses := responses + [response];
      calls := calls + [Call(command, args)];
      trace := trace + [Effected(Call(command, args))];
      var result := s.effector(command, args);
      if result.Raised? {
        FailureEndsDispatch(tasks, i + 1, s.effector);
        return Raised(result.exception), trace;
      }
      if result.value.Some? && result.value.value != [] {
        final := result.value.value;
      }
      i := i + 1;
    }
    assert tasks[..i] == tasks;
    var combined := Texts(responses);
    if combined.None? {
      return Raised("TypeError"), trace;
    }
    var full := Strip(Join(combined.value, " ") + " " + final);
    outcome := Ok(Reply(Respond(s, JString(full)), heard));
    trace := trace + [Responded(JString(full))];
  }

  // ---------------------------------------------------------------------------
  // A request end to end

  /** A batch of one task whose effector returns a text: the confirmation and
      the result, joined by a space and stripped. */
  lemma SingleTaskResponse(task: map<string, Json>, effector: (Json, Json) -> Result<Option<string>>)
    requires !Skipped(task) && Response(task).JString?
    requires Kept(effector(Command(task), Args(task)))
    ensures FullResponse(Dispatch([JObject(task)], effector))
              == Ok(Strip(Response(task).s + " " + effector(Command(task), Args(task)).value.value))
  {
    assert [JObject(task)][..0] == [];
    var start := Progress([], "", [], None);
    assert Dispatch([], effector) == start;
    var r := effector(Command(task), Args(task));
    var p := Dispatch([JObject(task)], effector);
    assert p == DispatchStep(start, JObject(task), effector);
    assert p.responses == [Response(task)] && p.final == r.value.value;
    var v := Response(task);
    assert [v][..0] == [];
    assert Texts([v]) == Some([] + [v.s]);
    assert [] + [v.s] == [v.s];
  }

  /** "What time is it?" at 21:30: the confirmation text and the clock's
      reading are joined into the text handed to the rewriting model. */
  lemma TimeRequestExample(w: OpenOrCloseDecisionMaker.World)
    requires w.hour == 21 && w.minute == 30
    ensures var task := map["command" := JString("get_time"), "response" := JString("Getting time")];
            var effector := (command, args) => OpenOrCloseDecisionMaker.Execute(command, args, w);
            FullResponse(Dispatch([JObject(task)], effector)) == Ok("Getting time 09:30 PM")
  {
    var task := map["command" := JString("get_time"), "response" := JString("Getting time")];
    var effector := (command, args) => OpenOrCloseDecisionMaker.Execute(command, args, w);
    assert Command(task) == JString("get_time") && Args(task) == JArray([]);
    OpenOrCloseDecisionMaker.GetTimeReadsClock(JArray([]), w);
    Info.FormatTimeEvening();
    SingleTaskResponse(task, effector);
    TimeRequestText();
  }

  lemma TimeRequestText()
    ensures Strip("Getting time" + " " + "09:30 PM") == "Getting time 09:30 PM"
  {
    var full := "Getting time 09:30 PM";
    assert "Getting time" + " " + "09:30 PM" == full;
    assert full[0] == 'G' && full[|full| - 1] == 'M';
    StripTrimmed(full);
  }
}
