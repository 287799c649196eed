/** Tool execution: every call is started once, ended once and answered once. */
module AgentTools {
  import opened Common
  import opened AgentModel
  import opened AgentGrammar

  /** The turn's response is complete and no message is open. */
  ghost predicate Ready(w: World) {
    var m := Seen(w);
    m.ok && m.phase == InTurn && m.open.None? && m.responded && m.answer.None?
  }

  /** From `w` to `v` the results were announced, the calls to be started and
      those running became as said, and the conversation was kept. */
  ghost predicate Progress(env: Env, w: World, v: World, results: seq<Message>, batch: seq<Message>,
                           todo: multiset<string>, running: multiset<string>) {
    && Ready(v) && Kept(env, w, v, batch)
    && Core(v) == Core(w).(todo := todo, running := running, ended := Seen(w).ended + results)
  }

  lemma ProgressJoin(env: Env, w: World, v: World, u: World, r1: seq<Message>, r2: seq<Message>,
                     batch: seq<Message>, t1: multiset<string>, n1: multiset<string>, t2: multiset<string>,
                         n2: multiset<string>)
    requires Progress(env, w, v, r1, [], t1, n1) && Progress(env, v, u, r2, batch, t2, n2)
    ensures Progress(env, w, u, r1 + r2, batch, t2, n2)
  {
    hide Kept, ReadAll;
    ThenKept(env, w, v, u, batch);
    assert (Seen(w).ended + r1) + r2 == Seen(w).ended + (r1 + r2);
  }

  /** The same, when only the first step took a batch. */
  lemma ProgressThen(env: Env, w: World, v: World, u: World, r1: seq<Message>, r2: seq<Message>,
                     batch: seq<Message>, t1: multiset<string>, n1: multiset<string>, t2: multiset<string>,
                         n2: multiset<string>)
    requires Progress(env, w, v, r1, batch, t1, n1) && Progress(env, v, u, r2, [], t2, n2)
    ensures Progress(env, w, u, r1 + r2, batch, t2, n2)
  {
    hide Kept, ReadAll;
    KeptThen(env, w, v, u, batch);
    assert (Seen(w).ended + r1) + r2 == Seen(w).ended + (r1 + r2);
  }

  lemma StartProgress(env: Env, w: World, call: Call)
    requires Ready(w) && call.id in Seen(w).todo
    ensures Progress(env, w, StartTool(w, call), [], [], Seen(w).todo - multiset{call.id},
                     Seen(w).running + multiset{call.id})
  {
    hide ReadAll;
    var v := StartTool(w, call);
    SeenPush(w, Emit(ToolStart(call.id, call.name)));
    LogKeeps(env, w, v.log);
    assert Seen(w).ended + [] == Seen(w).ended;
  }

  lemma UpdateProgress(env: Env, w: World, id: string)
    requires Ready(w) && id in Seen(w).running
    ensures Progress(env, w, Send(w, ToolUpdate(id)), [], [], Seen(w).todo, Seen(w).running)
  {
    hide ReadAll;
    SeenPush(w, Emit(ToolUpdate(id)));
    LogKeeps(env, w, Send(w, ToolUpdate(id)).log);
    assert Seen(w).ended + [] == Seen(w).ended;
  }

  lemma NoProgress(env: Env, w: World)
    requires Ready(w)
    ensures Progress(env, w, w, [], [], Seen(w).todo, Seen(w).running)
  {
    hide ReadAll;
    LogKeeps(env, w, w.log);
    assert Seen(w).ended + [] == Seen(w).ended;
  }

  lemma AwaitProgress(env: Env, w: World)
    requires Ready(w)
    ensures Progress(env, w, Await(env, w), [], [], Seen(w).todo, Seen(w).running)
  {
    hide ReadAll, Kept;
    AwaitKeeps(env, w);
    assert Seen(w).ended + [] == Seen(w).ended;
  }

  /** A poll leaves everything read as it was. */
  lemma PollProgress(env: Env, w: World)
    requires Ready(w)
    ensures var p := PollSteering(env, w);
            Progress(env, w, p.world, [], p.batch, Seen(w).todo, Seen(w).running)
  {
    hide ReadAll, Kept;
    PollKeeps(env, w);
    assert Seen(w).ended + [] == Seen(w).ended;
    assert Seen(PollSteering(env, w).world).ok == Core(w).ok;
  }

  lemma FinishProgress(env: Env, w: World, call: Call, output: Output, isError: bool)
    requires Ready(w) && call.id in Seen(w).running
    ensures var one := FinishTool(w, call, output, isError);
            Progress(env, w, one.world, [one.result], [], Seen(w).todo, Seen(w).running - multiset{call.id})
  {
    hide ReadAll;
    var one := FinishTool(w, call, output, isError);
    var w1 := Send(w, ToolEnd(call.id, output, isError));
    SeenPush(w, Emit(ToolEnd(call.id, output, isError)));
    var w2 := Send(w1, MessageStart(one.result));
    SeenPush(w1, Emit(MessageStart(one.result)));
    SeenPush(w2, Emit(MessageEnd(one.result)));
    LogKeeps(env, w, one.world.log);
  }

  lemma {:induction false} UpdatesProgress(env: Env, w: World, call: Call, n: nat)
    requires Ready(w) && call.id in Seen(w).running
    ensures Progress(env, w, Updates(w, call, n), [], [], Seen(w).todo, Seen(w).running)
  {
    hide ReadAll, Kept;
    if n == 0 {
      NoProgress(env, w);
    } else {
      UpdatesProgress(env, w, call, n - 1);
      var v := Updates(w, call, n - 1);
      UpdateProgress(env, v, call.id);
      ProgressJoin(env, w, v, Updates(w, call, n), [], [], [], Seen(w).todo, Seen(w).running, Seen(w).todo,
                   Seen(w).running);
    }
  }

  lemma ExecuteProgress(env: Env, w: World, call: Call)
    requires Ready(w) && call.id in Seen(w).running
    ensures var one := Execute(env, w, call);
            Progress(env, w, one.world, [one.result], [], Seen(w).todo, Seen(w).running - multiset{call.id})
  {
    hide ReadAll, Kept;
    var e := env.execute(w.clock);
    var (output, isError) := Amended(e);
    var w1 := Await(env, w);
    var w2 := Updates(w1, call, e.updates);
    var one := FinishTool(w2, call, output, isError);
    var todo, running := Seen(w).todo, Seen(w).running;
    AwaitProgress(env, w);
    UpdatesProgress(env, w1, call, e.updates);
    ProgressJoin(env, w, w1, w2, [], [], [], todo, running, todo, running);
    FinishProgress(env, w2, call, output, isError);
    ProgressJoin(env, w, w2, one.world, [], [one.result], [], todo, running, todo, running - multiset{call.id});
    assert [] + [one.result] == [one.result];
  }

  /** A result names the call it answers. */
  predicate ResultOf(m: Message, call: Call) {
    m.ToolResult? && m.callId == call.id && m.name == call.name
  }

  predicate ResultsOf(results: seq<Message>, calls: seq<Call>) {
    |results| == |calls| && forall i :: 0 <= i < |calls| ==> ResultOf(results[i], calls[i])
  }

  lemma ResultsJoin(a: seq<Message>, b: seq<Message>, x: seq<Call>, y: seq<Call>)
    requires ResultsOf(a, x) && ResultsOf(b, y)
    ensures ResultsOf(a + b, x + y)
  {
  }

  lemma {:induction false} IdsAppend(a: seq<Call>, b: seq<Call>)
    ensures Ids(a + b) == Ids(a) + Ids(b)
  {
    if a == [] {
      assert a + b == b;
    } else {
      assert (a + b)[0] == a[0] && (a + b)[1..] == a[1..] + b;
      IdsAppend(a[1..], b);
    }
  }

  lemma IdsCons(calls: seq<Call>)
    requires calls != []
    ensures Ids(calls) == multiset{calls[0].id} + Ids(calls[1..]) && calls[0].id in Ids(calls)
  {
  }

  lemma SkipOne(env: Env, w: World, call: Call, emitStart: bool)
    requires Ready(w) && call.id in if emitStart then Seen(w).todo else Seen(w).running
    ensures var one := FinishTool(if emitStart then StartTool(w, call) else w, call,
                                  ErrorOutput("Skipped due to queued user message."), true);
            && ResultOf(one.result, call)
            && Progress(env, w, one.world, [one.result], [],
                        if emitStart then Seen(w).todo - multiset{call.id} else Seen(w).todo,
                        if emitStart then Seen(w).running else Seen(w).running - multiset{call.id})
  {
    hide ReadAll, Kept;
    var todo, running := Seen(w).todo, Seen(w).running;
    var output := ErrorOutput("Skipped due to queued user message.");
    if emitStart {
      var w1 := StartTool(w, call);
      StartProgress(env, w, call);
      var one := FinishTool(w1, call, output, true);
      FinishProgress(env, w1, call, output, true);
      var todo1, running1 := todo - multiset{call.id}, running + multiset{call.id};
      ProgressJoin(env, w, w1, one.world, [], [one.result], [], todo1, running1, todo1, running1 - multiset{call.id});
      assert [] + [one.result] == [one.result];
      assert running1 - multiset{call.id} == running;
    } else {
      FinishProgress(env, w, call, output, true);
    }
  }

  lemma SubtractIds(calls: seq<Call>, all: multiset<string>)
    requires calls != [] && Ids(calls) <= all
    ensures calls[0].id in all && Ids(calls[1..]) <= all - multiset{calls[0].id}
    ensures (all - multiset{calls[0].id}) - Ids(calls[1..]) == all - Ids(calls)
  {
    IdsCons(calls);
  }

  /** Skipped calls are started, unless they were, ended and answered. */
  lemma {:induction false} SkipProgress(env: Env, w: World, calls: seq<Call>, emitStart: bool)
    requires Ready(w)
    requires Ids(calls) <= if emitStart then Seen(w).todo else Seen(w).running
    ensures var r := Skip(w, calls, emitStart);
            && ResultsOf(r.results, calls) && r.steering == []
            && Progress(env, w, r.world, r.results, [],
                        if emitStart then Seen(w).todo - Ids(calls) else Seen(w).todo,
                        if emitStart then Seen(w).running else Seen(w).running - Ids(calls))
    decreases |calls|
  {
    hide ReadAll, Kept, Ids, Progress, FinishTool, StartTool;
    var all := if emitStart then Seen(w).todo else Seen(w).running;
    if calls == [] {
      NoProgress(env, w);
      NoIds();
      assert all - multiset{} == all;
    } else {
      var call := calls[0];
      SubtractIds(calls, all);
      SkipOne(env, w, call, emitStart);
      var one := FinishTool(if emitStart then StartTool(w, call) else w, call,
                            ErrorOutput("Skipped due to queued user message."), true);
      var todo := if emitStart then all - multiset{call.id} else Seen(w).todo;
      var running := if emitStart then Seen(w).running else all - multiset{call.id};
      ProgressSays(env, w, one.world, [one.result], [], todo, running);
      var rest := Skip(one.world, calls[1..], emitStart);
      SkipProgress(env, one.world, calls[1..], emitStart);
      ProgressJoin(env, w, one.world, rest.world, [one.result], rest.results, [], todo, running,
                   if emitStart then todo - Ids(calls[1..]) else todo,
                   if emitStart then running else running - Ids(calls[1..]));
      ResultsJoin([one.result], rest.results, [call], calls[1..]);
      assert [call] + calls[1..] == calls;
    }
  }

  lemma NoIds()
    ensures Ids([]) == multiset{}
  {
  }

  lemma ProgressSays(env: Env, w: World, v: World, results: seq<Message>, batch: seq<Message>,
                     todo: multiset<string>, running: multiset<string>)
    requires Progress(env, w, v, results, batch, todo, running)
    ensures Ready(v) && Seen(v).todo == todo && Seen(v).running == running && Seen(v).ended == Seen(w).ended + results
    ensures Seen(v).called == Seen(w).called && Seen(v).sinceCall == Seen(w).sinceCall && Seen(v).most == Seen(w).most
    ensures Kept(env, w, v, batch)
  {
    var m := Core(v);
    assert m.todo == todo;
  }

  /** One at a time: results in the order of the calls. */
  lemma {:induction false} SequentialProgress(env: Env, w: World, calls: seq<Call>)
    requires Ready(w) && Seen(w).todo == Ids(calls) && Seen(w).running == multiset{}
    ensures var r := Sequential(env, w, calls);
            && ResultsOf(r.results, calls)
            && Progress(env, w, r.world, r.results, r.steering, multiset{}, multiset{})
            && ((forall t :: OneAtATime(env, t)) ==> |r.steering| <= 1)
    decreases |calls|
  {
    hide ReadAll, Kept, Ids, Progress, FinishTool, StartTool, Execute, PollSteering, Skip;
    if calls == [] {
      NoProgress(env, w);
      NoIds();
    } else {
      var call := calls[0];
      SubtractIds(calls, Seen(w).todo);
      OneCallProgress(env, w, call);
      var one := OneCall(env, w, call);
      var todo := Ids(calls[1..]);
      assert Seen(w).todo - multiset{call.id} == todo by { IdsCons(calls); }
      ProgressSays(env, w, one.world, [one.result], [], todo, multiset{});
      var poll := PollSteering(env, one.world);
      PollProgress(env, one.world);
      PollKeeps(env, one.world);
      ProgressJoin(env, w, one.world, poll.world, [one.result], [], poll.batch, todo, multiset{}, todo, multiset{});
      assert [one.result] + [] == [one.result];
      ProgressSays(env, one.world, poll.world, [], poll.batch, todo, multiset{});
      var rest := if poll.batch != [] then Skip(poll.world, calls[1..], true)
          else Sequential(env, poll.world, calls[1..]);
      if poll.batch != [] {
        SkipProgress(env, poll.world, calls[1..], true);
        assert todo - Ids(calls[1..]) == multiset{};
        ProgressThen(env, w, poll.world, rest.world, [one.result], rest.results, poll.batch, todo, multiset{},
                     multiset{}, multiset{});
      } else {
        SequentialProgress(env, poll.world, calls[1..]);
        ProgressJoin(env, w, poll.world, rest.world, [one.result], rest.results, rest.steering, todo, multiset{},
                     multiset{}, multiset{});
      }
      ResultsJoin([one.result], rest.results, [call], calls[1..]);
      assert [call] + calls[1..] == calls;
    }
  }

  /** One call run to its end: refused, or prepared and executed. */
  function OneCall(env: Env, w: World, call: Call): Ran {
    var w1 := StartTool(w, call);
    var p := env.prepare(w1.clock);
    var w2 := Await(env, w1);
    if p.Runs? then Execute(env, w2, call) else FinishTool(w2, call, Refusal(call, p), true)
  }

  lemma OneCallProgress(env: Env, w: World, call: Call)
    requires Ready(w) && call.id in Seen(w).todo && Seen(w).running == multiset{}
    ensures var one := OneCall(env, w, call);
            && ResultOf(one.result, call)
            && Progress(env, w, one.world, [one.result], [], Seen(w).todo - multiset{call.id}, multiset{})
  {
    hide ReadAll, Kept;
    var w1 := StartTool(w, call);
    var p := env.prepare(w1.clock);
    var w2 := Await(env, w1);
    var todo, running := Seen(w).todo - multiset{call.id}, multiset{call.id};
    StartProgress(env, w, call);
    AwaitProgress(env, w1);
    ProgressJoin(env, w, w1, w2, [], [], [], todo, running, todo, running);
    if p.Runs? {
      ExecuteProgress(env, w2, call);
    } else {
      FinishProgress(env, w2, call, Refusal(call, p), true);
    }
    var one := OneCall(env, w, call);
    ProgressJoin(env, w, w2, one.world, [], [one.result], [], todo, running, todo, running - multiset{call.id});
    assert [] + [one.result] == [one.result];
    assert running - multiset{call.id} == multiset{};
  }

  // ---- in parallel ------------------------------------------------------------------

  lemma IdsHas(calls: seq<Call>, k: nat)
    requires k < |calls|
    ensures calls[k].id in Ids(calls)
  {
    if k > 0 {
      IdsHas(calls[1..], k - 1);
    }
  }

  lemma {:induction false} InterleaveProgress(env: Env, w: World, running: seq<Call>, picks: seq<nat>)
    requires Ready(w) && running != [] && Seen(w).running == Ids(running)
    ensures Progress(env, w, Interleave(w, running, picks), [], [], Seen(w).todo, Seen(w).running)
    decreases |picks|
  {
    hide ReadAll, Kept, Ids;
    var todo, ids := Seen(w).todo, Seen(w).running;
    if picks == [] {
      NoProgress(env, w);
    } else {
      var k := picks[0] % |running|;
      IdsHas(running, k);
      var v := Send(w, ToolUpdate(running[k].id));
      UpdateProgress(env, w, running[k].id);
      ProgressSays(env, w, v, [], [], todo, ids);
      InterleaveProgress(env, v, running, picks[1..]);
      ProgressJoin(env, w, v, Interleave(v, running, picks[1..]), [], [], [], todo, ids, todo, ids);
    }
  }

  lemma {:induction false} TogetherProgress(env: Env, w: World, calls: seq<Call>)
    requires Ready(w) && Seen(w).running == Ids(calls)
    ensures var r := RunTogether(env, w, calls);
            && ResultsOf(r.results, calls) && r.steering == []
            && Progress(env, w, r.world, r.results, [], Seen(w).todo, multiset{})
    decreases |calls|
  {
    hide ReadAll, Kept, Ids, Progress, Execute, Interleave;
    var todo, ids := Seen(w).todo, Ids(calls);
    if calls == [] {
      NoProgress(env, w);
      NoIds();
    } else {
      var w1 := Interleave(w, calls, env.interleaved(w.clock));
      InterleaveProgress(env, w, calls, env.interleaved(w.clock));
      ProgressSays(env, w, w1, [], [], todo, ids);
      SubtractIds(calls, ids);
      ExecuteProgress(env, w1, calls[0]);
      ExecuteAnswers(env, w1, calls[0]);
      var one := Execute(env, w1, calls[0]);
      var left := Ids(calls[1..]);
      assert ids - multiset{calls[0].id} == left by { IdsCons(calls); }
      ProgressJoin(env, w, w1, one.world, [], [one.result], [], todo, ids, todo, left);
      assert [] + [one.result] == [one.result];
      ProgressSays(env, w, one.world, [one.result], [], todo, left);
      TogetherProgress(env, one.world, calls[1..]);
      var rest := RunTogether(env, one.world, calls[1..]);
      ProgressJoin(env, w, one.world, rest.world, [one.result], rest.results, [], todo, left, todo, multiset{});
      ResultsJoin([one.result], rest.results, [calls[0]], calls[1..]);
      assert [calls[0]] + calls[1..] == calls;
    }
  }

  lemma ExecuteAnswers(env: Env, w: World, call: Call)
    ensures ResultOf(Execute(env, w, call).result, call)
  {
  }

  /** For each call preflighted, whether it was refused on the spot. */
  function Refusals(env: Env, w: World, calls: seq<Call>): (r: seq<bool>)
    ensures |r| <= |calls|
    decreases |calls|
  {
    if calls == [] then []
    else
      var pre := Preflight(env, w, calls[0]);
      var poll := PollSteering(env, pre.world);
      [pre.refused] + if poll.batch != [] then [] else Refusals(env, poll.world, calls[1..])
  }

  datatype Preflighted = Preflighted(world: World, refused: bool, results: seq<Message>)

  /** The start of one call in parallel mode, up to the poll after it. */
  function Preflight(env: Env, w: World, call: Call): Preflighted {
    var w1 := StartTool(w, call);
    var p := env.prepare(w1.clock);
    var w2 := Await(env, w1);
    if p.Runs? then Preflighted(w2, false, [])
    else
      var one := FinishTool(w2, call, Refusal(call, p), true);
      Preflighted(one.world, true, [one.result])
  }

  lemma ParallelUnfolds(env: Env, w: World, calls: seq<Call>, runnable: seq<Call>)
    requires calls != []
    ensures var pre := Preflight(env, w, calls[0]);
            var runnable' := if pre.refused then runnable else runnable + [calls[0]];
            var poll := PollSteering(env, pre.world);
            Parallel(env, w, calls, runnable) ==
            if poll.batch != [] then
              var prepared := Skip(poll.world, runnable', false);
              var remaining := Skip(prepared.world, calls[1..], true);
              Executed(remaining.world, pre.results + prepared.results + remaining.results, poll.batch)
            else
              var rest := Parallel(env, poll.world, calls[1..], runnable');
              Executed(rest.world, pre.results + rest.results, rest.steering)
  {
    hide PollSteering, Skip, FinishTool, StartTool, Await;
  }

  lemma SequentialUnfolds(env: Env, w: World, calls: seq<Call>)
    ensures Sequential(env, w, calls) ==
            if calls == [] then Executed(w, [], [])
            else
              var one := OneCall(env, w, calls[0]);
              var poll := PollSteering(env, one.world);
              if poll.batch != [] then
                var skipped := Skip(poll.world, calls[1..], true);
                Executed(skipped.world, [one.result] + skipped.results, poll.batch)
              else
                var rest := Sequential(env, poll.world, calls[1..]);
                Executed(rest.world, [one.result] + rest.results, rest.steering)
  {
    hide Execute, FinishTool, StartTool, PollSteering, Skip;
  }

  lemma ParallelEnds(env: Env, w: World, runnable: seq<Call>)
    ensures var ran := RunTogether(env, w, runnable);
            var poll := PollSteering(env, ran.world);
            Parallel(env, w, [], runnable) == Executed(poll.world, ran.results, poll.batch)
  {
    hide PollSteering, RunTogether;
  }

  function Select(calls: seq<Call>, flags: seq<bool>, want: bool): seq<Call>
    requires |flags| <= |calls|
    decreases |flags|
  {
    if flags == [] then []
    else (if flags[0] == want then [calls[0]] else []) + Select(calls[1..], flags[1..], want)
  }

  /** The order in which parallel results come: refused calls, then prepared
      ones, then those never preflighted. */
  function ParallelOrder(calls: seq<Call>, flags: seq<bool>, runnable: seq<Call>): seq<Call>
    requires |flags| <= |calls|
  {
    Select(calls, flags, true) + (runnable + Select(calls, flags, false)) + calls[|flags|..]
  }

  lemma OrderCons(calls: seq<Call>, flags: seq<bool>, runnable: seq<Call>)
    requires 0 < |flags| <= |calls|
    ensures ParallelOrder(calls, flags, runnable) ==
            (if flags[0] then [calls[0]] else [])
            + ParallelOrder(calls[1..], flags[1..], if flags[0] then runnable else runnable + [calls[0]])
  {
    var c, f := calls[1..], flags[1..];
    assert calls[|flags|..] == c[|f|..];
    var yes, no := Select(c, f, true), Select(c, f, false);
    if flags[0] {
      assert ([calls[0]] + yes) + (runnable + ([] + no)) + calls[|flags|..] ==
             [calls[0]] + (yes + (runnable + no) + c[|f|..]);
    } else {
      assert ([] + yes) + (runnable + ([calls[0]] + no)) + calls[|flags|..] ==
             [] + (yes + ((runnable + [calls[0]]) + no) + c[|f|..]);
    }
  }

  lemma IdsSnoc(calls: seq<Call>, call: Call)
    ensures Ids(calls + [call]) == Ids(calls) + multiset{call.id}
    ensures (Ids(calls) + multiset{call.id}) - multiset{call.id} == Ids(calls)
  {
    IdsAppend(calls, [call]);
    assert Ids([call]) == multiset{call.id} + Ids([]);
  }

  lemma PreflightProgress(env: Env, w: World, call: Call, runnable: seq<Call>)
    requires Ready(w) && call.id in Seen(w).todo && Seen(w).running == Ids(runnable)
    ensures var pre := Preflight(env, w, call);
            && ResultsOf(pre.results, if pre.refused then [call] else [])
            && Progress(env, w, pre.world, pre.results, [], Seen(w).todo - multiset{call.id},
                        Ids(if pre.refused then runnable else runnable + [call]))
  {
    hide ReadAll, Kept, Ids, Refusal;
    var w1 := StartTool(w, call);
    var p := env.prepare(w1.clock);
    var w2 := Await(env, w1);
    var todo, running := Seen(w).todo - multiset{call.id}, Seen(w).running + multiset{call.id};
    StartProgress(env, w, call);
    AwaitProgress(env, w1);
    ProgressJoin(env, w, w1, w2, [], [], [], todo, running, todo, running);
    IdsSnoc(runnable, call);
    if !p.Runs? {
      var one := FinishTool(w2, call, Refusal(call, p), true);
      FinishProgress(env, w2, call, Refusal(call, p), true);
      ProgressJoin(env, w, w2, one.world, [], [one.result], [], todo, running, todo, running - multiset{call.id});
      assert [] + [one.result] == [one.result];
    }
  }

  /** All at once: the results are a stable partition of the calls. */
  lemma {:induction false} ParallelProgress(env: Env, w: World, calls: seq<Call>, runnable: seq<Call>)
    requires Ready(w) && Seen(w).todo == Ids(calls) && Seen(w).running == Ids(runnable)
    ensures var r := Parallel(env, w, calls, runnable);
            && ResultsOf(r.results, ParallelOrder(calls, Refusals(env, w, calls), runnable))
            && Progress(env, w, r.world, r.results, r.steering, multiset{}, multiset{})
            && ((forall t :: OneAtATime(env, t)) ==> |r.steering| <= 1)
    decreases |calls|
  {
    hide ReadAll, Kept, Ids, Progress, FinishTool, StartTool, RunTogether, PollSteering, Skip, Preflight, ResultsOf,
        ParallelOrder, Parallel;
    if calls == [] {
      ParallelRuns(env, w, runnable);
    } else {
      ParallelUnfolds(env, w, calls, runnable);
      var pre := Preflight(env, w, calls[0]);
      var flags := Refusals(env, w, calls);
      var runnable' := if pre.refused then runnable else runnable + [calls[0]];
      var todo := Ids(calls[1..]);
      SubtractIds(calls, Seen(w).todo);
      PreflightProgress(env, w, calls[0], runnable);
      assert Seen(w).todo - multiset{calls[0].id} == todo by { IdsCons(calls); }
      ProgressSays(env, w, pre.world, pre.results, [], todo, Ids(runnable'));
      var poll := PollSteering(env, pre.world);
      PollProgress(env, pre.world);
      PollKeeps(env, pre.world);
      ProgressSays(env, pre.world, poll.world, [], poll.batch, todo, Ids(runnable'));
      ProgressJoin(env, w, pre.world, poll.world, pre.results, [], poll.batch, todo, Ids(runnable'), todo,
                   Ids(runnable'));
      assert pre.results + [] == pre.results;
      OrderCons(calls, flags, runnable);
      var head := if pre.refused then [calls[0]] else [];
      if poll.batch != [] {
        ParallelSkips(env, poll.world, calls[1..], runnable');
        var prepared := Skip(poll.world, runnable', false);
        var remaining := Skip(prepared.world, calls[1..], true);
        ProgressThen(env, w, poll.world, remaining.world, pre.results, prepared.results + remaining.results, poll.batch,
                     todo, Ids(runnable'), multiset{}, multiset{});
        assert pre.results + (prepared.results + remaining.results) ==
               pre.results + prepared.results + remaining.results;
        ResultsJoin(pre.results, prepared.results + remaining.results, head, ParallelOrder(calls[1..], [], runnable'));
        assert flags[1..] == [];
      } else {
        ParallelProgress(env, poll.world, calls[1..], runnable');
        var rest := Parallel(env, poll.world, calls[1..], runnable');
        ProgressJoin(env, w, poll.world, rest.world, pre.results, rest.results, rest.steering, todo, Ids(runnable'),
                     multiset{}, multiset{});
        assert flags[1..] == Refusals(env, poll.world, calls[1..]);
        ResultsJoin(pre.results, rest.results, head, ParallelOrder(calls[1..], flags[1..], runnable'));
      }
    }
  }

  lemma ParallelSkips(env: Env, w: World, calls: seq<Call>, runnable: seq<Call>)
    requires Ready(w) && Seen(w).todo == Ids(calls) && Seen(w).running == Ids(runnable)
    ensures var prepared := Skip(w, runnable, false);
            var remaining := Skip(prepared.world, calls, true);
            && ResultsOf(prepared.results + remaining.results, ParallelOrder(calls, [], runnable))
            && Progress(env, w, remaining.world, prepared.results + remaining.results, [], multiset{}, multiset{})
  {
    hide ReadAll, Kept, Ids, Progress, Skip;
    var prepared := Skip(w, runnable, false);
    SkipProgress(env, w, runnable, false);
    assert Ids(runnable) - Ids(runnable) == multiset{};
    ProgressSays(env, w, prepared.world, prepared.results, [], Ids(calls), multiset{});
    var remaining := Skip(prepared.world, calls, true);
    SkipProgress(env, prepared.world, calls, true);
    assert Ids(calls) - Ids(calls) == multiset{};
    ProgressJoin(env, w, prepared.world, remaining.world, prepared.results, remaining.results, [], Ids(calls),
                 multiset{}, multiset{}, multiset{});
    ResultsJoin(prepared.results, remaining.results, runnable, calls);
    assert ParallelOrder(calls, [], runnable) == runnable + calls;
  }

  lemma ParallelRuns(env: Env, w: World, runnable: seq<Call>)
    requires Ready(w) && Seen(w).todo == Ids([]) && Seen(w).running == Ids(runnable)
    ensures var r := Parallel(env, w, [], runnable);
            && ResultsOf(r.results, ParallelOrder([], Refusals(env, w, []), runnable))
            && Progress(env, w, r.world, r.results, r.steering, multiset{}, multiset{})
            && ((forall t :: OneAtATime(env, t)) ==> |r.steering| <= 1)
  {
    hide ReadAll, Kept, Ids, Progress, RunTogether, PollSteering;
    NoIds();
    var ran := RunTogether(env, w, runnable);
    TogetherProgress(env, w, runnable);
    ProgressSays(env, w, ran.world, ran.results, [], multiset{}, multiset{});
    var poll := PollSteering(env, ran.world);
    PollProgress(env, ran.world);
    PollKeeps(env, ran.world);
    ProgressJoin(env, w, ran.world, poll.world, ran.results, [], poll.batch, multiset{}, multiset{}, multiset{},
                 multiset{});
    assert ran.results + [] == ran.results;
    assert ParallelOrder([], [], runnable) == runnable;
  }

  /** Whether no prepared call comes before a refused one. */
  predicate RefusedFirst(flags: seq<bool>) {
    forall i, j :: 0 <= i < j < |flags| && flags[j] ==> flags[i]
  }

  predicate Distinct(calls: seq<Call>) {
    forall i, j :: 0 <= i < j < |calls| ==> calls[i] != calls[j]
  }

  lemma {:induction false} SelectAll(calls: seq<Call>, flags: seq<bool>, want: bool)
    requires |flags| <= |calls| && forall i :: 0 <= i < |flags| ==> flags[i] == want
    ensures Select(calls, flags, want) == calls[..|flags|] && Select(calls, flags, !want) == []
    decreases |flags|
  {
    if flags != [] {
      SelectAll(calls[1..], flags[1..], want);
      assert calls[..|flags|] == [calls[0]] + calls[1..][..|flags[1..]|];
    }
  }

  lemma {:induction false} SelectIsFrom(calls: seq<Call>, flags: seq<bool>, want: bool)
    requires |flags| <= |calls|
    ensures |Select(calls, flags, want)| <= |flags|
    ensures Select(calls, flags, want) != [] ==>
              exists k :: 0 <= k < |flags| && flags[k] == want && calls[k] == Select(calls, flags, want)[0]
    ensures (exists k :: 0 <= k < |flags| && flags[k] == want) ==> Select(calls, flags, want) != []
    decreases |flags|
  {
    if flags != [] {
      var tail := Select(calls[1..], flags[1..], want);
      SelectIsFrom(calls[1..], flags[1..], want);
      SelectStep(calls, flags, want);
      hide Select;
      if flags[0] != want {
        if tail != [] {
          var k :| 0 <= k < |flags[1..]| && flags[1..][k] == want && calls[1..][k] == tail[0];
          assert flags[k + 1] == want && calls[k + 1] == tail[0];
        }
        if k :| 0 <= k < |flags| && flags[k] == want {
          assert flags[1..][k - 1] == want;
        }
      }
    }
  }

  lemma SelectStep(calls: seq<Call>, flags: seq<bool>, want: bool)
    requires 0 < |flags| <= |calls|
    ensures var tail := Select(calls[1..], flags[1..], want);
            Select(calls, flags, want) == if flags[0] == want then [calls[0]] + tail else tail
  {
  }

  /** The partition is the order of the calls exactly when no call was prepared
      before one that was refused. */
  lemma {:induction false} OrderExactlyWhenRefusedFirst(calls: seq<Call>, flags: seq<bool>)
    requires |flags| <= |calls| && Distinct(calls)
    ensures ParallelOrder(calls, flags, []) == calls <==> RefusedFirst(flags)
    decreases |flags|
  {
    hide ParallelOrder, Select;
    if flags == [] {
      NothingFlagged(calls);
    } else if flags[0] {
      OrderExactlyWhenRefusedFirst(calls[1..], flags[1..]);
      OrderCons(calls, flags, []);
      assert calls == [calls[0]] + calls[1..];
      FirstAndRest(calls[0], ParallelOrder(calls[1..], flags[1..], []));
      assert forall i :: 0 < i < |flags| ==> flags[i] == flags[1..][i - 1];
    } else if RefusedFirst(flags) {
      AllPrepared(calls, flags);
    } else {
      var i, j :| 0 <= i < j < |flags| && flags[j] && !flags[i];
      RefusedComesFirst(calls, flags);
    }
  }

  lemma NothingFlagged(calls: seq<Call>)
    ensures ParallelOrder(calls, [], []) == calls
  {
  }

  lemma AllPrepared(calls: seq<Call>, flags: seq<bool>)
    requires |flags| <= |calls| && forall i :: 0 <= i < |flags| ==> !flags[i]
    ensures ParallelOrder(calls, flags, []) == calls
  {
    hide Select;
    SelectAll(calls, flags, false);
    assert [] + ([] + calls[..|flags|]) + calls[|flags|..] == calls;
  }

  lemma RefusedComesFirst(calls: seq<Call>, flags: seq<bool>)
    requires 0 < |flags| <= |calls| && Distinct(calls) && !flags[0] && exists k :: 0 <= k < |flags| && flags[k]
    ensures ParallelOrder(calls, flags, []) != calls
  {
    hide Select;
    SelectIsFrom(calls, flags, true);
    var k :| 0 <= k < |flags| && flags[k] && calls[k] == Select(calls, flags, true)[0];
    assert ParallelOrder(calls, flags, [])[0] == calls[k] != calls[0];
  }

  lemma ResultsTell(results: seq<Message>, x: seq<Call>, y: seq<Call>)
    requires ResultsOf(results, x)
    ensures ResultsOf(results, y) <==> x == y
  {
    if ResultsOf(results, y) {
      forall i | 0 <= i < |x|
        ensures x[i] == y[i]
      {
        assert ResultOf(results[i], x[i]) && ResultOf(results[i], y[i]);
      }
    }
  }

  /** The results of a parallel execution come in the order of the calls exactly
      when no call was prepared before one that was refused on the spot: the
      order the documentation promises is not kept otherwise. */
  lemma SourceOrderExactlyWhenRefusedFirst(env: Env, w: World, calls: seq<Call>)
    requires Ready(w) && Seen(w).todo == Ids(calls) && Seen(w).running == multiset{} && Distinct(calls)
    ensures ResultsOf(Parallel(env, w, calls, []).results, calls) <==> RefusedFirst(Refusals(env, w, calls))
  {
    hide ReadAll, Progress, Parallel, Ids, ParallelOrder, ResultsOf, Refusals, RefusedFirst;
    assert Ids([]) == multiset{} by { NoIds(); }
    ParallelProgress(env, w, calls, []);
    var flags := Refusals(env, w, calls);
    ResultsTell(Parallel(env, w, calls, []).results, ParallelOrder(calls, flags, []), calls);
    OrderExactlyWhenRefusedFirst(calls, flags);
  }
}
