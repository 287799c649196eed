/** When the Agent's set of pending tool calls is exactly the running calls. */
module AgentPending {
  import opened AgentModel
  import opened AgentGrammar
  import opened AgentTools
  import opened AgentRuns
  import opened AgentFold

  // ---- on a log ----------------------------------------------------------------------

  /** No other call of its id is running when a call ends. */
  predicate Alone(m: Monitor, a: Action) {
    a.Emit? && a.event.ToolEnd? ==> m.running[a.event.id] <= 1
  }

  predicate EndsAlone(log: seq<Action>) {
    log == [] || (EndsAlone(log[..|log| - 1]) && Alone(ReadAll(log[..|log| - 1]), log[|log| - 1]))
  }

  /** After `n` actions the set holds the running calls and no others. */
  ghost predicate ExactAfter(s: AgentState, log: seq<Action>, n: nat)
    requires n <= |log|
  {
    IsSupport(HandleAll(s, Streamed(log[..n])).pendingToolCalls, ReadAll(log[..n]).running)
  }

  ghost predicate ExactThroughout(s: AgentState, log: seq<Action>) {
    forall n: nat :: n <= |log| ==> ExactAfter(s, log, n)
  }

  lemma ExactSnoc(s: AgentState, log: seq<Action>)
    requires log != []
    ensures ExactThroughout(s, log) <==> ExactThroughout(s, log[..|log| - 1]) && ExactAfter(s, log, |log|)
  {
    hide HandleAll, Streamed, ReadAll, IsSupport;
    var before := log[..|log| - 1];
    forall n: nat | n <= |before|
      ensures ExactAfter(s, log, n) <==> ExactAfter(s, before, n)
    {
      assert before[..n] == log[..n];
    }
  }

  /** An exact set stays exact unless one of several calls of an id ends. */
  lemma SupportExactly(m: Monitor, s: AgentState, a: Action)
    requires Orderly(m) && Read(m, a).ok && IsSupport(s.pendingToolCalls, m.running)
    ensures IsSupport((if a.Emit? then Handle(s, a.event) else s).pendingToolCalls, Read(m, a).running) <==> Alone(m, a)
  {
    hide Read, Orderly, CallsOf, Stopped, Ids;
    var s' := if a.Emit? then Handle(s, a.event) else s;
    forall id: string
      ensures (id in s'.pendingToolCalls <==> id in Read(m, a).running)
              <==> !(a.Emit? && a.event.ToolEnd? && a.event.id == id) || m.running[id] <= 1
    {
      CountsStep(m, a, id);
    }
    if a.Emit? && a.event.ToolEnd? {
      assert a.event.id !in s'.pendingToolCalls;
    }
  }

  /** The set is exact throughout a run exactly when no call ends while another
      of its id is running. */
  lemma {:induction false} PendingExactlyWhenAlone(s: AgentState, log: seq<Action>)
    requires ReadAll(log).ok && s.pendingToolCalls == {}
    ensures ExactThroughout(s, log) <==> EndsAlone(log)
    decreases |log|
  {
    hide ReadAll, Read, HandleAll, Handle, Streamed, Orderly, IsSupport, Alone, ExactThroughout;
    if log == [] {
      ExactAtFirst(s);
    } else {
      var before, a := log[..|log| - 1], log[|log| - 1];
      FoldNext(s, log);
      PendingFold(s, before);
      PendingExactlyWhenAlone(s, before);
      ExactSnoc(s, log);
      assert log[..|log|] == log;
      if ExactThroughout(s, before) {
        ExactAtEnd(s, before);
        SupportExactly(ReadAll(before), HandleAll(s, Streamed(before)), a);
      }
    }
  }

  /** So it is when no response repeats a call id. */
  lemma DistinctIdsAreExact(s: AgentState, log: seq<Action>)
    requires ReadAll(log).ok && s.pendingToolCalls == {} && DistinctIds(log)
    ensures ExactThroughout(s, log)
  {
    hide ReadAll, DistinctIds, ExactThroughout, EndsAlone;
    DistinctIdsEndAlone(log);
    PendingExactlyWhenAlone(s, log);
  }

  lemma {:induction false} DistinctIdsEndAlone(log: seq<Action>)
    requires ReadAll(log).ok && DistinctIds(log)
    ensures EndsAlone(log)
    decreases |log|
  {
    hide ReadAll, DistinctIds;
    if log != [] {
      OkPrefix(log, |log| - 1);
      DistinctBefore(log);
      DistinctIdsEndAlone(log[..|log| - 1]);
      var a := log[|log| - 1];
      if a.Emit? && a.event.ToolEnd? {
        RunsOnce(log[..|log| - 1], a.event.id);
      }
    }
  }

  lemma ExactAtFirst(s: AgentState)
    requires s.pendingToolCalls == {}
    ensures ExactThroughout(s, []) && EndsAlone([])
  {
    NothingHandled(s);
  }

  lemma ExactAtEnd(s: AgentState, log: seq<Action>)
    requires ExactThroughout(s, log)
    ensures IsSupport(HandleAll(s, Streamed(log)).pendingToolCalls, ReadAll(log).running)
  {
    hide HandleAll, Streamed, ReadAll, IsSupport;
    assert ExactAfter(s, log, |log|) && log[..|log|] == log;
  }

  // ---- what each step of the loop adds --------------------------------------------------

  lemma AlonePush(w: World, a: Action)
    ensures EndsAlone(Push(w, a).log) <==> EndsAlone(w.log) && Alone(Seen(w), a)
  {
    assert (w.log + [a])[..|w.log|] == w.log;
  }

  lemma StartAlone(w: World, call: Call)
    ensures EndsAlone(StartTool(w, call).log) <==> EndsAlone(w.log)
  {
    hide EndsAlone, ReadAll;
    AlonePush(w, Emit(ToolStart(call.id, call.name)));
  }

  lemma AnnounceAlone(w: World, m: Message)
    ensures EndsAlone(Announce(w, m).log) <==> EndsAlone(w.log)
  {
    hide EndsAlone, ReadAll;
    AlonePush(w, Emit(MessageStart(m)));
    AlonePush(Send(w, MessageStart(m)), Emit(MessageEnd(m)));
  }

  lemma FinishAlone(w: World, call: Call, output: Output, isError: bool)
    ensures EndsAlone(FinishTool(w, call, output, isError).world.log)
            <==> EndsAlone(w.log) && Seen(w).running[call.id] <= 1
  {
    hide EndsAlone, ReadAll;
    var e := ToolEnd(call.id, output, isError);
    AlonePush(w, Emit(e));
    AnnounceAlone(Send(w, e), FinishTool(w, call, output, isError).result);
  }

  lemma PollAlone(env: Env, w: World)
    ensures EndsAlone(PollSteering(env, w).world.log) <==> EndsAlone(w.log)
  {
    hide EndsAlone, ReadAll, Dequeue;
    var p := PollSteering(env, w);
    AlonePush(Await(env, w), SteeringPolled(p.batch));
  }

  lemma {:induction false} UpdatesAlone(w: World, call: Call, n: nat)
    ensures EndsAlone(Updates(w, call, n).log) <==> EndsAlone(w.log)
  {
    hide EndsAlone, ReadAll;
    if n > 0 {
      UpdatesAlone(w, call, n - 1);
      AlonePush(Updates(w, call, n - 1), Emit(ToolUpdate(call.id)));
    }
  }

  lemma ExecuteAlone(env: Env, w: World, call: Call)
    requires Ready(w) && call.id in Seen(w).running
    ensures EndsAlone(Execute(env, w, call).world.log) <==> EndsAlone(w.log) && Seen(w).running[call.id] <= 1
  {
    hide EndsAlone, ReadAll, Progress, FinishTool, Updates;
    var e := env.execute(w.clock);
    var w1 := Await(env, w);
    var w2 := Updates(w1, call, e.updates);
    AwaitProgress(env, w);
    ProgressSays(env, w, w1, [], [], Seen(w).todo, Seen(w).running);
    UpdatesProgress(env, w1, call, e.updates);
    ProgressSays(env, w1, w2, [], [], Seen(w).todo, Seen(w).running);
    UpdatesAlone(w1, call, e.updates);
    FinishAlone(w2, call, Amended(e).0, Amended(e).1);
  }

  lemma {:induction false} InterleaveAlone(w: World, running: seq<Call>, picks: seq<nat>)
    requires running != []
    ensures EndsAlone(Interleave(w, running, picks).log) <==> EndsAlone(w.log)
    decreases |picks|
  {
    hide EndsAlone, ReadAll;
    if picks != [] {
      var id := running[picks[0] % |running|].id;
      AlonePush(w, Emit(ToolUpdate(id)));
      InterleaveAlone(Send(w, ToolUpdate(id)), running, picks[1..]);
    }
  }

  // ---- tools ------------------------------------------------------------------------------

  predicate IdsApart(calls: seq<Call>) {
    calls == [] || (calls[0].id !in Ids(calls[1..]) && IdsApart(calls[1..]))
  }

  lemma FirstIsAlone(calls: seq<Call>)
    requires calls != []
    ensures Ids(calls)[calls[0].id] <= 1 <==> calls[0].id !in Ids(calls[1..])
    ensures Ids(calls) - multiset{calls[0].id} == Ids(calls[1..])
  {
  }

  lemma {:induction false} SkipStartedAlone(env: Env, w: World, calls: seq<Call>)
    requires Ready(w) && Seen(w).running == Ids(calls)
    ensures EndsAlone(Skip(w, calls, false).world.log) <==> EndsAlone(w.log) && IdsApart(calls)
    decreases |calls|
  {
    hide EndsAlone, ReadAll, Progress, FinishTool, Ids;
    if calls != [] {
      var output := ErrorOutput("Skipped due to queued user message.");
      var one := FinishTool(w, calls[0], output, true);
      SubtractIds(calls, Ids(calls));
      FirstIsAlone(calls);
      FinishAlone(w, calls[0], output, true);
      FinishProgress(env, w, calls[0], output, true);
      ProgressSays(env, w, one.world, [one.result], [], Seen(w).todo, Ids(calls[1..]));
      SkipStartedAlone(env, one.world, calls[1..]);
    }
  }

  lemma {:induction false} SkipOthersAlone(env: Env, w: World, calls: seq<Call>)
    requires Ready(w) && Seen(w).running == multiset{} && Ids(calls) <= Seen(w).todo
    ensures EndsAlone(Skip(w, calls, true).world.log) <==> EndsAlone(w.log)
    decreases |calls|
  {
    hide EndsAlone, ReadAll, Progress, FinishTool, StartTool, Ids;
    if calls != [] {
      var output := ErrorOutput("Skipped due to queued user message.");
      var call, todo := calls[0], Seen(w).todo;
      var w1 := StartTool(w, call);
      var one := FinishTool(w1, call, output, true);
      SubtractIds(calls, todo);
      StartAlone(w, call);
      StartProgress(env, w, call);
      assert multiset{} + multiset{call.id} == multiset{call.id};
      ProgressSays(env, w, w1, [], [], todo - multiset{call.id}, multiset{call.id});
      FinishAlone(w1, call, output, true);
      FinishProgress(env, w1, call, output, true);
      ProgressSays(env, w1, one.world, [one.result], [], todo - multiset{call.id},
                   multiset{call.id} - multiset{call.id});
      assert multiset{call.id} - multiset{call.id} == multiset{};
      SkipOthersAlone(env, one.world, calls[1..]);
    }
  }

  lemma {:induction false} TogetherAlone(env: Env, w: World, calls: seq<Call>)
    requires Ready(w) && Seen(w).running == Ids(calls)
    ensures EndsAlone(RunTogether(env, w, calls).world.log) <==> EndsAlone(w.log) && IdsApart(calls)
    decreases |calls|
  {
    hide EndsAlone, ReadAll, Progress, Execute, Interleave, Ids;
    if calls != [] {
      var todo := Seen(w).todo;
      var w1 := Interleave(w, calls, env.interleaved(w.clock));
      InterleaveAlone(w, calls, env.interleaved(w.clock));
      InterleaveProgress(env, w, calls, env.interleaved(w.clock));
      ProgressSays(env, w, w1, [], [], todo, Ids(calls));
      SubtractIds(calls, Ids(calls));
      FirstIsAlone(calls);
      ExecuteAlone(env, w1, calls[0]);
      ExecuteProgress(env, w1, calls[0]);
      var one := Execute(env, w1, calls[0]);
      ProgressSays(env, w1, one.world, [one.result], [], todo, Ids(calls[1..]));
      TogetherAlone(env, one.world, calls[1..]);
    }
  }

  lemma OneCallAlone(env: Env, w: World, call: Call)
    requires Ready(w) && call.id in Seen(w).todo && Seen(w).running == multiset{}
    ensures EndsAlone(OneCall(env, w, call).world.log) <==> EndsAlone(w.log)
  {
    hide EndsAlone, ReadAll, Progress, FinishTool, StartTool, Execute, Refusal;
    var w1 := StartTool(w, call);
    var p := env.prepare(w1.clock);
    var w2 := Await(env, w1);
    var todo := Seen(w).todo - multiset{call.id};
    StartAlone(w, call);
    StartProgress(env, w, call);
    assert multiset{} + multiset{call.id} == multiset{call.id};
    ProgressSays(env, w, w1, [], [], todo, multiset{call.id});
    AwaitProgress(env, w1);
    ProgressSays(env, w1, w2, [], [], todo, multiset{call.id});
    assert w2.log == w1.log;
    if p.Runs? {
      ExecuteAlone(env, w2, call);
    } else {
      FinishAlone(w2, call, Refusal(call, p), true);
    }
  }

  /** One at a time, every call ends alone, whatever the ids. */
  lemma {:induction false} SequentialAlone(env: Env, w: World, calls: seq<Call>)
    requires Ready(w) && Seen(w).todo == Ids(calls) && Seen(w).running == multiset{}
    ensures EndsAlone(Sequential(env, w, calls).world.log) <==> EndsAlone(w.log)
    decreases |calls|
  {
    hide EndsAlone, ReadAll, Progress, OneCall, PollSteering, Skip, Sequential, Ids;
    SequentialUnfolds(env, w, calls);
    if calls != [] {
      var call, todo := calls[0], Ids(calls[1..]);
      SubtractIds(calls, Ids(calls));
      FirstIsAlone(calls);
      var one := OneCall(env, w, call);
      OneCallAlone(env, w, call);
      OneCallProgress(env, w, call);
      ProgressSays(env, w, one.world, [one.result], [], todo, multiset{});
      var poll := PollSteering(env, one.world);
      PollAlone(env, one.world);
      PollProgress(env, one.world);
      ProgressSays(env, one.world, poll.world, [], poll.batch, todo, multiset{});
      if poll.batch != [] {
        SkipOthersAlone(env, poll.world, calls[1..]);
      } else {
        SequentialAlone(env, poll.world, calls[1..]);
      }
    }
  }

  /** With `runnable` prepared already: every call preflighted next has an id of
      its own among those prepared before it, and those prepared end up apart. */
  predicate Apart(calls: seq<Call>, flags: seq<bool>, runnable: seq<Call>)
    requires |flags| <= |calls|
    decreases |flags|
  {
    if flags == [] then IdsApart(runnable)
    else if flags[0] then calls[0].id !in Ids(runnable) && Apart(calls[1..], flags[1..], runnable)
    else Apart(calls[1..], flags[1..], runnable + [calls[0]])
  }

  lemma PreflightAlone(env: Env, w: World, call: Call, runnable: seq<Call>)
    requires Ready(w) && call.id in Seen(w).todo && Seen(w).running == Ids(runnable)
    ensures var pre := Preflight(env, w, call);
            EndsAlone(pre.world.log) <==> EndsAlone(w.log) && (pre.refused ==> call.id !in Ids(runnable))
  {
    hide EndsAlone, ReadAll, Progress, FinishTool, StartTool, Refusal, Ids;
    var w1 := StartTool(w, call);
    var p := env.prepare(w1.clock);
    var w2 := Await(env, w1);
    var todo, running := Seen(w).todo - multiset{call.id}, Ids(runnable) + multiset{call.id};
    StartAlone(w, call);
    StartProgress(env, w, call);
    ProgressSays(env, w, w1, [], [], todo, running);
    AwaitProgress(env, w1);
    ProgressSays(env, w1, w2, [], [], todo, running);
    assert w2.log == w1.log;
    if !p.Runs? {
      FinishAlone(w2, call, Refusal(call, p), true);
    }
  }

  lemma {:induction false} ParallelAlone(env: Env, w: World, calls: seq<Call>, runnable: seq<Call>)
    requires Ready(w) && Seen(w).todo == Ids(calls) && Seen(w).running == Ids(runnable)
    ensures EndsAlone(Parallel(env, w, calls, runnable).world.log)
            <==> EndsAlone(w.log) && Apart(calls, Refusals(env, w, calls), runnable)
    decreases |calls|
  {
    hide EndsAlone, ReadAll, Progress, PollSteering, Skip, Preflight, RunTogether, Parallel, Ids, IdsApart;
    if calls == [] {
      ParallelEnds(env, w, runnable);
      TogetherAlone(env, w, runnable);
      PollAlone(env, RunTogether(env, w, runnable).world);
    } else {
      ParallelUnfolds(env, w, calls, runnable);
      var call, todo := calls[0], Ids(calls[1..]);
      var pre := Preflight(env, w, call);
      var runnable' := if pre.refused then runnable else runnable + [call];
      SubtractIds(calls, Ids(calls));
      FirstIsAlone(calls);
      PreflightAlone(env, w, call, runnable);
      PreflightProgress(env, w, call, runnable);
      ProgressSays(env, w, pre.world, pre.results, [], todo, Ids(runnable'));
      var poll := PollSteering(env, pre.world);
      PollAlone(env, pre.world);
      PollProgress(env, pre.world);
      ProgressSays(env, pre.world, poll.world, [], poll.batch, todo, Ids(runnable'));
      if poll.batch != [] {
        BothSkipsAlone(env, poll.world, calls[1..], runnable');
        assert Refusals(env, w, calls) == [pre.refused];
      } else {
        ParallelAlone(env, poll.world, calls[1..], runnable');
        assert Refusals(env, w, calls)[1..] == Refusals(env, poll.world, calls[1..]);
      }
    }
  }

  lemma BothSkipsAlone(env: Env, w: World, calls: seq<Call>, runnable: seq<Call>)
    requires Ready(w) && Seen(w).todo == Ids(calls) && Seen(w).running == Ids(runnable)
    ensures var prepared := Skip(w, runnable, false);
            EndsAlone(Skip(prepared.world, calls, true).world.log) <==> EndsAlone(w.log) && IdsApart(runnable)
  {
    hide EndsAlone, ReadAll, Progress, Skip, Ids, IdsApart;
    var prepared := Skip(w, runnable, false);
    SkipStartedAlone(env, w, runnable);
    SkipProgress(env, w, runnable, false);
    assert Ids(runnable) - Ids(runnable) == multiset{};
    ProgressSays(env, w, prepared.world, prepared.results, [], Ids(calls), multiset{});
    SkipOthersAlone(env, prepared.world, calls);
  }

  /** No call was prepared before another preflighted call of its id. */
  predicate Separate(calls: seq<Call>, flags: seq<bool>)
    requires |flags| <= |calls|
  {
    forall i, j :: 0 <= i < j < |flags| && calls[i].id == calls[j].id ==> flags[i]
  }

  predicate Among(calls: seq<Call>, id: string) {
    exists i :: 0 <= i < |calls| && calls[i].id == id
  }

  lemma {:induction false} AmongIds(calls: seq<Call>, id: string)
    ensures id in Ids(calls) <==> Among(calls, id)
    decreases |calls|
  {
    if calls != [] {
      AmongIds(calls[1..], id);
      if Among(calls[1..], id) {
        var i :| 0 <= i < |calls[1..]| && calls[1..][i].id == id;
        assert calls[i + 1].id == id;
      }
      if Among(calls, id) && calls[0].id != id {
        var i :| 0 <= i < |calls| && calls[i].id == id;
        assert calls[1..][i - 1].id == id;
      }
    }
  }

  lemma {:induction false} ApartSnoc(calls: seq<Call>, call: Call)
    ensures IdsApart(calls + [call]) <==> IdsApart(calls) && !Among(calls, call.id)
    decreases |calls|
  {
    hide Ids;
    var all := calls + [call];
    if calls == [] {
      assert all[1..] == [];
      NoIds();
    } else {
      assert all[1..] == calls[1..] + [call];
      ApartSnoc(calls[1..], call);
      IdsSnoc(calls[1..], call);
      AmongCons(calls, call.id);
    }
  }

  lemma AmongCons(calls: seq<Call>, id: string)
    requires calls != []
    ensures Among(calls, id) <==> calls[0].id == id || Among(calls[1..], id)
  {
    AmongIds(calls, id);
    AmongIds(calls[1..], id);
  }

  lemma {:induction false} ApartSays(calls: seq<Call>, flags: seq<bool>, runnable: seq<Call>)
    requires |flags| <= |calls|
    ensures Apart(calls, flags, runnable) <==>
            IdsApart(runnable) && Separate(calls, flags) && forall j :: 0 <= j < |flags| ==>
                !Among(runnable, calls[j].id)
    decreases |flags|
  {
    hide Ids, IdsApart, Among;
    if flags != [] {
      var call, rest, others := calls[0], calls[1..], flags[1..];
      SeparateCons(calls, flags);
      assert forall j :: 0 <= j < |others| ==> rest[j] == calls[j + 1];
      if flags[0] {
        ApartSays(rest, others, runnable);
        AmongIds(runnable, call.id);
        assert forall j :: 0 < j < |flags| ==> calls[j] == rest[j - 1];
      } else {
        ApartSays(rest, others, runnable + [call]);
        ApartSnoc(runnable, call);
        forall j | 0 <= j < |others|
          ensures Among(runnable + [call], rest[j].id) <==> Among(runnable, rest[j].id) || call.id == rest[j].id
        {
          AmongSnoc(runnable, call, rest[j].id);
        }
        assert forall j :: 0 < j < |flags| ==> calls[j] == rest[j - 1];
      }
    }
  }

  lemma AmongSnoc(calls: seq<Call>, call: Call, id: string)
    ensures Among(calls + [call], id) <==> Among(calls, id) || call.id == id
  {
    AmongIds(calls, id);
    AmongIds(calls + [call], id);
    IdsSnoc(calls, call);
  }

  lemma SeparateCons(calls: seq<Call>, flags: seq<bool>)
    requires 0 < |flags| <= |calls|
    ensures Separate(calls, flags) <==>
            Separate(calls[1..], flags[1..])
                && (flags[0] || forall j :: 0 <= j < |flags[1..]| ==> calls[1..][j].id != calls[0].id)
  {
    var rest, others := calls[1..], flags[1..];
    assert forall j :: 0 <= j < |others| ==> rest[j] == calls[j + 1] && others[j] == flags[j + 1];
    if Separate(rest, others) && (flags[0] || forall j :: 0 <= j < |others| ==> rest[j].id != calls[0].id) {
      forall i, j | 0 <= i < j < |flags| && calls[i].id == calls[j].id
        ensures flags[i]
      {
        assert calls[j] == rest[j - 1];
        if i > 0 {
          assert calls[i] == rest[i - 1] && flags[i] == others[i - 1];
        }
      }
    }
    if Separate(calls, flags) {
      forall i, j | 0 <= i < j < |others| && rest[i].id == rest[j].id
        ensures others[i]
      {
        assert calls[i + 1].id == calls[j + 1].id;
      }
    }
  }

  /** What can be told of a response's calls before they end: sequential
      execution never lets two run at once; parallel execution does exactly when
      a call is prepared before another preflighted call of its id. */
  predicate CallsApart(env: Env, w: World, calls: seq<Call>) {
    env.sequential || Separate(calls, Refusals(env, w, calls))
  }

  lemma ToolsAlone(env: Env, w: World, calls: seq<Call>)
    requires Ready(w) && Seen(w).todo == Ids(calls) && Seen(w).running == multiset{}
    ensures EndsAlone(ExecuteTools(env, w, calls).world.log) <==> EndsAlone(w.log) && CallsApart(env, w, calls)
  {
    hide EndsAlone, ReadAll, Sequential, Parallel, Ids, Separate, Among, Refusals;
    if env.sequential {
      SequentialAlone(env, w, calls);
    } else {
      assert Ids([]) == multiset{} by { NoIds(); }
      ParallelAlone(env, w, calls, []);
      ApartSays(calls, Refusals(env, w, calls), []);
      assert forall id :: !Among([], id) by { hide *; NoneAmong(); }
    }
  }

  lemma NoneAmong()
    ensures forall id :: !Among([], id)
  {
  }

  // ---- runs ---------------------------------------------------------------------------------

  lemma {:induction false} InjectAlone(w: World, pending: seq<Message>)
    ensures EndsAlone(Inject(w, pending).log) <==> EndsAlone(w.log)
    decreases |pending|
  {
    hide EndsAlone;
    if pending != [] {
      var w1 := Announce(w, pending[0]);
      AnnounceAlone(w, pending[0]);
      InjectAlone(w1.(context := w1.context + [pending[0]], newMessages := w1.newMessages + [pending[0]]),
                  pending[1..]);
    }
  }

  lemma {:induction false} AnnounceAllAlone(w: World, messages: seq<Message>)
    ensures EndsAlone(AnnounceAll(w, messages).log) <==> EndsAlone(w.log)
    decreases |messages|
  {
    hide EndsAlone;
    if messages != [] {
      AnnounceAlone(w, messages[0]);
      AnnounceAllAlone(Announce(w, messages[0]), messages[1..]);
    }
  }

  /** Nothing but the end of a call can be out of place here. */
  lemma OtherAlone(w: World, a: Action)
    requires !(a.Emit? && a.event.ToolEnd?)
    ensures EndsAlone(Push(w, a).log) <==> EndsAlone(w.log)
  {
    hide EndsAlone, ReadAll;
    AlonePush(w, a);
  }

  lemma {:induction false} StreamAlone(w: World, chunks: seq<Chunk>, final: Message, added: bool)
    requires added ==> w.context != []
    ensures EndsAlone(StreamChunks(w, chunks, final, added).world.log) <==> EndsAlone(w.log)
    decreases |chunks|
  {
    hide EndsAlone;
    if chunks != [] {
      match chunks[0]
      case Started(p) =>
        var v := w.(context := w.context + [p]);
        OtherAlone(v, Emit(MessageStart(p)));
        StreamAlone(Send(v, MessageStart(p)), chunks[1..], final, true);
      case Updated(p) =>
        if added {
          var v := w.(context := w.context[|w.context| - 1 := p]);
          OtherAlone(v, Emit(MessageUpdate(p)));
          StreamAlone(Send(v, MessageUpdate(p)), chunks[1..], final, true);
        } else {
          StreamAlone(w, chunks[1..], final, false);
        }
      case Ended =>
        if added {
          OtherAlone(w.(context := w.context[|w.context| - 1 := final]), Emit(MessageEnd(final)));
        } else {
          var v := w.(context := w.context + [final]);
          OtherAlone(v, Emit(MessageStart(final)));
          OtherAlone(Send(v, MessageStart(final)), Emit(MessageEnd(final)));
        }
    }
  }

  lemma RespondAlone(env: Env, w: World)
    ensures EndsAlone(Respond(env, w).world.log) <==> EndsAlone(w.log)
  {
    hide EndsAlone, StreamChunks, Announce;
    OtherAlone(Await(env, w), ModelCalled);
    var called := Push(Await(env, w), ModelCalled);
    match env.reply(w.clock)
    case Streams(chunks, final) => StreamAlone(called, chunks, final, false);
    case Throws(error, aborted) => AnnounceAlone(called, Assistant([], if aborted then Aborted else Failed, error));
  }

  /** The response of a turn, entered in the run's messages. */
  function Responding(env: Env, w: World, pending: seq<Message>, first: bool): Response {
    var r := Respond(env, Inject(if first then w else Send(w, TurnStart), pending));
    Response(r.world.(newMessages := r.world.newMessages + [r.message]), r.message)
  }

  predicate TurnApart(env: Env, w: World, pending: seq<Message>, first: bool) {
    var r := Responding(env, w, pending, first);
    Stopped(r.message) || CallsApart(env, r.world, CallsOf(r.message))
  }

  /** Turn by turn, as the run is watched. */
  predicate RoundsApart(env: Env, w: World, pending: seq<Message>, first: bool, more: bool, rounds: nat)
    decreases rounds
  {
    if rounds == 0 then true
    else if more || pending != [] then
      var t := Turn(env, w, pending, first);
      TurnApart(env, w, pending, first)
      && (t.stopped || RoundsApart(env, t.world, t.pending, false, t.more, rounds - 1))
    else
      var poll := PollFollowUps(env, w);
      poll.batch == [] || RoundsApart(env, poll.world, poll.batch, first, true, rounds - 1)
  }

  predicate RunApart(env: Env, before: seq<Message>, prompts: seq<Message>, steering: seq<Message>,
                     followUps: seq<Message>,
                     skipPoll: bool, rounds: nat)
  {
    var poll := FirstPoll(env, before, prompts, steering, followUps, skipPoll);
    RoundsApart(env, poll.world, poll.batch, true, true, rounds)
  }

  lemma NoCallsApart(env: Env, w: World)
    ensures CallsApart(env, w, [])
  {
  }

  lemma TurnAlone(env: Env, s: Start, w: World, pending: seq<Message>, first: bool, more: bool)
    requires GoodEnv(env) && Head(env, s, w, pending, first, more)
    ensures EndsAlone(Turn(env, w, pending, first).world.log) <==> EndsAlone(w.log) && TurnApart(env, w, pending, first)
  {
    hide EndsAlone, ReadAll, Head, Inject, Respond, ExecuteTools, PollSteering, Ids, CallsApart, CallsOf, Stopped,
        Balanced;
    TurnResponds(env, s, w, pending, first, more);
    var w1 := if first then w else Send(w, TurnStart);
    OtherAlone(w, Emit(TurnStart));
    InjectAlone(w1, pending);
    RespondAlone(env, Inject(w1, pending));
    var r := Responding(env, w, pending, first);
    var calls := CallsOf(r.message);
    if Stopped(r.message) {
      OtherAlone(r.world, Emit(TurnEnd(r.message, [])));
      var w3 := Send(r.world, TurnEnd(r.message, []));
      OtherAlone(w3, Emit(AgentEnd(w3.newMessages)));
    } else {
      if calls != [] {
        ToolsAlone(env, r.world, calls);
      } else {
        NoCallsApart(env, r.world);
      }
      var ran := if calls != [] then ExecuteTools(env, r.world, calls) else Executed(r.world, [], []);
      var w3 := ran.world.(context := ran.world.context + ran.results,
                           newMessages := ran.world.newMessages + ran.results);
      OtherAlone(w3, Emit(TurnEnd(r.message, ran.results)));
      PollAlone(env, Send(w3, TurnEnd(r.message, ran.results)));
    }
  }

  lemma FollowUpsAlone(env: Env, w: World)
    ensures var poll := PollFollowUps(env, w);
            && (EndsAlone(poll.world.log) <==> EndsAlone(w.log))
            && (EndsAlone(Send(poll.world, AgentEnd(poll.world.newMessages)).log) <==> EndsAlone(w.log))
  {
    hide EndsAlone, Dequeue;
    var poll := PollFollowUps(env, w);
    OtherAlone(Await(env, w), FollowUpPolled(poll.batch));
    OtherAlone(poll.world, Emit(AgentEnd(poll.world.newMessages)));
  }

  lemma {:induction false} LoopAlone(env: Env, s: Start, w: World, pending: seq<Message>, first: bool, more: bool,
                                     rounds: nat)
    requires GoodEnv(env) && Head(env, s, w, pending, first, more)
    ensures EndsAlone(Loop(env, w, pending, first, more, rounds).world.log)
            <==> EndsAlone(w.log) && RoundsApart(env, w, pending, first, more, rounds)
    decreases rounds
  {
    hide EndsAlone, AtRest, Turn, PollFollowUps, TurnApart, ReadAll;
    if rounds == 0 {
    } else if more || pending != [] {
      TurnAlone(env, s, w, pending, first, more);
      TurnKeeps(env, s, w, pending, first, more);
      var t := Turn(env, w, pending, first);
      if !t.stopped {
        LoopAlone(env, s, t.world, t.pending, false, t.more, rounds - 1);
      }
    } else {
      FollowUpsAlone(env, w);
      FollowUpsAtRest(env, s, w);
      var poll := PollFollowUps(env, w);
      if poll.batch != [] {
        LoopAlone(env, s, poll.world, poll.batch, false, true, rounds - 1);
      }
    }
  }

  lemma BeginsAlone(env: Env, before: seq<Message>, prompts: seq<Message>, steering: seq<Message>,
                    followUps: seq<Message>,
                    skipPoll: bool)
    ensures EndsAlone(FirstPoll(env, before, prompts, steering, followUps, skipPoll).world.log)
  {
    hide ReadAll, AnnounceAll, PollSteering;
    var w := World(before + prompts, prompts, [], 0, steering, followUps, skipPoll);
    assert EndsAlone(w.log);
    hide EndsAlone;
    OtherAlone(w, Emit(AgentStart));
    var v := Send(w, AgentStart);
    OtherAlone(v, Emit(TurnStart));
    var u := Send(v, TurnStart);
    AnnounceAllAlone(u, prompts);
    PollAlone(env, AnnounceAll(u, prompts));
  }

  /** The pending set is exact throughout a run if and only if, in parallel
      execution, no call is ever prepared before another preflighted call of the
      same response that has its id. */
  lemma PendingExactlyWhenApart(env: Env, s: AgentState, before: seq<Message>, prompts: seq<Message>,
                                steering: seq<Message>,
                                followUps: seq<Message>, skipPoll: bool, rounds: nat)
    requires GoodEnv(env) && FromOutside(prompts) && AllFrom(steering, Steered) && AllFrom(followUps, FollowedUp)
    requires s.pendingToolCalls == {}
    ensures ExactThroughout(s, Run(env, before, prompts, steering, followUps, skipPoll, rounds).world.log)
            <==> RunApart(env, before, prompts, steering, followUps, skipPoll, rounds)
  {
    hide EndsAlone, ExactThroughout, ReadAll, Head, FirstPoll, Loop, Answered, Balanced;
    assert Run(env, before, prompts, steering, followUps, skipPoll, rounds) ==
           (var poll := FirstPoll(env, before, prompts, steering, followUps, skipPoll);
            Loop(env, poll.world, poll.batch, true, true, rounds))
    by { RunIsLoop(env, before, prompts, steering, followUps, skipPoll, rounds); }
    var poll := FirstPoll(env, before, prompts, steering, followUps, skipPoll);
    EveryRun(env, before, prompts, steering, followUps, skipPoll, rounds);
    RunBegins(env, before, prompts, steering, followUps, skipPoll);
    BeginsAlone(env, before, prompts, steering, followUps, skipPoll);
    LoopAlone(env, StartOf(before, prompts, steering, followUps), poll.world, poll.batch, true, true, rounds);
    PendingExactlyWhenAlone(s, Run(env, before, prompts, steering, followUps, skipPoll, rounds).world.log);
  }

  lemma RunIsLoop(env: Env, before: seq<Message>, prompts: seq<Message>, steering: seq<Message>,
                  followUps: seq<Message>,
                  skipPoll: bool, rounds: nat)
    ensures var poll := FirstPoll(env, before, prompts, steering, followUps, skipPoll);
            Run(env, before, prompts, steering, followUps, skipPoll, rounds) ==
                Loop(env, poll.world, poll.batch, true, true, rounds)
  {
    hide Loop, PollSteering, AnnounceAll;
  }

  /** Sequential execution always keeps the set exact, whatever the ids. */
  lemma {:induction false} SequentialIsApart(env: Env, w: World, pending: seq<Message>, first: bool, more: bool,
                                             rounds: nat)
    requires env.sequential
    ensures RoundsApart(env, w, pending, first, more, rounds)
    decreases rounds
  {
    hide Turn, PollFollowUps, Responding;
    if rounds > 0 {
      var t := Turn(env, w, pending, first);
      if more || pending != [] {
        SequentialIsApart(env, t.world, t.pending, false, t.more, rounds - 1);
      } else {
        var poll := PollFollowUps(env, w);
        SequentialIsApart(env, poll.world, poll.batch, first, true, rounds - 1);
      }
    }
  }

  lemma SequentialPendingIsExact(env: Env, s: AgentState, before: seq<Message>, prompts: seq<Message>,
                                 steering: seq<Message>,
                                 followUps: seq<Message>, skipPoll: bool, rounds: nat)
    requires GoodEnv(env) && FromOutside(prompts) && AllFrom(steering, Steered) && AllFrom(followUps, FollowedUp)
    requires s.pendingToolCalls == {} && env.sequential
    ensures ExactThroughout(s, Run(env, before, prompts, steering, followUps, skipPoll, rounds).world.log)
  {
    hide ExactThroughout, Run, FirstPoll, RoundsApart;
    PendingExactlyWhenApart(env, s, before, prompts, steering, followUps, skipPoll, rounds);
    var poll := FirstPoll(env, before, prompts, steering, followUps, skipPoll);
    SequentialIsApart(env, poll.world, poll.batch, true, true, rounds);
  }
}
