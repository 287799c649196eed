/** What each result of a tool call says, and what progress is reported, in terms
    of what the environment decided and at which tick. */
module AgentOutcomes {
  import opened Common
  import opened AgentModel
  import opened AgentGrammar
  import opened AgentTools

  /** The call was not prepared: an error that says why. */
  predicate IsRefusal(r: Message, p: Preparation) {
    && r.ToolResult? && r.isError && r.output.details == ""
    && match p
       case NotFound => r.output.content == "Tool " + r.name + " not found"
       case Invalid(error) => r.output.content == error
       case Blocked(Some(reason)) => r.output.content == if reason == "" then "Tool execution was blocked" else reason
       case Blocked(None) => r.output.content == "Tool execution was blocked"
       case Runs => false
  }

  /** What the tool returned, but for the fields the hook after it gave. */
  predicate IsReturn(r: Message, e: Execution) {
    && r.ToolResult?
    && match e.after
       case None => r.output == e.output && r.isError == e.isError
       case Some(Override(content, details, isError)) =>
         && (if content.Some? then r.output.content == content.value else r.output.content == e.output.content)
         && (if details.Some? then r.output.details == details.value else r.output.details == e.output.details)
         && (if isError.Some? then r.isError == isError.value else r.isError == e.isError)
  }

  predicate IsSkip(r: Message) {
    r.ToolResult? && r.isError && r.output == Output("Skipped due to queued user message.", "")
  }

  predicate AllSkipped(results: seq<Message>) {
    forall i :: 0 <= i < |results| ==> IsSkip(results[i])
  }

  /** One at a time from tick `t`: a call is prepared, executed at the next tick
      if it runs, and the queue is polled at the one after; once a message was
      queued, the rest is skipped. */
  predicate SequentialOutcomes(env: Env, t: nat, results: seq<Message>, stopped: bool)
    decreases |results|
  {
    results == [] ||
    var p := env.prepare(t);
    && (if p.Runs? then IsReturn(results[0], env.execute(t + 1)) else IsRefusal(results[0], p))
    && (|| (stopped && AllSkipped(results[1..]))
        || SequentialOutcomes(env, if p.Runs? then t + 3 else t + 2, results[1..], stopped))
  }

  predicate ReturnedFrom(env: Env, t: nat, results: seq<Message>) {
    forall j :: 0 <= j < |results| ==> IsReturn(results[j], env.execute(t + j))
  }

  /** In parallel from tick `t`: the calls are prepared one by one, with a poll
      after each; those refused are answered at once, and flagged; then those that
      run are executed in order, or, once a message was queued, all others are
      skipped. */
  predicate ParallelOutcomes(env: Env, t: nat, results: seq<Message>, flags: seq<bool>, whole: bool)
    decreases |flags|
  {
    if flags == [] then (if whole then ReturnedFrom(env, t, results) else AllSkipped(results))
    else
      var p := env.prepare(t);
      && flags[0] == !p.Runs?
      && if flags[0] then
           && results != [] && IsRefusal(results[0], p)
           && ParallelOutcomes(env, t + 2, results[1..], flags[1..], whole)
         else ParallelOutcomes(env, t + 2, results, flags[1..], whole)
  }

  /** The results of the calls, from tick `t`; some may be skipped if `stopped`. */
  ghost predicate AnswersAt(env: Env, t: nat, results: seq<Message>, calls: seq<Call>, stopped: bool) {
    if env.sequential then ResultsOf(results, calls) && SequentialOutcomes(env, t, results, stopped)
    else
      exists flags: seq<bool>, whole: bool ::
        && |flags| <= |calls| && (whole ==> |flags| == |calls|) && (!whole ==> stopped)
        && ResultsOf(results, ParallelOrder(calls, flags, []))
        && ParallelOutcomes(env, t, results, flags, whole)
  }

  // ---- the model ---------------------------------------------------------------------

  lemma RefusalTells(w: World, call: Call, p: Preparation)
    requires !p.Runs?
    ensures var one := FinishTool(w, call, Refusal(call, p), true);
            IsRefusal(one.result, p) && one.world.clock == w.clock
  {
  }

  lemma {:induction false} UpdatesKeepClock(w: World, call: Call, n: nat)
    ensures Updates(w, call, n).clock == w.clock
  {
    if n > 0 {
      UpdatesKeepClock(w, call, n - 1);
    }
  }

  lemma ExecuteTells(env: Env, w: World, call: Call)
    ensures var one := Execute(env, w, call);
            IsReturn(one.result, env.execute(w.clock)) && one.world.clock == w.clock + 1
  {
    hide Updates;
    UpdatesKeepClock(Await(env, w), call, env.execute(w.clock).updates);
  }

  lemma {:induction false} SkipTells(w: World, calls: seq<Call>, emitStart: bool)
    ensures var r := Skip(w, calls, emitStart);
            AllSkipped(r.results) && |r.results| == |calls| && r.world.clock == w.clock
    decreases |calls|
  {
    if calls != [] {
      var one := FinishTool(if emitStart then StartTool(w, calls[0]) else w, calls[0],
                            ErrorOutput("Skipped due to queued user message."), true);
      SkipTells(one.world, calls[1..], emitStart);
    }
  }

  lemma PollKeepsTime(env: Env, w: World)
    ensures PollSteering(env, w).world.clock == w.clock + 1
  {
    hide Dequeue;
  }

  lemma OneCallTells(env: Env, w: World, call: Call)
    ensures var one := OneCall(env, w, call);
            var p := env.prepare(w.clock);
            && (if p.Runs? then IsReturn(one.result, env.execute(w.clock + 1)) else IsRefusal(one.result, p))
            && one.world.clock == if p.Runs? then w.clock + 2 else w.clock + 1
  {
    hide Execute, FinishTool, Refusal;
    var w2 := Await(env, StartTool(w, call));
    var p := env.prepare(w.clock);
    if p.Runs? {
      ExecuteTells(env, w2, call);
    } else {
      RefusalTells(w2, call, p);
    }
  }

  lemma {:induction false} SequentialTells(env: Env, w: World, calls: seq<Call>)
    ensures var r := Sequential(env, w, calls);
            SequentialOutcomes(env, w.clock, r.results, r.steering != [])
    decreases |calls|
  {
    hide Sequential, OneCall, PollSteering, Skip, IsReturn, IsRefusal, IsSkip;
    SequentialUnfolds(env, w, calls);
    if calls != [] {
      var one := OneCall(env, w, calls[0]);
      OneCallTells(env, w, calls[0]);
      PollKeepsTime(env, one.world);
      var poll := PollSteering(env, one.world);
      if poll.batch != [] {
        SkipTells(poll.world, calls[1..], true);
        FirstAndRest(one.result, Skip(poll.world, calls[1..], true).results);
      } else {
        SequentialTells(env, poll.world, calls[1..]);
        FirstAndRest(one.result, Sequential(env, poll.world, calls[1..]).results);
      }
    }
  }

  lemma {:induction false} InterleaveKeepsClock(w: World, running: seq<Call>, picks: seq<nat>)
    requires running != []
    ensures Interleave(w, running, picks).clock == w.clock
    decreases |picks|
  {
    if picks != [] {
      InterleaveKeepsClock(Send(w, ToolUpdate(running[picks[0] % |running|].id)), running, picks[1..]);
    }
  }

  lemma {:induction false} TogetherTells(env: Env, w: World, calls: seq<Call>)
    ensures ReturnedFrom(env, w.clock, RunTogether(env, w, calls).results)
    decreases |calls|
  {
    hide Interleave, Execute, IsReturn;
    if calls != [] {
      var w1 := Interleave(w, calls, env.interleaved(w.clock));
      InterleaveKeepsClock(w, calls, env.interleaved(w.clock));
      ExecuteTells(env, w1, calls[0]);
      var one := Execute(env, w1, calls[0]);
      TogetherTells(env, one.world, calls[1..]);
      var rest := RunTogether(env, one.world, calls[1..]).results;
      forall j | 0 <= j < |rest| + 1
        ensures IsReturn(([one.result] + rest)[j], env.execute(w.clock + j))
      {
        if j > 0 {
          assert IsReturn(rest[j - 1], env.execute(one.world.clock + (j - 1)));
        }
      }
    }
  }

  lemma PreflightTells(env: Env, w: World, call: Call)
    ensures var pre := Preflight(env, w, call);
            var p := env.prepare(w.clock);
            && pre.world.clock == w.clock + 1 && pre.refused == !p.Runs?
            && (if pre.refused then |pre.results| == 1 && IsRefusal(pre.results[0], p) else pre.results == [])
  {
    hide FinishTool, Refusal;
    var p := env.prepare(w.clock);
    if !p.Runs? {
      RefusalTells(Await(env, StartTool(w, call)), call, p);
    }
  }

  /** Whether no message queued meanwhile cut the preparation short. */
  predicate Whole(env: Env, w: World, calls: seq<Call>)
    decreases |calls|
  {
    calls == [] ||
    var poll := PollSteering(env, Preflight(env, w, calls[0]).world);
    poll.batch == [] && Whole(env, poll.world, calls[1..])
  }

  lemma {:induction false} ParallelTells(env: Env, w: World, calls: seq<Call>, runnable: seq<Call>)
    ensures var r := Parallel(env, w, calls, runnable);
            var flags, whole := Refusals(env, w, calls), Whole(env, w, calls);
            && ParallelOutcomes(env, w.clock, r.results, flags, whole)
            && (whole ==> |flags| == |calls|) && (!whole ==> r.steering != [])
    decreases |calls|
  {
    hide Parallel, Preflight, PollSteering, Skip, RunTogether, IsRefusal, IsSkip, ReturnedFrom;
    if calls == [] {
      ParallelEnds(env, w, runnable);
      TogetherTells(env, w, runnable);
    } else {
      ParallelUnfolds(env, w, calls, runnable);
      PreflightTells(env, w, calls[0]);
      var pre := Preflight(env, w, calls[0]);
      var runnable' := if pre.refused then runnable else runnable + [calls[0]];
      PollKeepsTime(env, pre.world);
      var poll := PollSteering(env, pre.world);
      var rest: seq<Message>;
      if poll.batch != [] {
        SkipTells(poll.world, runnable', false);
        var prepared := Skip(poll.world, runnable', false);
        SkipTells(prepared.world, calls[1..], true);
        rest := prepared.results + Skip(prepared.world, calls[1..], true).results;
        Joins(pre.results, prepared.results, Skip(prepared.world, calls[1..], true).results);
        assert AllSkipped(rest);
        assert Refusals(env, w, calls)[1..] == [];
      } else {
        ParallelTells(env, poll.world, calls[1..], runnable');
        rest := Parallel(env, poll.world, calls[1..], runnable').results;
        assert Refusals(env, w, calls)[1..] == Refusals(env, poll.world, calls[1..]);
      }
      assert Parallel(env, w, calls, runnable).results == pre.results + rest;
      if pre.refused {
        FirstAndRest(pre.results[0], rest);
        assert pre.results == [pre.results[0]];
      } else {
        NothingMore(rest);
      }
    }
  }

  lemma ToolsTell(env: Env, w: World, calls: seq<Call>)
    requires Ready(w) && Seen(w).todo == Ids(calls) && Seen(w).running == multiset{}
    ensures var r := ExecuteTools(env, w, calls);
            AnswersAt(env, w.clock, r.results, calls, r.steering != [])
  {
    hide ReadAll, Progress, Sequential, Parallel, ParallelOrder, Ids, ResultsOf, Refusals, Whole, ParallelOutcomes,
        SequentialOutcomes;
    if env.sequential {
      SequentialProgress(env, w, calls);
      SequentialTells(env, w, calls);
    } else {
      assert Ids([]) == multiset{} by { NoIds(); }
      ParallelProgress(env, w, calls, []);
      ParallelTells(env, w, calls, []);
    }
  }

  // ---- replies ----------------------------------------------------------------------------

  /** The provider's last word, or what is made of its error. */
  predicate IsReply(m: Message, r: Reply) {
    match r
    case Streams(_, final) => m == final
    case Throws(error, aborted) => m == Assistant([], if aborted then Aborted else Failed, error)
  }

  lemma {:induction false} StreamTells(w: World, chunks: seq<Chunk>, final: Message, added: bool)
    requires added ==> w.context != []
    ensures StreamChunks(w, chunks, final, added).message == final
    decreases |chunks|
  {
    if chunks != [] && !chunks[0].Ended? {
      if chunks[0].Started? {
        var p := chunks[0].partial;
        StreamTells(Send(w.(context := w.context + [p]), MessageStart(p)), chunks[1..], final, true);
      } else if added {
        var p := chunks[0].partial;
        StreamTells(Send(w.(context := w.context[|w.context| - 1 := p]), MessageUpdate(p)), chunks[1..], final, true);
      } else {
        StreamTells(w, chunks[1..], final, false);
      }
    }
  }

  lemma RespondTells(env: Env, w: World)
    ensures IsReply(Respond(env, w).message, env.reply(w.clock))
  {
    hide StreamChunks;
    match env.reply(w.clock)
    case Streams(chunks, final) => StreamTells(Push(Await(env, w), ModelCalled), chunks, final, false);
    case Throws(_, _) =>
  }

  // ---- calls and their progress -----------------------------------------------------------

  /** `calls` stand in the content at the places `at`, in order, and nowhere else
      does a call stand. */
  ghost predicate StandAt(content: seq<Block>, calls: seq<Call>, at: seq<nat>) {
    && |at| == |calls| && (forall k :: 0 <= k < |at| ==> at[k] < |content| && content[at[k]] == ToolCall(calls[k]))
    && (forall j, k :: 0 <= j < k < |at| ==> at[j] < at[k])
    && forall i: nat :: i < |content| && content[i].ToolCall? ==> i in at
  }

  /** The calls of a response are its tool call blocks, each once, in order. */
  lemma {:induction false} CallsAre(content: seq<Block>)
    ensures exists at :: StandAt(content, Calls(content), at)
    decreases |content|
  {
    if content == [] {
      assert StandAt(content, Calls(content), []);
    } else {
      CallsAre(content[1..]);
      var later :| StandAt(content[1..], Calls(content[1..]), later);
      MorePlaces(content, later);
    }
  }

  lemma MorePlaces(content: seq<Block>, later: seq<nat>)
    requires content != [] && StandAt(content[1..], Calls(content[1..]), later)
    ensures exists at :: StandAt(content, Calls(content), at)
  {
    var first := if content[0].ToolCall? then [content[0].call] else [];
    assert Calls(content) == first + Calls(content[1..]);
    hide Calls;
    Shifted(content, first, Calls(content[1..]), later);
  }

  /** The places one further, behind `n` new ones at the start. */
  function OneFurther(n: nat, later: seq<nat>): seq<nat> {
    seq(n + |later|, k requires 0 <= k < n + |later| => if k < n then 0 else later[k - n] + 1)
  }

  lemma Shifted(content: seq<Block>, first: seq<Call>, calls: seq<Call>, later: seq<nat>)
    requires content != [] && StandAt(content[1..], calls, later)
    requires first == if content[0].ToolCall? then [content[0].call] else []
    ensures exists at :: StandAt(content, first + calls, at)
  {
    ShiftedPoint(content, first, calls, later);
    ShiftedCover(content, calls, later, |first|);
    var at := OneFurther(|first|, later);
    assert |at| == |first + calls|;
    assert forall j, k :: 0 <= j < k < |at| ==> at[j] < at[k];
    assert StandAt(content, first + calls, at);
  }

  lemma ShiftedPoint(content: seq<Block>, first: seq<Call>, calls: seq<Call>, later: seq<nat>)
    requires content != [] && StandAt(content[1..], calls, later)
    requires first == if content[0].ToolCall? then [content[0].call] else []
    ensures var at := OneFurther(|first|, later);
            forall k :: 0 <= k < |at| ==>
              k < |first + calls| && at[k] < |content| && content[at[k]] == ToolCall((first + calls)[k])
  {
    var at, n := OneFurther(|first|, later), |first|;
    forall k | 0 <= k < |at|
      ensures k < |first + calls| && at[k] < |content| && content[at[k]] == ToolCall((first + calls)[k])
    {
      if k >= n {
        assert content[1..][later[k - n]] == ToolCall(calls[k - n]);
      }
    }
  }

  lemma ShiftedCover(content: seq<Block>, calls: seq<Call>, later: seq<nat>, n: nat)
    requires content != [] && StandAt(content[1..], calls, later) && (content[0].ToolCall? ==> n > 0)
    ensures forall i: nat :: i < |content| && content[i].ToolCall? ==> i in OneFurther(n, later)
  {
    var at := OneFurther(n, later);
    forall i: nat | i < |content| && content[i].ToolCall?
      ensures i in at
    {
      if i == 0 {
        assert at[0] == 0;
      } else {
        assert content[1..][i - 1].ToolCall?;
        var k :| 0 <= k < |later| && later[k] == i - 1;
        assert at[k + n] == i;
      }
    }
  }

  /** The ids in the progress reports, in order. */
  function Reports(log: seq<Action>): seq<string> {
    if log == [] then []
    else
      var a := log[|log| - 1];
      Reports(log[..|log| - 1]) + if a.Emit? && a.event.ToolUpdate? then [a.event.id] else []
  }

  lemma ReportsNext(log: seq<Action>, a: Action)
    ensures Reports(log + [a]) == Reports(log) + if a.Emit? && a.event.ToolUpdate? then [a.event.id] else []
  {
    assert (log + [a])[..|log|] == log;
  }

  /** One report for each update of the tool. */
  function Own(env: Env, t: nat, call: Call): seq<string> {
    seq(env.execute(t).updates, _ => call.id)
  }

  /** Reports of tools running beside, as the environment picks them. */
  function Others(env: Env, t: nat, running: seq<Call>): seq<string>
    requires running != []
  {
    Picked(running, env.interleaved(t))
  }

  /** Executed one at a time from tick `t`: only a call that runs reports. */
  function ReportsInTurn(env: Env, t: nat, calls: seq<Call>): seq<string>
    decreases |calls|
  {
    if calls == [] then []
    else if env.prepare(t).Runs? then Own(env, t + 1, calls[0]) + ReportsInTurn(env, t + 3, calls[1..])
    else ReportsInTurn(env, t + 2, calls[1..])
  }

  /** Executed together from tick `t`. */
  function ReportsTogether(env: Env, t: nat, calls: seq<Call>): seq<string>
    decreases |calls|
  {
    if calls == [] then []
    else Others(env, t, calls) + Own(env, t, calls[0]) + ReportsTogether(env, t + 1, calls[1..])
  }

  lemma {:induction false} UpdatesReport(w: World, call: Call, n: nat)
    ensures Reports(Updates(w, call, n).log) == Reports(w.log) + seq(n, _ => call.id)
  {
    hide Reports;
    if n > 0 {
      UpdatesReport(w, call, n - 1);
      ReportsNext(Updates(w, call, n - 1).log, Emit(ToolUpdate(call.id)));
      assert seq(n, _ => call.id) == seq(n - 1, _ => call.id) + [call.id];
    } else {
      NothingMore(Reports(w.log));
    }
  }

  lemma FinishReports(w: World, call: Call, output: Output, isError: bool)
    ensures Reports(FinishTool(w, call, output, isError).world.log) == Reports(w.log)
  {
    hide Reports;
    var result := ToolResult(call.id, call.name, output, isError);
    var w1 := Send(w, ToolEnd(call.id, output, isError));
    ReportsNext(w.log, Emit(ToolEnd(call.id, output, isError)));
    ReportsNext(w1.log, Emit(MessageStart(result)));
    ReportsNext(Send(w1, MessageStart(result)).log, Emit(MessageEnd(result)));
    NothingMore(Reports(w.log));
  }

  lemma ExecuteReports(env: Env, w: World, call: Call)
    ensures Reports(Execute(env, w, call).world.log) == Reports(w.log) + Own(env, w.clock, call)
  {
    hide Reports, Updates, FinishTool, Amended;
    var e := env.execute(w.clock);
    UpdatesReport(Await(env, w), call, e.updates);
    FinishReports(Updates(Await(env, w), call, e.updates), call, Amended(e).0, Amended(e).1);
  }

  lemma {:induction false} SkipReports(w: World, calls: seq<Call>, emitStart: bool)
    ensures Reports(Skip(w, calls, emitStart).world.log) == Reports(w.log)
    decreases |calls|
  {
    hide Reports, FinishTool;
    if calls != [] {
      var w1 := if emitStart then StartTool(w, calls[0]) else w;
      var output := ErrorOutput("Skipped due to queued user message.");
      ReportsNext(w.log, Emit(ToolStart(calls[0].id, calls[0].name)));
      NothingMore(Reports(w.log));
      FinishReports(w1, calls[0], output, true);
      SkipReports(FinishTool(w1, calls[0], output, true).world, calls[1..], emitStart);
    }
  }

  lemma PollReports(env: Env, w: World)
    ensures Reports(PollSteering(env, w).world.log) == Reports(w.log)
  {
    hide Reports, Dequeue;
    var poll := PollSteering(env, w);
    ReportsNext(w.log, SteeringPolled(poll.batch));
    NothingMore(Reports(w.log));
  }

  lemma StartReports(env: Env, w: World, call: Call)
    ensures Reports(Await(env, StartTool(w, call)).log) == Reports(w.log)
  {
    hide Reports;
    ReportsNext(w.log, Emit(ToolStart(call.id, call.name)));
    NothingMore(Reports(w.log));
  }

  lemma OneCallReports(env: Env, w: World, call: Call)
    ensures Reports(OneCall(env, w, call).world.log)
         == Reports(w.log) + if env.prepare(w.clock).Runs? then Own(env, w.clock + 1, call) else []
  {
    hide Reports, Execute, FinishTool, Refusal, Own;
    var w2 := Await(env, StartTool(w, call));
    var p := env.prepare(w.clock);
    StartReports(env, w, call);
    if p.Runs? {
      ExecuteReports(env, w2, call);
    } else {
      FinishReports(w2, call, Refusal(call, p), true);
      NothingMore(Reports(w.log));
    }
  }

  /** One at a time, the calls report in turn, up to those skipped. */
  lemma {:induction false} SequentialReports(env: Env, w: World, calls: seq<Call>)
    ensures var r := Sequential(env, w, calls);
            exists n :: 0 <= n <= |calls| && (n < |calls| ==> r.steering != [])
                        && Reports(r.world.log) == Reports(w.log) + ReportsInTurn(env, w.clock, calls[..n])
    decreases |calls|
  {
    hide Reports, OneCall, PollSteering, Skip, Sequential, Own, ReportsInTurn;
    SequentialUnfolds(env, w, calls);
    var r := Sequential(env, w, calls);
    if calls == [] {
      NoTurns(env, w.clock);
      NothingMore(Reports(w.log));
      assert calls[..0] == [];
    } else {
      var one := OneCall(env, w, calls[0]);
      OneCallReports(env, w, calls[0]);
      OneCallTells(env, w, calls[0]);
      PollReports(env, one.world);
      PollKeepsTime(env, one.world);
      var poll := PollSteering(env, one.world);
      var n := 0;
      if poll.batch != [] {
        SkipReports(poll.world, calls[1..], true);
        NoTurns(env, poll.world.clock);
      } else {
        SequentialReports(env, poll.world, calls[1..]);
        n :| 0 <= n <= |calls[1..]| && (n < |calls[1..]| ==> r.steering != [])
             && Reports(r.world.log) == Reports(poll.world.log) + ReportsInTurn(env, poll.world.clock, calls[1..][..n]);
      }
      assert calls[1..][..n] == calls[..n + 1][1..];
      NextTurn(env, w.clock, calls[..n + 1]);
      assert calls[..n + 1][0] == calls[0];
      assert Reports(r.world.log) == Reports(one.world.log) + ReportsInTurn(env, poll.world.clock, calls[..n + 1][1..]);
    }
  }

  lemma NoTurns(env: Env, t: nat)
    ensures ReportsInTurn(env, t, []) == [] && ReportsTogether(env, t, []) == []
    ensures forall s: seq<string> :: s + [] == s
  {
  }

  lemma NextTurn(env: Env, t: nat, calls: seq<Call>)
    requires calls != []
    ensures var own := if env.prepare(t).Runs? then Own(env, t + 1, calls[0]) else [];
            var next := if env.prepare(t).Runs? then t + 3 else t + 2;
            && ReportsInTurn(env, t, calls) == own + ReportsInTurn(env, next, calls[1..])
            && forall s: seq<string> ::
                 (s + own) + ReportsInTurn(env, next, calls[1..]) == s + ReportsInTurn(env, t, calls)
  {
    hide Own;
    var next := if env.prepare(t).Runs? then t + 3 else t + 2;
    assert [] + ReportsInTurn(env, next, calls[1..]) == ReportsInTurn(env, next, calls[1..]);
  }

  /** The reports of `picks` among the tools running. */
  function Picked(running: seq<Call>, picks: seq<nat>): seq<string>
    requires running != []
  {
    seq(|picks|, i requires 0 <= i < |picks| => running[picks[i] % |running|].id)
  }

  lemma {:induction false} InterleaveReports(w: World, running: seq<Call>, picks: seq<nat>)
    requires running != []
    ensures Reports(Interleave(w, running, picks).log) == Reports(w.log) + Picked(running, picks)
    decreases |picks|
  {
    hide Reports;
    if picks == [] {
      NothingMore(Reports(w.log));
    } else {
      var id := running[picks[0] % |running|].id;
      ReportsNext(w.log, Emit(ToolUpdate(id)));
      InterleaveReports(Send(w, ToolUpdate(id)), running, picks[1..]);
      assert Picked(running, picks) == [id] + Picked(running, picks[1..]);
    }
  }

  lemma {:induction false} TogetherReports(env: Env, w: World, calls: seq<Call>)
    ensures var r := RunTogether(env, w, calls);
            && Reports(r.world.log) == Reports(w.log) + ReportsTogether(env, w.clock, calls)
            && r.world.clock == w.clock + |calls|
    decreases |calls|
  {
    hide Reports, Interleave, Execute, Own;
    if calls == [] {
      NothingMore(Reports(w.log));
    } else {
      var picks := env.interleaved(w.clock);
      var w1 := Interleave(w, calls, picks);
      InterleaveReports(w, calls, picks);
      InterleaveKeepsClock(w, calls, picks);
      ExecuteReports(env, w1, calls[0]);
      ExecuteTells(env, w1, calls[0]);
      TogetherReports(env, Execute(env, w1, calls[0]).world, calls[1..]);
      assert Others(env, w.clock, calls) == Picked(calls, picks);
    }
  }

  lemma PreflightReports(env: Env, w: World, call: Call)
    ensures Reports(Preflight(env, w, call).world.log) == Reports(w.log)
  {
    hide Reports, FinishTool, Refusal;
    StartReports(env, w, call);
    var p := env.prepare(w.clock);
    if !p.Runs? {
      FinishReports(Await(env, StartTool(w, call)), call, Refusal(call, p), true);
    }
  }

  /** In parallel, the calls that run report together, once all are prepared; or no
      call reports, because what was queued meanwhile cut the preparation short. */
  lemma {:induction false} ParallelReports(env: Env, w: World, calls: seq<Call>, runnable: seq<Call>)
    ensures var r := Parallel(env, w, calls, runnable);
            var prepared := runnable + Select(calls, Refusals(env, w, calls), false);
            Reports(r.world.log) == Reports(w.log)
              + if Whole(env, w, calls) then ReportsTogether(env, w.clock + 2 * |calls|, prepared) else []
    decreases |calls|
  {
    hide Reports, Parallel, Preflight, PollSteering, Skip, RunTogether, ReportsTogether, Select, Whole, Refusals;
    RefusalsUnfold(env, w, calls);
    if calls == [] {
      ParallelEnds(env, w, runnable);
      TogetherReports(env, w, runnable);
      PollReports(env, RunTogether(env, w, runnable).world);
      NonePrepared(runnable);
    } else {
      ParallelUnfolds(env, w, calls, runnable);
      PreflightTells(env, w, calls[0]);
      PreflightReports(env, w, calls[0]);
      var pre := Preflight(env, w, calls[0]);
      var runnable' := if pre.refused then runnable else runnable + [calls[0]];
      PollKeepsTime(env, pre.world);
      PollReports(env, pre.world);
      var poll := PollSteering(env, pre.world);
      if poll.batch != [] {
        SkipReports(poll.world, runnable', false);
        SkipReports(Skip(poll.world, runnable', false).world, calls[1..], true);
        NothingMore(Reports(w.log));
      } else {
        ParallelReports(env, poll.world, calls[1..], runnable');
        MorePrepared(calls, pre.refused, Refusals(env, poll.world, calls[1..]), runnable);
      }
    }
  }

  lemma RefusalsUnfold(env: Env, w: World, calls: seq<Call>)
    ensures calls == [] ==> Refusals(env, w, calls) == [] && Whole(env, w, calls)
    ensures calls != [] ==>
              var pre := Preflight(env, w, calls[0]);
              var poll := PollSteering(env, pre.world);
              && Refusals(env, w, calls)
              == [pre.refused] + (if poll.batch != [] then [] else Refusals(env, poll.world, calls[1..]))
              && (Whole(env, w, calls) <==> poll.batch == [] && Whole(env, poll.world, calls[1..]))
  {
    hide Preflight, PollSteering;
  }

  lemma NonePrepared(runnable: seq<Call>)
    ensures runnable + Select([], [], false) == runnable
  {
  }

  lemma MorePrepared(calls: seq<Call>, refused: bool, flags: seq<bool>, runnable: seq<Call>)
    requires 0 < |calls| && |flags| < |calls|
    ensures (if refused then runnable else runnable + [calls[0]]) + Select(calls[1..], flags, false)
         == runnable + Select(calls, [refused] + flags, false)
  {
    SelectNext(calls, refused, flags);
    hide Select;
    if refused {
      assert [] + Select(calls[1..], flags, false) == Select(calls[1..], flags, false);
    } else {
      Joins(runnable, [calls[0]], Select(calls[1..], flags, false));
    }
  }

  lemma SelectNext(calls: seq<Call>, refused: bool, flags: seq<bool>)
    requires 0 < |calls| && |flags| < |calls|
    ensures Select(calls, [refused] + flags, false)
         == (if refused then [] else [calls[0]]) + Select(calls[1..], flags, false)
  {
    assert ([refused] + flags)[1..] == flags;
  }
}
