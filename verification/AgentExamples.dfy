/** Two runs in parallel mode, in which the documented order of results and the
    Agent's set of pending calls go wrong. */
module AgentExamples {
  import opened Common
  import opened AgentModel
  import opened AgentGrammar
  import opened AgentTools
  import opened AgentRuns
  import opened AgentFold
  import opened AgentPending

  const GO := User(Prompted, "go")

  /** The model asks for two calls each time it is called; nothing is queued. */
  function Asking(one: Call, two: Call): Message {
    Assistant([ToolCall(one), ToolCall(two)], ToolUse, "")
  }

  function Scripted(one: Call, two: Call, prepare: nat -> Preparation): (env: Env)
    ensures GoodEnv(env)
  {
    Env(_ => [], _ => [], _ => false, _ => false, _ => Streams([Ended], Asking(one, two)), prepare,
        _ => Execution(0, Output("", ""), false, None), _ => [], false)
  }

  lemma Asks(one: Call, two: Call)
    ensures CallsOf(Asking(one, two)) == [one, two]
  {
    var content, rest := [ToolCall(one), ToolCall(two)], [ToolCall(two)];
    assert content[1..] == rest && rest[1..] == [];
    assert Calls(rest) == [two] + Calls([]);
    assert [one] + [two] == [one, two] && content[0] == ToolCall(one) && content[0].call == one;
    assert Calls(content) == [one] + Calls(rest);
  }

  /** Nothing queued, nothing taken. */
  predicate Unqueued(w: World) {
    w.steering == [] && w.followUps == []
  }

  lemma AwaitUnqueued(one: Call, two: Call, prepare: nat -> Preparation, w: World)
    requires Unqueued(w)
    ensures var v := Await(Scripted(one, two, prepare), w); v == w.(clock := w.clock + 1)
  {
    assert Tagged(Steered, []) == [] && Tagged(FollowedUp, []) == [];
    assert [] + Tagged(Steered, []) == [] && [] + Tagged(FollowedUp, []) == [];
  }

  lemma PollUnqueued(one: Call, two: Call, prepare: nat -> Preparation, w: World)
    requires Unqueued(w)
    ensures var p := PollSteering(Scripted(one, two, prepare), w);
            p.batch == [] && Unqueued(p.world) && p.world.clock == w.clock + 1 && p.world.newMessages == w.newMessages
  {
    hide Await, Scripted;
    AwaitUnqueued(one, two, prepare, w);
  }

  /** Which of the two calls are refused is up to what their preparation says
      at its time. */
  lemma ScriptedRefusals(one: Call, two: Call, prepare: nat -> Preparation, w: World)
    requires Unqueued(w)
    ensures Refusals(Scripted(one, two, prepare), w, [one, two]) ==
            [!prepare(w.clock).Runs?, !prepare(w.clock + 2).Runs?]
  {
    hide Await, PollSteering, Refusal, Preflight;
    var env := Scripted(one, two, prepare);
    var pre := Preflight(env, w, one);
    PreflightUnqueued(one, two, prepare, w, one);
    PollUnqueued(one, two, prepare, pre.world);
    var v := PollSteering(env, pre.world).world;
    PreflightUnqueued(one, two, prepare, v, two);
    PollUnqueued(one, two, prepare, Preflight(env, v, two).world);
    assert [one, two][1..] == [two] && [two][1..] == [];
    assert Refusals(env, v, [two]) == [!prepare(v.clock).Runs?];
  }

  lemma PreflightUnqueued(one: Call, two: Call, prepare: nat -> Preparation, w: World, call: Call)
    requires Unqueued(w)
    ensures var pre := Preflight(Scripted(one, two, prepare), w, call);
            Unqueued(pre.world) && pre.world.clock == w.clock + 1 && pre.refused == !prepare(w.clock).Runs?
  {
    hide Await, Refusal;
    AwaitUnqueued(one, two, prepare, StartTool(w, call));
  }

  /** The run up to its first response. */
  function Opening(env: Env): Polled {
    FirstPoll(env, [], [GO], [], [], false)
  }

  lemma OpeningUnqueued(one: Call, two: Call, prepare: nat -> Preparation)
    ensures var p := Opening(Scripted(one, two, prepare));
            p.batch == [] && Unqueued(p.world) && p.world.clock == 1 && p.world.newMessages == [GO]
  {
    hide PollSteering, Scripted;
    var w := Send(Send(World([] + [GO], [GO], [], 0, [], [], false), AgentStart), TurnStart);
    assert [GO][1..] == [];
    assert AnnounceAll(w, [GO]) == Announce(w, GO) by {
      assert AnnounceAll(Announce(w, GO), []) == Announce(w, GO);
    }
    PollUnqueued(one, two, prepare, Announce(w, GO));
  }

  lemma FirstResponse(one: Call, two: Call, prepare: nat -> Preparation)
    ensures var env := Scripted(one, two, prepare);
            var r := Responding(env, Opening(env).world, [], true);
            && r.message == Asking(one, two) && Unqueued(r.world) && r.world.clock == 2
            && r.world.newMessages == [GO, Asking(one, two)]
            && Ready(r.world) && Seen(r.world).running == multiset{} && Seen(r.world).todo == Ids([one, two])
  {
    var env := Scripted(one, two, prepare);
    var w := Opening(env).world;
    assert env.reply(w.clock) == Streams([Ended], Asking(one, two)) && !env.sequential;
    hide ReadAll, Opening, Await, Scripted, Head, Ids, Balanced, Calls;
    OpeningUnqueued(one, two, prepare);
    AwaitUnqueued(one, two, prepare, w);
    Begun(one, two, prepare);
    TurnResponds(env, StartOf([], [GO], [], []), w, [], true, true);
    Asks(one, two);
    assert Inject(w, []) == w;
    assert [GO] + [] + [Asking(one, two)] == [GO, Asking(one, two)];
  }

  lemma Begun(one: Call, two: Call, prepare: nat -> Preparation)
    ensures var env := Scripted(one, two, prepare);
            Head(env, StartOf([], [GO], [], []), Opening(env).world, [], true, true)
  {
    hide Head, Scripted, FirstPoll;
    OpeningUnqueued(one, two, prepare);
    RunBegins(Scripted(one, two, prepare), [], [GO], [], [], false);
  }

  // ---- a refused call overtakes a prepared one -----------------------------------------------

  const A := Call("a", "f")
  const B := Call("b", "f")

  function OnlyFirst(t: nat): Preparation {
    if t == 2 then Runs else NotFound
  }

  /** The first call is prepared, the second not found: the second is answered
      first, against the documented order. */
  lemma RefusedOvertakes()
    ensures var m := Run(Scripted(A, B, OnlyFirst), [], [GO], [], [], false, 1).world.newMessages;
            && |m| == 4 && m[1] == Asking(A, B) && CallsOf(m[1]) == [A, B]
            && m[2].ToolResult? && m[2].callId == "b" && m[3].ToolResult? && m[3].callId == "a"
  {
    hide Scripted, Opening, Responding, Parallel, Run, CallsOf, Asking;
    FirstAnswers();
    OneTurn(A, B, OnlyFirst);
    Asks(A, B);
  }

  lemma FirstAnswers()
    ensures var env := Scripted(A, B, OnlyFirst);
            var ran := Parallel(env, Responding(env, Opening(env).world, [], true).world, [A, B], []);
            && ran.world.newMessages == [GO, Asking(A, B)] && |ran.results| == 2
            && ResultOf(ran.results[0], B) && ResultOf(ran.results[1], A)
  {
    hide ReadAll, Scripted, Opening, Responding, Parallel, Progress, Ids, ParallelOrder, Refusals, OnlyFirst, Asking;
    var env := Scripted(A, B, OnlyFirst);
    var w := Responding(env, Opening(env).world, [], true).world;
    FirstResponse(A, B, OnlyFirst);
    Only();
    ScriptedRefusals(A, B, OnlyFirst, w);
    assert Ids([]) == multiset{} by { NoIds(); }
    ParallelProgress(env, w, [A, B], []);
    var ran := Parallel(env, w, [A, B], []);
    ProgressSays(env, w, ran.world, ran.results, ran.steering, multiset{}, multiset{});
    SecondFirst();
    assert ResultsOf(ran.results, [B, A]);
    assert ResultOf(ran.results[0], [B, A][0]) && ResultOf(ran.results[1], [B, A][1]);
  }

  lemma Only()
    ensures OnlyFirst(2) == Runs && OnlyFirst(4) == NotFound
  {
  }

  lemma SecondFirst()
    ensures ParallelOrder([A, B], [false, true], []) == [B, A]
  {
    var calls, flags := [A, B], [false, true];
    assert calls[1..] == [B] && flags[1..] == [true] && calls[1..][1..] == [] && flags[1..][1..] == [];
    assert Select([B], [true], true) == [B] && Select([B], [true], false) == [];
    assert Select(calls, flags, true) == [B] && Select(calls, flags, false) == [A];
    assert calls[2..] == [];
  }

  /** The messages once the first turn is over. */
  lemma OneTurn(one: Call, two: Call, prepare: nat -> Preparation)
    ensures var env := Scripted(one, two, prepare);
            var r := Responding(env, Opening(env).world, [], true);
            var ran := Parallel(env, r.world, [one, two], []);
            Run(env, [], [GO], [], [], false, 1).world.newMessages == ran.world.newMessages + ran.results
  {
    var env := Scripted(one, two, prepare);
    assert !env.sequential;
    hide ReadAll, Scripted, Respond, Inject, Parallel, PollSteering, FirstPoll, AnnounceAll, Calls;
    FirstResponse(one, two, prepare);
    OpeningUnqueued(one, two, prepare);
    Asks(one, two);
    RunIsLoop(env, [], [GO], [], [], false, 1);
    var p := Opening(env);
    var t := Turn(env, p.world, [], true);
    assert Loop(env, p.world, [], true, true, 1) == Loop(env, t.world, t.pending, false, t.more, 0);
    var r := Responding(env, p.world, [], true);
    var ran := Parallel(env, r.world, [one, two], []);
    var w3 := ran.world.(context := ran.world.context + ran.results,
                         newMessages := ran.world.newMessages + ran.results);
    PollKeeps(env, Send(w3, TurnEnd(r.message, ran.results)));
  }

  // ---- the pending set misses a running call ----------------------------------------------------

  function Always(t: nat): Preparation { Runs }

  /** Two calls of one id, both prepared: once one has ended the other still
      runs, and the Agent's set does not hold it. */
  lemma RepeatedIdsAreMissed(s: AgentState)
    requires s.pendingToolCalls == {}
    ensures var log := Run(Scripted(A, A, Always), [], [GO], [], [], false, 1).world.log;
            exists n: nat, id :: n <= |log| && id in ReadAll(log[..n]).running
                                 && id !in HandleAll(s, Streamed(log[..n])).pendingToolCalls
  {
    hide ReadAll, Run, HandleAll, Streamed, ExactThroughout, RunApart, Scripted, Answered, Balanced;
    var env := Scripted(A, A, Always);
    OverlappingRun();
    assert FromOutside([GO]) && AllFrom([], Steered) && AllFrom([], FollowedUp) by { OutsideGo(); }
    PendingExactlyWhenApart(env, s, [], [GO], [], [], false, 1);
    EveryRun(env, [], [GO], [], [], false, 1);
    MissedSomewhere(s, Run(env, [], [GO], [], [], false, 1).world.log);
  }

  lemma OutsideGo()
    ensures FromOutside([GO]) && AllFrom([], Steered) && AllFrom([], FollowedUp)
  {
  }

  lemma OverlappingRun()
    ensures !RunApart(Scripted(A, A, Always), [], [GO], [], [], false, 1)
  {
    var env := Scripted(A, A, Always);
    hide Scripted, Opening, Turn, TurnApart, FirstPoll;
    OverlappingTurn();
    OpeningUnqueued(A, A, Always);
    OpeningIs(env);
  }

  lemma OverlappingTurn()
    ensures var env := Scripted(A, A, Always); !TurnApart(env, Opening(env).world, [], true)
  {
    var env := Scripted(A, A, Always);
    assert !env.sequential;
    assert !Stopped(Asking(A, A));
    hide Scripted, Opening, Responding, Refusals, CallsOf, Asking, Stopped;
    BothPrepared();
    Asks(A, A);
    var calls, flags := [A, A], [false, false];
    assert !Separate(calls, flags) by { assert calls[0].id == calls[1].id && !flags[0]; }
  }

  lemma BothPrepared()
    ensures var env := Scripted(A, A, Always);
            var r := Responding(env, Opening(env).world, [], true);
            r.message == Asking(A, A) && Refusals(env, r.world, [A, A]) == [false, false]
  {
    hide ReadAll, Scripted, Opening, Responding, Refusals, Asking, Ids;
    var env := Scripted(A, A, Always);
    FirstResponse(A, A, Always);
    ScriptedRefusals(A, A, Always, Responding(env, Opening(env).world, [], true).world);
  }

  lemma OpeningIs(env: Env)
    ensures Opening(env) == FirstPoll(env, [], [GO], [], [], false)
  {
  }

  lemma MissedSomewhere(s: AgentState, log: seq<Action>)
    requires s.pendingToolCalls == {} && ReadAll(log).ok && !ExactThroughout(s, log)
    ensures exists n: nat, id :: n <= |log| && id in ReadAll(log[..n]).running
                                 && id !in HandleAll(s, Streamed(log[..n])).pendingToolCalls
  {
    hide ReadAll, HandleAll, Streamed, Orderly;
    var n: nat :| n <= |log| && !ExactAfter(s, log, n);
    OkPrefix(log, n);
    PendingFold(s, log[..n]);
    var id :| (id in HandleAll(s, Streamed(log[..n])).pendingToolCalls) != (id in ReadAll(log[..n]).running);
  }
}
