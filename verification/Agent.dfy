/** The loop and the Agent as they are: objects whose fields the methods update,
    with the loops of agent-loop.ts and agent.ts in packages/pi-agent-core/src. */
module AgentObjects {
  import opened Common
  import opened AgentModel
  import opened AgentTools
  import opened AgentRuns
  import opened AgentFold

  class Agent {
    var messages: seq<Message>
    var isStreaming: bool
    var streamMessage: Option<Message>
    var pendingToolCalls: set<string>
    var error: Option<string>
    var steeringQueue: seq<Message>
    var followUpQueue: seq<Message>
    var steeringAll: bool
    var followUpAll: bool

    constructor (messages: seq<Message>)
      ensures State() == AgentState(messages, false, None, {}, None)
      ensures steeringQueue == followUpQueue == [] && !steeringAll && !followUpAll
    {
      this.messages, isStreaming, streamMessage, pendingToolCalls, error := messages, false, None, {}, None;
      steeringQueue, followUpQueue, steeringAll, followUpAll := [], [], false, false;
    }

    function State(): AgentState
      reads this
    {
      AgentState(messages, isStreaming, streamMessage, pendingToolCalls, error)
    }

    method Steer(m: Message)
      modifies this`steeringQueue
      ensures steeringQueue == old(steeringQueue) + [m]
    {
      steeringQueue := steeringQueue + [m];
    }

    method FollowUp(m: Message)
      modifies this`followUpQueue
      ensures followUpQueue == old(followUpQueue) + [m]
    {
      followUpQueue := followUpQueue + [m];
    }

    method DequeueSteeringMessages() returns (batch: seq<Message>)
      modifies this`steeringQueue
      ensures Dequeued(batch, steeringQueue) == Dequeue(old(steeringQueue), steeringAll)
      ensures batch + steeringQueue == old(steeringQueue)
      ensures |batch| == if old(steeringQueue) == [] then 0 else if steeringAll then |old(steeringQueue)| else 1
    {
      if !steeringAll {
        if |steeringQueue| > 0 {
          var first := steeringQueue[0];
          steeringQueue := steeringQueue[1..];
          return [first];
        }
        return [];
      }
      batch := steeringQueue;
      steeringQueue := [];
    }

    method DequeueFollowUpMessages() returns (batch: seq<Message>)
      modifies this`followUpQueue
      ensures Dequeued(batch, followUpQueue) == Dequeue(old(followUpQueue), followUpAll)
      ensures batch + followUpQueue == old(followUpQueue)
      ensures |batch| == if old(followUpQueue) == [] then 0 else if followUpAll then |old(followUpQueue)| else 1
    {
      if !followUpAll {
        if |followUpQueue| > 0 {
          var first := followUpQueue[0];
          followUpQueue := followUpQueue[1..];
          return [first];
        }
        return [];
      }
      batch := followUpQueue;
      followUpQueue := [];
    }

    /** The Agent's reaction to one event of the stream. */
    method HandleEvent(e: Event)
      modifies this`messages, this`isStreaming, this`streamMessage, this`pendingToolCalls, this`error
      ensures State() == Handle(old(State()), e)
    {
      match e
      case MessageStart(m) => streamMessage := Some(m);
      case MessageUpdate(m) => streamMessage := Some(m);
      case MessageEnd(m) =>
        streamMessage := None;
        messages := messages + [m];
      case ToolStart(id, _) => pendingToolCalls := pendingToolCalls + {id};
      case ToolEnd(id, _, _) => pendingToolCalls := pendingToolCalls - {id};
      case TurnEnd(m, _) =>
        if m.Assistant? && m.error != "" {
          error := Some(m.error);
        }
      case AgentEnd(_) =>
        isStreaming := false;
        streamMessage := None;
      case _ =>
    }

    /** Takes the events off the stream until it closes. */
    method Drain(log: seq<Action>)
      modifies this`messages, this`isStreaming, this`streamMessage, this`pendingToolCalls, this`error
      ensures State() == HandleAll(old(State()), Streamed(log))
    {
      hide Handle;
      ghost var start := State();
      var closed := false;
      assert log[..0] == [];
      for i := 0 to |log|
        invariant State() == HandleAll(start, Streamed(log[..i]))
        invariant var events := Streamed(log[..i]); closed <==> events != [] && events[|events| - 1].AgentEnd?
      {
        assert log[..i + 1][..i] == log[..i];
        if log[i].Emit? && !closed {
          HandleSnoc(start, Streamed(log[..i]), log[i].event);
          HandleEvent(log[i].event);
          closed := log[i].event.AgentEnd?;
        }
      }
      assert log[..|log|] == log;
    }

    /** Runs the loop and drains its stream into this state. */
    method RunAndDrain(env: Env, prompts: seq<Message>, skipInitialSteeringPoll: bool, rounds: nat)
      returns (finished: bool)
      modifies this
      ensures var e := Run(env, old(messages), prompts, old(steeringQueue), old(followUpQueue),
                           skipInitialSteeringPoll, rounds);
              && finished == e.finished && steeringQueue == e.world.steering && followUpQueue == e.world.followUps
              && State() == Drained(e, old(messages), old(pendingToolCalls))
    {
      hide HandleAll, Streamed, Loop, PollSteering;
      isStreaming := true;
      streamMessage := None;
      error := None;
      var loop := new AgentLoop(this, messages, prompts, skipInitialSteeringPoll);
      loop.Begin(prompts);
      ghost var pending;
      finished, pending := loop.RunLoop(env, rounds);
      Drain(loop.log);
      if finished {
        isStreaming := false;
        streamMessage := None;
        pendingToolCalls := {};
      }
    }

    method Prompt(env: Env, prompts: seq<Message>, rounds: nat) returns (outcome: Outcome)
      modifies this
      ensures old(isStreaming) ==>
                outcome == Busy && State() == old(State()) && steeringQueue == old(steeringQueue)
                    && followUpQueue == old(followUpQueue)
      ensures !old(isStreaming) ==>
                var e := Run(env, old(messages), prompts, old(steeringQueue), old(followUpQueue), false, rounds);
                && outcome == Completed(e.finished) && steeringQueue == e.world.steering
                  && followUpQueue == e.world.followUps
                && State() == Drained(e, old(messages), old(pendingToolCalls))
    {
      hide Run, Drained;
      if isStreaming {
        return Busy;
      }
      var finished := RunAndDrain(env, prompts, false, rounds);
      return Completed(finished);
    }

    /** Continues the conversation; after a response it needs a queued message,
        steering before follow-ups, and steering taken here is not polled for
        again at the start of the run. */
    method Continue(env: Env, rounds: nat) returns (outcome: Outcome)
      modifies this
      ensures outcome == Busy <==> old(isStreaming)
      ensures outcome == NoMessages <==> !old(isStreaming) && old(messages) == []
      ensures outcome == NothingQueued <==>
                !old(isStreaming) && old(messages) != [] && old(messages)[|old(messages)| - 1].Assistant?
                && old(steeringQueue) == [] && old(followUpQueue) == []
      ensures !outcome.Completed? ==>
                State() == old(State()) && steeringQueue == old(steeringQueue) && followUpQueue == old(followUpQueue)
      ensures outcome.Completed? ==>
                var e := Resumed(env, old(messages), old(steeringQueue), old(followUpQueue), old(steeringAll),
                                 old(followUpAll), rounds);
                && outcome.finished == e.finished && steeringQueue == e.world.steering
                  && followUpQueue == e.world.followUps
                && State() == Drained(e, old(messages), old(pendingToolCalls))
    {
      hide Run, Drained;
      if isStreaming {
        return Busy;
      }
      if |messages| == 0 {
        return NoMessages;
      }
      var finished;
      if messages[|messages| - 1].Assistant? {
        var queuedSteering := DequeueSteeringMessages();
        if |queuedSteering| > 0 {
          finished := RunAndDrain(env, queuedSteering, true, rounds);
          return Completed(finished);
        }
        var queuedFollowUp := DequeueFollowUpMessages();
        if |queuedFollowUp| > 0 {
          finished := RunAndDrain(env, queuedFollowUp, false, rounds);
          return Completed(finished);
        }
        return NothingQueued;
      }
      finished := RunAndDrain(env, [], false, rounds);
      return Completed(finished);
    }
  }

  /** The Agent's state once a run, or the part of it watched, is drained. */
  function Drained(e: End, messages: seq<Message>, pending: set<string>): AgentState {
    var drained := HandleAll(AgentState(messages, true, None, pending, None), Streamed(e.world.log));
    if e.finished then drained.(isStreaming := false, streamMessage := None, pendingToolCalls := {}) else drained
  }

  datatype Outcome = Busy | NoMessages | NothingQueued | Completed(finished: bool)

  /** One run of the loop, with the stream it pushes to (in `log`). */
  class AgentLoop {
    const agent: Agent
    var context: seq<Message>
    var newMessages: seq<Message>
    var log: seq<Action>
    var clock: nat
    var skipPoll: bool

    constructor (agent: Agent, before: seq<Message>, prompts: seq<Message>, skipPoll: bool)
      ensures this.agent == agent
      ensures Now() == World(before + prompts, prompts, [], 0, agent.steeringQueue, agent.followUpQueue, skipPoll)
    {
      this.agent := agent;
      context, newMessages, log, clock := before + prompts, prompts, [], 0;
      this.skipPoll := skipPoll;
    }

    function Now(): World
      reads this, agent
    {
      World(context, newMessages, log, clock, agent.steeringQueue, agent.followUpQueue, skipPoll)
    }

    method Note(a: Action)
      modifies this`log
      ensures Now() == Push(old(Now()), a)
    {
      log := log + [a];
    }

    method AnnounceMessage(m: Message)
      modifies this`log
      ensures Now() == Announce(old(Now()), m)
    {
      Note(Emit(MessageStart(m)));
      Note(Emit(MessageEnd(m)));
    }

    /** Whatever is queued, and whatever modes are set, while the loop awaits. */
    method Wait(env: Env)
      modifies this`clock, agent`steeringQueue, agent`followUpQueue, agent`steeringAll, agent`followUpAll
      ensures Now() == Await(env, old(Now()))
      ensures agent.steeringAll == env.steerAll(old(clock)) && agent.followUpAll == env.followUpAll(old(clock))
    {
      var steer, follow := env.steer(clock), env.followUp(clock);
      for i := 0 to |steer|
        invariant agent.steeringQueue == old(agent.steeringQueue) + Tagged(Steered, steer)[..i]
        invariant agent.followUpQueue == old(agent.followUpQueue) && clock == old(clock)
      {
        agent.Steer(User(Steered, steer[i]));
      }
      for i := 0 to |follow|
        invariant agent.followUpQueue == old(agent.followUpQueue) + Tagged(FollowedUp, follow)[..i]
        invariant agent.steeringQueue == old(agent.steeringQueue) + Tagged(Steered, steer) && clock == old(clock)
      {
        agent.FollowUp(User(FollowedUp, follow[i]));
      }
      assert Tagged(Steered, steer)[..|steer|] == Tagged(Steered, steer);
      assert Tagged(FollowedUp, follow)[..|follow|] == Tagged(FollowedUp, follow);
      agent.steeringAll, agent.followUpAll := env.steerAll(clock), env.followUpAll(clock);
      clock := clock + 1;
    }

    method GetSteeringMessages(env: Env) returns (batch: seq<Message>)
      modifies this, agent
      ensures Polled(Now(), batch) == PollSteering(env, old(Now())) && agent.State() == old(agent.State())
    {
      Wait(env);
      if skipPoll {
        skipPoll := false;
        batch := [];
      } else {
        batch := agent.DequeueSteeringMessages();
      }
      Note(SteeringPolled(batch));
    }

    method GetFollowUpMessages(env: Env) returns (batch: seq<Message>)
      modifies this, agent
      ensures Polled(Now(), batch) == PollFollowUps(env, old(Now())) && agent.State() == old(agent.State())
    {
      Wait(env);
      batch := agent.DequeueFollowUpMessages();
      Note(FollowUpPolled(batch));
    }

    method Begin(prompts: seq<Message>)
      modifies this`log
      ensures Now() == AnnounceAll(Send(Send(old(Now()), AgentStart), TurnStart), prompts)
    {
      Note(Emit(AgentStart));
      Note(Emit(TurnStart));
      ghost var begun := Now();
      for i := 0 to |prompts|
        invariant AnnounceAll(Now(), prompts[i..]) == AnnounceAll(begun, prompts)
      {
        assert prompts[i..][1..] == prompts[i + 1..];
        AnnounceMessage(prompts[i]);
      }
    }

    method InjectPending(pending: seq<Message>)
      modifies this
      ensures Now() == Inject(old(Now()), pending)
    {
      for i := 0 to |pending|
        invariant Inject(Now(), pending[i..]) == Inject(old(Now()), pending)
      {
        var message := pending[i];
        assert pending[i..][1..] == pending[i + 1..];
        AnnounceMessage(message);
        context := context + [message];
        newMessages := newMessages + [message];
      }
    }

    method StreamAssistantResponse(env: Env) returns (message: Message)
      modifies this, agent
      ensures Response(Now(), message) == Respond(env, old(Now())) && agent.State() == old(agent.State())
    {
      var reply := env.reply(clock);
      Wait(env);
      Note(ModelCalled);
      match reply
      case Throws(error, aborted) =>
        message := Assistant([], if aborted then Aborted else Failed, error);
        AnnounceMessage(message);
        context := context + [message];
      case Streams(chunks, final) =>
        message := FollowChunks(chunks, final);
    }

    method FollowChunks(chunks: seq<Chunk>, final: Message) returns (message: Message)
      modifies this
      ensures Response(Now(), message) == StreamChunks(old(Now()), chunks, final, false)
    {
      var addedPartial := false;
      for i := 0 to |chunks|
        invariant addedPartial ==> context != []
        invariant StreamChunks(Now(), chunks[i..], final, addedPartial) ==
                  StreamChunks(old(Now()), chunks, final, false)
      {
        assert chunks[i..][1..] == chunks[i + 1..];
        match chunks[i]
        case Started(partial) =>
          context := context + [partial];
          addedPartial := true;
          Note(Emit(MessageStart(partial)));
        case Updated(partial) =>
          if addedPartial {
            context := context[|context| - 1 := partial];
            Note(Emit(MessageUpdate(partial)));
          }
        case Ended =>
          if addedPartial {
            context := context[|context| - 1 := final];
          } else {
            context := context + [final];
            Note(Emit(MessageStart(final)));
          }
          Note(Emit(MessageEnd(final)));
          return final;
      }
      return final;
    }

    method EmitToolCallOutcome(call: Call, output: Output, isError: bool) returns (result: Message)
      modifies this`log
      ensures Ran(Now(), result) == FinishTool(old(Now()), call, output, isError)
    {
      Note(Emit(ToolEnd(call.id, output, isError)));
      result := ToolResult(call.id, call.name, output, isError);
      AnnounceMessage(result);
    }

    method SkipToolCall(call: Call, emitStart: bool) returns (result: Message)
      modifies this`log
      ensures Ran(Now(), result) == SkipOneCall(old(Now()), call, emitStart)
    {
      if emitStart {
        Note(Emit(ToolStart(call.id, call.name)));
      }
      result := EmitToolCallOutcome(call, ErrorOutput("Skipped due to queued user message."), true);
    }

    method SkipToolCalls(calls: seq<Call>, emitStart: bool) returns (results: seq<Message>)
      modifies this`log
      ensures Executed(Now(), results, []) == Skip(old(Now()), calls, emitStart)
    {
      hide Skip, SkipOneCall;
      results := [];
      SkipUnfolds(Now(), calls, emitStart);
      assert calls[0..] == calls && [] + Skip(Now(), calls, emitStart).results == Skip(Now(), calls, emitStart).results;
      for i := 0 to |calls|
        invariant var rest := Skip(Now(), calls[i..], emitStart);
                  Executed(rest.world, results + rest.results, []) == Skip(old(Now()), calls, emitStart)
      {
        assert calls[i..][1..] == calls[i + 1..];
        SkipUnfolds(Now(), calls[i..], emitStart);
        var result := SkipToolCall(calls[i], emitStart);
        ghost var rest := Skip(Now(), calls[i + 1..], emitStart);
        assert (results + [result]) + rest.results == results + ([result] + rest.results);
        results := results + [result];
      }
      SkipUnfolds(Now(), calls[|calls|..], emitStart);
    }

    /** Runs a prepared call, with the hook after it, and announces its result. */
    method ExecutePrepared(env: Env, call: Call) returns (result: Message)
      modifies this, agent
      ensures Ran(Now(), result) == Execute(env, old(Now()), call) && agent.State() == old(agent.State())
    {
      hide Await, FinishTool;
      var executed := env.execute(clock);
      Wait(env);
      ghost var waited := Now();
      for i := 0 to executed.updates
        invariant Now() == Updates(waited, call, i) && agent.State() == old(agent.State())
      {
        Note(Emit(ToolUpdate(call.id)));
      }
      var output, isError := executed.output, executed.isError;
      if executed.after.Some? {
        var after := executed.after.value;
        output := Output(if after.content.Some? then after.content.value else output.content,
                         if after.details.Some? then after.details.value else output.details);
        isError := if after.isError.Some? then after.isError.value else isError;
      }
      result := EmitToolCallOutcome(call, output, isError);
    }

    /** One call from its start to its result. */
    method ExecuteOne(env: Env, call: Call) returns (result: Message)
      modifies this, agent
      ensures Ran(Now(), result) == OneCall(env, old(Now()), call) && agent.State() == old(agent.State())
    {
      hide Execute, FinishTool;
      Note(Emit(ToolStart(call.id, call.name)));
      var preparation := env.prepare(clock);
      Wait(env);
      if !preparation.Runs? {
        result := EmitToolCallOutcome(call, Refusal(call, preparation), true);
      } else {
        result := ExecutePrepared(env, call);
      }
    }

    method ExecuteToolCallsSequential(env: Env, calls: seq<Call>)
      returns (results: seq<Message>, steering: seq<Message>)
      modifies this, agent
      ensures Executed(Now(), results, steering) == Sequential(env, old(Now()), calls)
              && agent.State() == old(agent.State())
    {
      hide Sequential, OneCall, PollSteering, Skip;
      results, steering := [], [];
      for index := 0 to |calls|
        invariant agent.State() == old(agent.State()) && steering == []
        invariant var rest := Sequential(env, Now(), calls[index..]);
                  Executed(rest.world, results + rest.results, rest.steering) == Sequential(env, old(Now()), calls)
      {
        ghost var was := results;
        assert calls[index..][0] == calls[index] && calls[index..][1..] == calls[index + 1..];
        SequentialUnfolds(env, Now(), calls[index..]);
        var result := ExecuteOne(env, calls[index]);
        results := results + [result];
        var batch := GetSteeringMessages(env);
        if |batch| > 0 {
          steering := batch;
          var skipped := SkipToolCalls(calls[index + 1..], true);
          assert was + ([result] + skipped) == (was + [result]) + skipped;
          results := results + skipped;
          return;
        }
        ghost var rest := Sequential(env, Now(), calls[index + 1..]);
        assert was + ([result] + rest.results) == (was + [result]) + rest.results;
      }
      SequentialUnfolds(env, Now(), calls[|calls|..]);
    }

    /** Finishes the started calls in order, their updates coming in between. */
    method FinishRunning(env: Env, calls: seq<Call>) returns (results: seq<Message>)
      modifies this, agent
      ensures Executed(Now(), results, []) == RunTogether(env, old(Now()), calls) && agent.State() == old(agent.State())
    {
      hide Execute;
      results := [];
      for i := 0 to |calls|
        invariant agent.State() == old(agent.State())
        invariant var rest := RunTogether(env, Now(), calls[i..]);
                  Executed(rest.world, results + rest.results, []) == RunTogether(env, old(Now()), calls)
      {
        var running := calls[i..];
        assert running[0] == calls[i] && running[1..] == calls[i + 1..];
        var picks := env.interleaved(clock);
        ghost var before := Now();
        for k := 0 to |picks|
          invariant Interleave(Now(), running, picks[k..]) == Interleave(before, running, picks)
          invariant agent.State() == old(agent.State()) && clock == before.clock
        {
          assert picks[k..][1..] == picks[k + 1..];
          Note(Emit(ToolUpdate(running[picks[k] % |running|].id)));
        }
        var result := ExecutePrepared(env, calls[i]);
        ghost var rest := RunTogether(env, Now(), calls[i + 1..]);
        assert (results + [result]) + rest.results == results + ([result] + rest.results);
        results := results + [result];
      }
    }

    method PrepareToolCall(env: Env, call: Call) returns (refused: bool, results: seq<Message>)
      modifies this, agent
      ensures Preflighted(Now(), refused, results) == Preflight(env, old(Now()), call)
              && agent.State() == old(agent.State())
    {
      Note(Emit(ToolStart(call.id, call.name)));
      var preparation := env.prepare(clock);
      Wait(env);
      refused, results := false, [];
      if !preparation.Runs? {
        var result := EmitToolCallOutcome(call, Refusal(call, preparation), true);
        refused, results := true, [result];
      }
    }

    method ExecuteToolCallsParallel(env: Env, calls: seq<Call>) returns (results: seq<Message>, steering: seq<Message>)
      modifies this, agent
      ensures Executed(Now(), results, steering) == Parallel(env, old(Now()), calls, [])
              && agent.State() == old(agent.State())
    {
      hide Parallel, Preflight, RunTogether, FinishTool, PollSteering, Skip;
      results, steering := [], [];
      var runnable := [];
      for index := 0 to |calls|
        invariant agent.State() == old(agent.State()) && steering == []
        invariant var rest := Parallel(env, Now(), calls[index..], runnable);
                  Executed(rest.world, results + rest.results, rest.steering) == Parallel(env, old(Now()), calls, [])
      {
        ghost var was := results;
        assert calls[index..][0] == calls[index] && calls[index..][1..] == calls[index + 1..];
        ParallelUnfolds(env, Now(), calls[index..], runnable);
        var refused, mine := PrepareToolCall(env, calls[index]);
        results := results + mine;
        if !refused {
          runnable := runnable + [calls[index]];
        }
        var batch := GetSteeringMessages(env);
        if |batch| > 0 {
          steering := batch;
          var prepared := SkipToolCalls(runnable, false);
          var remaining := SkipToolCalls(calls[index + 1..], true);
          assert was + (mine + prepared + remaining) == ((was + mine) + prepared) + remaining;
          results := results + prepared + remaining;
          return;
        }
        ghost var rest := Parallel(env, Now(), calls[index + 1..], runnable);
        assert was + (mine + rest.results) == (was + mine) + rest.results;
      }
      ParallelEnds(env, Now(), runnable);
      assert calls[|calls|..] == [];
      var ran := FinishRunning(env, runnable);
      results := results + ran;
      steering := GetSteeringMessages(env);
    }

    method TakeTurn(env: Env, pending: seq<Message>, first: bool)
      returns (stopped: bool, more: bool, next: seq<Message>)
      modifies this, agent
      ensures Turned(Now(), stopped, more, next) == Turn(env, old(Now()), pending, first)
              && agent.State() == old(agent.State())
    {
      hide Inject, Respond, Sequential, Parallel, PollSteering, Calls;
      if !first {
        Note(Emit(TurnStart));
      }
      InjectPending(pending);
      var message := StreamAssistantResponse(env);
      newMessages := newMessages + [message];
      if Stopped(message) {
        Note(Emit(TurnEnd(message, [])));
        Note(Emit(AgentEnd(newMessages)));
        return true, false, [];
      }
      var toolCalls := CallsOf(message);
      more := |toolCalls| > 0;
      var toolResults, steeringAfterTools := [], [];
      if more {
        if env.sequential {
          toolResults, steeringAfterTools := ExecuteToolCallsSequential(env, toolCalls);
        } else {
          toolResults, steeringAfterTools := ExecuteToolCallsParallel(env, toolCalls);
        }
      }
      context := context + toolResults;
      newMessages := newMessages + toolResults;
      Note(Emit(TurnEnd(message, toolResults)));
      stopped := false;
      if |steeringAfterTools| > 0 {
        next := steeringAfterTools;
      } else {
        next := GetSteeringMessages(env);
      }
    }

    /** The two loops: turns while there is something to do, then follow-ups. */
    method RunLoop(env: Env, rounds: nat) returns (finished: bool, pending: seq<Message>)
      modifies this, agent
      ensures End(Now(), finished, pending) ==
              (var poll := PollSteering(env, old(Now())); Loop(env, poll.world, poll.batch, true, true, rounds))
      ensures agent.State() == old(agent.State())
    {
      hide PollSteering, PollFollowUps, Turn;
      var firstTurn, left := true, rounds;
      pending := GetSteeringMessages(env);
      ghost var all := Loop(env, Now(), pending, true, true, rounds);
      while true
        invariant agent.State() == old(agent.State())
        invariant Loop(env, Now(), pending, firstTurn, true, left) == all
        decreases left
      {
        var hasMoreToolCalls := true;
        ghost var before := left;
        while hasMoreToolCalls || |pending| > 0
          invariant agent.State() == old(agent.State()) && left <= before
          invariant Loop(env, Now(), pending, firstTurn, hasMoreToolCalls, left) == all
          decreases left
        {
          if left == 0 {
            return false, pending;
          }
          left := left - 1;
          var stopped, more, next := TakeTurn(env, pending, firstTurn);
          if stopped {
            return true, [];
          }
          firstTurn, hasMoreToolCalls, pending := false, more, next;
        }
        if left == 0 {
          return false, pending;
        }
        left := left - 1;
        var followUpMessages := GetFollowUpMessages(env);
        if |followUpMessages| == 0 {
          Note(Emit(AgentEnd(newMessages)));
          return true, [];
        }
        pending := followUpMessages;
      }
    }
  }

  function SkipOneCall(w: World, call: Call, emitStart: bool): Ran {
    FinishTool(if emitStart then StartTool(w, call) else w, call, ErrorOutput("Skipped due to queued user message."),
               true)
  }

  lemma SkipUnfolds(w: World, calls: seq<Call>, emitStart: bool)
    ensures Skip(w, calls, emitStart).steering == []
    ensures Skip(w, calls, emitStart) ==
            if calls == [] then Executed(w, [], [])
            else
              var one := SkipOneCall(w, calls[0], emitStart);
              var rest := Skip(one.world, calls[1..], emitStart);
              Executed(rest.world, [one.result] + rest.results, [])
  {
    hide FinishTool, StartTool;
  }
}
