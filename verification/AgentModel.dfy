/** The agent loop of packages/pi-agent-core/src/agent-loop.ts, as a function of
    what its environment decides: provider replies, tool outcomes, and the
    messages queued meanwhile.  Everything the loop does is on its log. */
module AgentModel {
  import opened Common

  datatype Origin = Prompted | Steered | FollowedUp

  datatype StopReason = Stop | Length | ToolUse | Failed | Aborted

  datatype Call = Call(id: string, name: string)

  datatype Block = Text(text: string) | Thinking(text: string) | ToolCall(call: Call)

  datatype Output = Output(content: string, details: string)

  /** `User` stands for every message that is neither the model's nor a tool's,
      with the way it came in. */
  datatype Message =
    | User(origin: Origin, text: string)
    | Assistant(content: seq<Block>, stop: StopReason, error: string)
    | ToolResult(callId: string, name: string, output: Output, isError: bool)

  datatype Event =
    | AgentStart
    | AgentEnd(messages: seq<Message>)
    | TurnStart
    | TurnEnd(message: Message, results: seq<Message>)
    | MessageStart(message: Message)
    | MessageUpdate(message: Message)
    | MessageEnd(message: Message)
    | ToolStart(id: string, name: string)
    | ToolUpdate(id: string)
    | ToolEnd(id: string, output: Output, isError: bool)

  /** Events pushed to the stream, polls with what they returned, model calls. */
  datatype Action = Emit(event: Event) | SteeringPolled(batch: seq<Message>) | FollowUpPolled(batch: seq<Message>)
      | ModelCalled

  // ---- the environment ------------------------------------------------------------

  datatype Chunk = Started(partial: Message) | Updated(partial: Message) | Ended

  /** A provider call fails before its stream starts, or streams chunks. */
  datatype Reply = Throws(error: string, aborted: bool) | Streams(chunks: seq<Chunk>, final: Message)

  datatype Preparation = NotFound | Invalid(error: string) | Blocked(reason: Option<string>) | Runs

  datatype Execution = Execution(updates: nat, output: Output, isError: bool, after: Option<Override>)

  datatype Override = Override(content: Option<string>, details: Option<string>, isError: Option<bool>)

  /** The environment's decisions, by the loop's clock, which ticks wherever the
      loop awaits.  `steer` and `followUp` are the texts queued at that tick;
      `interleaved` picks, of the tools running, those that report progress. */
  datatype Env = Env(
    steer: nat -> seq<string>,
    followUp: nat -> seq<string>,
    steerAll: nat -> bool,
    followUpAll: nat -> bool,
    reply: nat -> Reply,
    prepare: nat -> Preparation,
    execute: nat -> Execution,
    interleaved: nat -> seq<nat>,
    sequential: bool)

  // ---- the state --------------------------------------------------------------------

  datatype World = World(
    context: seq<Message>,
    newMessages: seq<Message>,
    log: seq<Action>,
    clock: nat,
    steering: seq<Message>,
    followUps: seq<Message>,
    skipPoll: bool)

  function Push(w: World, a: Action): World {
    w.(log := w.log + [a])
  }

  function Send(w: World, e: Event): World {
    Push(w, Emit(e))
  }

  function Announce(w: World, m: Message): World {
    Send(Send(w, MessageStart(m)), MessageEnd(m))
  }

  function Tagged(origin: Origin, texts: seq<string>): seq<Message> {
    seq(|texts|, i requires 0 <= i < |texts| => User(origin, texts[i]))
  }

  /** While the loop awaits, messages may be queued. */
  function Await(env: Env, w: World): World {
    w.(steering := w.steering + Tagged(Steered, env.steer(w.clock)),
       followUps := w.followUps + Tagged(FollowedUp, env.followUp(w.clock)),
       clock := w.clock + 1)
  }

  datatype Dequeued = Dequeued(batch: seq<Message>, rest: seq<Message>)

  function Dequeue(queue: seq<Message>, all: bool): Dequeued {
    if all then Dequeued(queue, [])
    else if queue != [] then Dequeued(queue[..1], queue[1..])
    else Dequeued([], [])
  }

  datatype Polled = Polled(world: World, batch: seq<Message>)

  function PollSteering(env: Env, w: World): Polled {
    var a := Await(env, w);
    if w.skipPoll then Polled(Push(a.(skipPoll := false), SteeringPolled([])), [])
    else
      var d := Dequeue(a.steering, env.steerAll(w.clock));
      Polled(Push(a.(steering := d.rest), SteeringPolled(d.batch)), d.batch)
  }

  function PollFollowUps(env: Env, w: World): Polled {
    var a := Await(env, w);
    var d := Dequeue(a.followUps, env.followUpAll(w.clock));
    Polled(Push(a.(followUps := d.rest), FollowUpPolled(d.batch)), d.batch)
  }

  // ---- one response -------------------------------------------------------------------

  /** Pending messages are announced and join the conversation. */
  function Inject(w: World, pending: seq<Message>): World
    decreases |pending|
  {
    if pending == [] then w
    else
      var m := pending[0];
      var w1 := Announce(w, m);
      Inject(w1.(context := w1.context + [m], newMessages := w1.newMessages + [m]), pending[1..])
  }

  datatype Response = Response(world: World, message: Message)

  function StreamChunks(w: World, chunks: seq<Chunk>, final: Message, added: bool): Response
    requires added ==> w.context != []
    decreases |chunks|
  {
    if chunks == [] then Response(w, final)
    else
      match chunks[0]
      case Started(p) =>
        StreamChunks(Send(w.(context := w.context + [p]), MessageStart(p)), chunks[1..], final, true)
      case Updated(p) =>
        if added then
          StreamChunks(Send(w.(context := w.context[|w.context| - 1 := p]), MessageUpdate(p)), chunks[1..], final, true)
        else StreamChunks(w, chunks[1..], final, false)
      case Ended =>
        var w1 := if added then w.(context := w.context[|w.context| - 1 := final])
                  else Send(w.(context := w.context + [final]), MessageStart(final));
        Response(Send(w1, MessageEnd(final)), final)
  }

  function Respond(env: Env, w: World): Response {
    var called := Push(Await(env, w), ModelCalled);
    match env.reply(w.clock)
    case Streams(chunks, final) => StreamChunks(called, chunks, final, false)
    case Throws(error, aborted) =>
      var m := Assistant([], if aborted then Aborted else Failed, error);
      var w1 := Announce(called, m);
      Response(w1.(context := w1.context + [m]), m)
  }

  function Calls(content: seq<Block>): seq<Call> {
    if content == [] then []
    else (if content[0].ToolCall? then [content[0].call] else []) + Calls(content[1..])
  }

  // ---- tools ----------------------------------------------------------------------------

  datatype Ran = Ran(world: World, result: Message)

  function StartTool(w: World, call: Call): World {
    Send(w, ToolStart(call.id, call.name))
  }

  function FinishTool(w: World, call: Call, output: Output, isError: bool): Ran {
    var result := ToolResult(call.id, call.name, output, isError);
    Ran(Announce(Send(w, ToolEnd(call.id, output, isError)), result), result)
  }

  function ErrorOutput(text: string): Output {
    Output(text, "")
  }

  function Refusal(call: Call, p: Preparation): Output
    requires !p.Runs?
  {
    match p
    case NotFound => ErrorOutput("Tool " + call.name + " not found")
    case Invalid(error) => ErrorOutput(error)
    case Blocked(reason) =>
      ErrorOutput(if reason.Some? && reason.value != "" then reason.value else "Tool execution was blocked")
  }

  function Updates(w: World, call: Call, n: nat): World {
    if n == 0 then w else Send(Updates(w, call, n - 1), ToolUpdate(call.id))
  }

  /** What the hook after a call leaves of its outcome, field by field. */
  function Amended(e: Execution): (Output, bool) {
    match e.after
    case None => (e.output, e.isError)
    case Some(o) =>
      (Output(if o.content.Some? then o.content.value else e.output.content,
              if o.details.Some? then o.details.value else e.output.details),
       if o.isError.Some? then o.isError.value else e.isError)
  }

  function Execute(env: Env, w: World, call: Call): Ran {
    var e := env.execute(w.clock);
    var (output, isError) := Amended(e);
    FinishTool(Updates(Await(env, w), call, e.updates), call, output, isError)
  }

  datatype Executed = Executed(world: World, results: seq<Message>, steering: seq<Message>)

  /** Calls not to be run: started, unless they already are, and answered. */
  function Skip(w: World, calls: seq<Call>, emitStart: bool): Executed
    decreases |calls|
  {
    if calls == [] then Executed(w, [], [])
    else
      var w1 := if emitStart then StartTool(w, calls[0]) else w;
      var one := FinishTool(w1, calls[0], ErrorOutput("Skipped due to queued user message."), true);
      var rest := Skip(one.world, calls[1..], emitStart);
      Executed(rest.world, [one.result] + rest.results, [])
  }

  function Sequential(env: Env, w: World, calls: seq<Call>): Executed
    decreases |calls|
  {
    if calls == [] then Executed(w, [], [])
    else
      var call := calls[0];
      var w1 := StartTool(w, call);
      var p := env.prepare(w1.clock);
      var w2 := Await(env, w1);
      var one := if p.Runs? then Execute(env, w2, call) else FinishTool(w2, call, Refusal(call, p), true);
      var poll := PollSteering(env, one.world);
      if poll.batch != [] then
        var skipped := Skip(poll.world, calls[1..], true);
        Executed(skipped.world, [one.result] + skipped.results, poll.batch)
      else
        var rest := Sequential(env, poll.world, calls[1..]);
        Executed(rest.world, [one.result] + rest.results, rest.steering)
  }

  /** Updates of tools still running, in whatever order they come. */
  function Interleave(w: World, running: seq<Call>, picks: seq<nat>): World
    requires running != []
    decreases |picks|
  {
    if picks == [] then w
    else Interleave(Send(w, ToolUpdate(running[picks[0] % |running|].id)), running, picks[1..])
  }

  /** The started calls run together and are finished in their order. */
  function RunTogether(env: Env, w: World, calls: seq<Call>): Executed
    decreases |calls|
  {
    if calls == [] then Executed(w, [], [])
    else
      var w1 := Interleave(w, calls, env.interleaved(w.clock));
      var one := Execute(env, w1, calls[0]);
      var rest := RunTogether(env, one.world, calls[1..]);
      Executed(rest.world, [one.result] + rest.results, [])
  }

  /** `runnable` are the calls prepared so far. */
  function Parallel(env: Env, w: World, calls: seq<Call>, runnable: seq<Call>): Executed
    decreases |calls|
  {
    if calls == [] then
      var ran := RunTogether(env, w, runnable);
      var poll := PollSteering(env, ran.world);
      Executed(poll.world, ran.results, poll.batch)
    else
      var call := calls[0];
      var w1 := StartTool(w, call);
      var p := env.prepare(w1.clock);
      var w2 := Await(env, w1);
      var refused := FinishTool(w2, call, if p.Runs? then ErrorOutput("") else Refusal(call, p), true);
      var w3 := if p.Runs? then w2 else refused.world;
      var results := if p.Runs? then [] else [refused.result];
      var runnable' := if p.Runs? then runnable + [call] else runnable;
      var poll := PollSteering(env, w3);
      if poll.batch != [] then
        var prepared := Skip(poll.world, runnable', false);
        var remaining := Skip(prepared.world, calls[1..], true);
        Executed(remaining.world, results + prepared.results + remaining.results, poll.batch)
      else
        var rest := Parallel(env, poll.world, calls[1..], runnable');
        Executed(rest.world, results + rest.results, rest.steering)
  }

  function ExecuteTools(env: Env, w: World, calls: seq<Call>): Executed {
    if env.sequential then Sequential(env, w, calls) else Parallel(env, w, calls, [])
  }

  // ---- turns ------------------------------------------------------------------------------

  datatype Turned = Turned(world: World, stopped: bool, more: bool, pending: seq<Message>)

  predicate Stopped(m: Message) {
    m.Assistant? && (m.stop == Failed || m.stop == Aborted)
  }

  function CallsOf(m: Message): seq<Call> {
    if m.Assistant? then Calls(m.content) else []
  }

  /** A response and the tools it asks for, up to the messages pending after. */
  function Turn(env: Env, w: World, pending: seq<Message>, first: bool): Turned {
    var w1 := if first then w else Send(w, TurnStart);
    var r := Respond(env, Inject(w1, pending));
    var w2 := r.world.(newMessages := r.world.newMessages + [r.message]);
    if Stopped(r.message) then
      var w3 := Send(w2, TurnEnd(r.message, []));
      Turned(Send(w3, AgentEnd(w3.newMessages)), true, false, [])
    else
      var calls := CallsOf(r.message);
      var ran := if calls != [] then ExecuteTools(env, w2, calls) else Executed(w2, [], []);
      var w3 := ran.world.(context := ran.world.context + ran.results,
                           newMessages := ran.world.newMessages + ran.results);
      var w4 := Send(w3, TurnEnd(r.message, ran.results));
      if ran.steering != [] then Turned(w4, false, calls != [], ran.steering)
      else
        var poll := PollSteering(env, w4);
        Turned(poll.world, false, calls != [], poll.batch)
  }

  /** Where the loop stands after a number of rounds: `finished` once it has
      ended the stream, otherwise with messages still `pending`. */
  datatype End = End(world: World, finished: bool, pending: seq<Message>)

  /** Turns while there are tool calls or pending messages; then follow-ups.
      `rounds` bounds how long the run is watched, not how long it is. */
  function Loop(env: Env, w: World, pending: seq<Message>, first: bool, more: bool, rounds: nat): End
    decreases rounds
  {
    if rounds == 0 then End(w, false, pending)
    else if more || pending != [] then
      var t := Turn(env, w, pending, first);
      if t.stopped then End(t.world, true, []) else Loop(env, t.world, t.pending, false, t.more, rounds - 1)
    else
      var poll := PollFollowUps(env, w);
      if poll.batch != [] then Loop(env, poll.world, poll.batch, first, true, rounds - 1)
      else End(Send(poll.world, AgentEnd(poll.world.newMessages)), true, [])
  }

  function AnnounceAll(w: World, messages: seq<Message>): World
    decreases |messages|
  {
    if messages == [] then w else AnnounceAll(Announce(w, messages[0]), messages[1..])
  }

  /** A run from a conversation, with prompts or, when there are none, from
      where the conversation stands. */
  function Run(env: Env, before: seq<Message>, prompts: seq<Message>, steering: seq<Message>, followUps: seq<Message>,
               skipPoll: bool, rounds: nat): End
  {
    var w := World(before + prompts, prompts, [], 0, steering, followUps, skipPoll);
    var started := AnnounceAll(Send(Send(w, AgentStart), TurnStart), prompts);
    var poll := PollSteering(env, started);
    Loop(env, poll.world, poll.batch, true, true, rounds)
  }

  // ---- hypotheses on the environment ----------------------------------------------------------

  /** A reply starts at most once and reaches its end. */
  predicate GoodChunks(chunks: seq<Chunk>, started: bool)
    decreases |chunks|
  {
    chunks != [] &&
    match chunks[0]
    case Started(p) => !started && p.Assistant? && GoodChunks(chunks[1..], true)
    case Updated(p) => p.Assistant? && GoodChunks(chunks[1..], started)
    case Ended => true
  }

  predicate GoodReply(r: Reply) {
    r.Streams? ==> r.final.Assistant? && GoodChunks(r.chunks, false)
  }

  ghost predicate GoodEnv(env: Env) {
    forall t: nat :: GoodReply(env.reply(t))
  }
}
