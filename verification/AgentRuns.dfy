/** Whole runs of the agent loop. */
module AgentRuns {
  import opened Common
  import opened AgentModel
  import opened AgentGrammar
  import opened AgentTools
  import opened AgentOutcomes

  /** In a turn whose response has not come yet. */
  ghost predicate Awaiting(w: World) {
    var m := Seen(w);
    && m.ok && m.phase == InTurn && m.open.None? && !m.responded && m.answer.None?
    && m.todo == multiset{} && m.running == multiset{}
  }

  predicate FromOutside(messages: seq<Message>) {
    forall i :: 0 <= i < |messages| ==> messages[i].User?
  }

  lemma AnnounceReads(w: World, x: Message)
    requires Awaiting(w) && x.User?
    ensures var m := Core(w);
            Core(Announce(w, x)) == m.(ended := m.ended + [x],
                                       sinceCall := if m.called then m.sinceCall + 1 else m.sinceCall,
                                       most := if m.called then Max(m.most, m.sinceCall + 1) else m.most)
            && Awaiting(Announce(w, x))
  {
    hide ReadAll;
    SeenPush(w, Emit(MessageStart(x)));
    SeenPush(Send(w, MessageStart(x)), Emit(MessageEnd(x)));
  }

  /** Pending messages join the conversation in order, each announced. */
  lemma {:induction false} InjectReads(w: World, pending: seq<Message>)
    requires Awaiting(w) && FromOutside(pending)
    ensures var v := Inject(w, pending);
            var m := Core(w);
            && v == w.(context := w.context + pending, newMessages := w.newMessages + pending, log := v.log)
            && Awaiting(v)
            && Core(v).ended == m.ended + pending && Core(v).called == m.called
            && (if m.called then Core(v).sinceCall == m.sinceCall + |pending|
                && Core(v).most <= Max(m.most, m.sinceCall + |pending|)
                else Core(v).most == m.most)
    decreases |pending|
  {
    hide ReadAll;
    if pending == [] {
      assert w.context + pending == w.context && w.newMessages + pending == w.newMessages;
    } else {
      var x := pending[0];
      var w1 := Announce(w, x);
      AnnounceReads(w, x);
      var w2 := w1.(context := w1.context + [x], newMessages := w1.newMessages + [x]);
      assert Core(w2) == Core(w1);
      InjectReads(w2, pending[1..]);
      assert (w.context + [x]) + pending[1..] == w.context + pending;
      assert (w.newMessages + [x]) + pending[1..] == w.newMessages + pending;
      assert (Core(w).ended + [x]) + pending[1..] == Core(w).ended + pending;
    }
  }

  /** The response has come: it alone was added, and its calls, unless it was
      stopped, are to be run. */
  ghost predicate Responded(w: World, r: Response) {
    var m := Seen(r.world);
    && r.message.Assistant?
    && Ready(r.world) && m.running == multiset{}
    && m.todo == (if Stopped(r.message) then multiset{} else Ids(CallsOf(r.message)))
    && m.ended == Seen(w).ended + [r.message] && m.called == Seen(w).called
    && m.sinceCall == Seen(w).sinceCall && m.most == Seen(w).most
  }

  lemma {:induction false} StreamReads(w: World, chunks: seq<Chunk>, final: Message, added: bool)
    requires final.Assistant? && GoodChunks(chunks, added) && (added ==> w.context != [])
    requires if added then
               var m := Seen(w);
               && m.ok && m.phase == InTurn && m.open.Some? && m.open.value.Assistant? && !m.responded && m.answer.None?
               && m.todo == multiset{} && m.running == multiset{}
             else Awaiting(w)
    ensures var r := StreamChunks(w, chunks, final, added);
            && Responded(w, r) && r.message == final
            && r.world == w.(context := (if added then w.context[..|w.context| - 1] else w.context) + [final],
                             log := r.world.log)
    decreases |chunks|
  {
    hide ReadAll, StreamChunks, Responded;
    StreamStep(w, chunks, final, added);
    match chunks[0]
    case Started(p) =>
      var v := w.(context := w.context + [p]);
      SeenPush(v, Emit(MessageStart(p)));
      assert Seen(v) == Seen(w);
      StreamReads(Send(v, MessageStart(p)), chunks[1..], final, true);
      StillResponded(w, Send(v, MessageStart(p)), StreamChunks(w, chunks, final, added));
      assert (w.context + [p])[..|w.context|] == w.context;
    case Updated(p) =>
      if added {
        var c := w.context[|w.context| - 1 := p];
        var v := w.(context := c);
        SeenPush(v, Emit(MessageUpdate(p)));
        assert Seen(v) == Seen(w);
        StreamReads(Send(v, MessageUpdate(p)), chunks[1..], final, true);
        StillResponded(w, Send(v, MessageUpdate(p)), StreamChunks(w, chunks, final, added));
        assert c[..|c| - 1] == w.context[..|w.context| - 1];
      } else {
        StreamReads(w, chunks[1..], final, false);
      }
    case Ended =>
      if added {
        StreamEnds(w.(context := w.context[|w.context| - 1 := final]), final);
        StillResponded(w, w.(context := w.context[|w.context| - 1 := final]), StreamChunks(w, chunks, final, added));
        assert w.context[|w.context| - 1 := final] == w.context[..|w.context| - 1] + [final];
      } else {
        var v := w.(context := w.context + [final]);
        SeenPush(v, Emit(MessageStart(final)));
        assert Seen(v) == Seen(w);
        StreamEnds(Send(v, MessageStart(final)), final);
        StillResponded(w, Send(v, MessageStart(final)), StreamChunks(w, chunks, final, added));
      }
  }

  lemma StreamStep(w: World, chunks: seq<Chunk>, final: Message, added: bool)
    requires chunks != [] && (added ==> w.context != [])
    ensures var r := StreamChunks(w, chunks, final, added);
            match chunks[0]
            case Started(p) =>
              r == StreamChunks(Send(w.(context := w.context + [p]), MessageStart(p)), chunks[1..], final, true)
            case Updated(p) =>
              r == if added then
                     StreamChunks(Send(w.(context := w.context[|w.context| - 1 := p]), MessageUpdate(p)), chunks[1..],
                                  final, true)
                   else StreamChunks(w, chunks[1..], final, false)
            case Ended =>
              var w1 := if added then w.(context := w.context[|w.context| - 1 := final])
                        else Send(w.(context := w.context + [final]), MessageStart(final));
              r == Response(Send(w1, MessageEnd(final)), final)
  {
  }

  lemma StreamEnds(w: World, final: Message)
    requires final.Assistant?
    requires var m := Seen(w);
             && m.ok && m.phase == InTurn && m.open.Some? && m.open.value.Assistant? && !m.responded && m.answer.None?
             && m.todo == multiset{} && m.running == multiset{}
    ensures Responded(w, Response(Send(w, MessageEnd(final)), final))
  {
    hide ReadAll;
    SeenPush(w, Emit(MessageEnd(final)));
  }

  /** What has ended so far is all that matters of the world before. */
  lemma StillResponded(w: World, v: World, r: Response)
    requires Responded(v, r)
    requires Seen(v).ended == Seen(w).ended && Seen(v).called == Seen(w).called
    requires Seen(v).sinceCall == Seen(w).sinceCall && Seen(v).most == Seen(w).most
    ensures Responded(w, r)
  {
    hide ReadAll;
  }

  /** One model call adds one assistant message, streamed or made up from the
      error, to the conversation and to the events. */
  lemma RespondReads(env: Env, w: World)
    requires GoodEnv(env) && Awaiting(w)
    ensures var r := Respond(env, w);
            var called := Push(Await(env, w), ModelCalled);
            && Responded(called, r)
            && Seen(called).called && Seen(called).sinceCall == 0 && Seen(called).ended == Seen(w).ended
              && Seen(called).most == Seen(w).most
            && r.world == called.(context := w.context + [r.message], log := r.world.log)
            && Kept(env, w, called, [])
  {
    hide ReadAll, Kept;
    var waited := Await(env, w);
    AwaitKeeps(env, w);
    SeenPush(waited, ModelCalled);
    var called := Push(waited, ModelCalled);
    LogKeeps(env, waited, called.log);
    KeptThen(env, w, waited, called, []);
    assert Awaiting(called);
    assert GoodReply(env.reply(w.clock));
    match env.reply(w.clock)
    case Streams(chunks, final) => StreamReads(called, chunks, final, false);
    case Throws(error, aborted) =>
      var m := Assistant([], if aborted then Aborted else Failed, error);
      MadeUpReads(called, m);
      var v := Announce(called, m);
      assert Respond(env, w) == Response(v.(context := v.context + [m]), m);
      assert v == called.(log := v.log);
  }

  lemma MadeUpReads(w: World, m: Message)
    requires Awaiting(w) && m.Assistant?
    ensures var v := Announce(w, m);
            Responded(w, Response(v.(context := v.context + [m]), m))
  {
    hide ReadAll;
    SeenPush(w, Emit(MessageStart(m)));
    SeenPush(Send(w, MessageStart(m)), Emit(MessageEnd(m)));
    var v := Announce(w, m);
    assert Seen(v.(context := v.context + [m])) == Seen(v);
  }

  // ---- conversations without dangling calls -----------------------------------------------

  /** The results of the calls, from some tick on. */
  ghost predicate Answers(env: Env, results: seq<Message>, calls: seq<Call>) {
    exists t: nat, stopped: bool :: AnswersAt(env, t, results, calls, stopped)
  }

  /** What the provider gave at some tick. */
  ghost predicate Replied(env: Env, m: Message) {
    exists t: nat :: IsReply(m, env.reply(t))
  }

  /** Every response is what the provider gave, and one that was not stopped is
      followed at once by one result for each of its calls, saying what became of
      it; there are no other results. */
  ghost predicate Answered(messages: seq<Message>, env: Env)
    decreases |messages|
  {
    messages == [] ||
    match messages[0]
    case User(_, _) => Answered(messages[1..], env)
    case ToolResult(_, _, _, _) => false
    case Assistant(_, _, _) =>
      var n := if Stopped(messages[0]) then 0 else |CallsOf(messages[0])|;
      && Replied(env, messages[0])
      && 1 + n <= |messages|
      && (n == 0 || Answers(env, messages[1..1 + n], CallsOf(messages[0])))
      && Answered(messages[1 + n..], env)
  }

  /** One response with its results, and what comes after them. */
  lemma AnsweredBlock(m: Message, results: seq<Message>, rest: seq<Message>, env: Env)
    requires m.Assistant? && Replied(env, m) && Answered(rest, env)
    requires if Stopped(m) || CallsOf(m) == [] then results == []
             else |results| == |CallsOf(m)| && Answers(env, results, CallsOf(m))
    ensures Answered([m] + results + rest, env)
  {
    hide Answers, Replied, CallsOf, Stopped;
    var all := [m] + results + rest;
    assert all[1..1 + |results|] == results && all[1 + |results|..] == rest;
  }

  lemma {:induction false} AnsweredJoin(a: seq<Message>, b: seq<Message>, env: Env)
    requires Answered(a, env) && Answered(b, env)
    ensures Answered(a + b, env)
    decreases |a|
  {
    hide Answered, Answers, Replied, CallsOf, Stopped;
    if a == [] {
      assert a + b == b;
    } else {
      var n := AnsweredHead(a, env);
      var results, rest := a[1..1 + n], a[1 + n..];
      AnsweredJoin(rest, b, env);
      assert a + b == [a[0]] + results + (rest + b);
      if a[0].Assistant? {
        AnsweredBlock(a[0], results, rest + b, env);
      } else {
        AnsweredUser(a[0], rest + b, env);
        assert [a[0]] + results == [a[0]];
      }
    }
  }

  lemma AnsweredHead(a: seq<Message>, env: Env) returns (n: nat)
    requires Answered(a, env) && a != []
    ensures 1 + n <= |a| && Answered(a[1 + n..], env) && !a[0].ToolResult?
    ensures a[0].Assistant? ==> Replied(env, a[0])
    ensures if !a[0].Assistant? || Stopped(a[0]) || CallsOf(a[0]) == [] then n == 0
            else n == |CallsOf(a[0])| && Answers(env, a[1..1 + n], CallsOf(a[0]))
  {
    hide Answers, Replied, CallsOf, Stopped;
    n := if !a[0].Assistant? || Stopped(a[0]) then 0 else |CallsOf(a[0])|;
  }

  lemma AnsweredUser(m: Message, rest: seq<Message>, env: Env)
    requires m.User? && Answered(rest, env)
    ensures Answered([m] + rest, env)
  {
    assert ([m] + rest)[1..] == rest;
  }

  lemma {:induction false} OutsideAnswered(messages: seq<Message>, env: Env)
    requires FromOutside(messages)
    ensures Answered(messages, env)
    decreases |messages|
  {
    if messages != [] {
      OutsideAnswered(messages[1..], env);
    }
  }

  lemma NothingAnswered(env: Env)
    ensures Answered([], env)
  {
  }

  lemma TurnAnswered(before: seq<Message>, m: Message, results: seq<Message>, env: Env)
    requires Answered(before, env) && m.Assistant? && Replied(env, m)
    requires if Stopped(m) || CallsOf(m) == [] then results == []
             else |results| == |CallsOf(m)| && Answers(env, results, CallsOf(m))
    ensures Answered(before + [m] + results, env)
  {
    hide Answered, Answers, Replied, CallsOf, Stopped;
    NothingAnswered(env);
    AnsweredBlock(m, results, [], env);
    AnsweredJoin(before, [m] + results + [], env);
    assert before + ([m] + results + []) == before + [m] + results;
  }

  lemma {:induction false} OrderLength(calls: seq<Call>, flags: seq<bool>)
    requires |flags| <= |calls|
    ensures |ParallelOrder(calls, flags, [])| == |calls|
    decreases |flags|
  {
    SelectLength(calls, flags);
  }

  lemma {:induction false} SelectLength(calls: seq<Call>, flags: seq<bool>)
    requires |flags| <= |calls|
    ensures |Select(calls, flags, true)| + |Select(calls, flags, false)| == |flags|
    decreases |flags|
  {
    if flags != [] {
      SelectLength(calls[1..], flags[1..]);
    }
  }

  /** Tools asked for are all run to their end, and all answered. */
  lemma ToolsRun(env: Env, w: World, calls: seq<Call>)
    requires Ready(w) && Seen(w).todo == Ids(calls) && Seen(w).running == multiset{}
    ensures var r := ExecuteTools(env, w, calls);
            && Progress(env, w, r.world, r.results, r.steering, multiset{}, multiset{})
            && |r.results| == |calls| && AnswersAt(env, w.clock, r.results, calls, r.steering != [])
            && ((forall t :: OneAtATime(env, t)) ==> |r.steering| <= 1)
  {
    hide ReadAll, Kept, Progress, Sequential, Parallel, ParallelOrder, AnswersAt;
    ToolsTell(env, w, calls);
    if env.sequential {
      SequentialProgress(env, w, calls);
    } else {
      NoIds();
      ParallelProgress(env, w, calls, []);
      OrderLength(calls, Refusals(env, w, calls));
    }
  }

  // ---- delivery ------------------------------------------------------------------------------

  /** The messages that came in one way, in order. */
  function Of(messages: seq<Message>, origin: Origin): seq<Message> {
    if messages == [] then [] else OfOne(messages[0], origin) + Of(messages[1..], origin)
  }

  function OfOne(m: Message, origin: Origin): seq<Message> {
    if m.User? && m.origin == origin then [m] else []
  }

  lemma {:induction false} OfJoin(a: seq<Message>, b: seq<Message>, origin: Origin)
    ensures Of(a + b, origin) == Of(a, origin) + Of(b, origin)
    decreases |a|
  {
    hide OfOne;
    if a == [] {
      assert a + b == b;
    } else {
      assert (a + b)[0] == a[0] && (a + b)[1..] == a[1..] + b;
      OfJoin(a[1..], b, origin);
      var head := OfOne(a[0], origin);
      assert head + (Of(a[1..], origin) + Of(b, origin)) == (head + Of(a[1..], origin)) + Of(b, origin);
    }
  }

  lemma {:induction false} OfAll(messages: seq<Message>, origin: Origin, other: Origin)
    requires AllFrom(messages, origin)
    ensures Of(messages, other) == if other == origin then messages else []
    decreases |messages|
  {
    if messages != [] {
      OfAll(messages[1..], origin, other);
    }
  }

  lemma {:induction false} OfInside(messages: seq<Message>, origin: Origin)
    requires forall i :: 0 <= i < |messages| ==> !messages[i].User?
    ensures Of(messages, origin) == []
    decreases |messages|
  {
    if messages != [] {
      OfInside(messages[1..], origin);
    }
  }

  /** What the queues held at the start. */
  datatype Start = Start(before: seq<Message>, steering: seq<Message>, followUps: seq<Message>)

  /** Exactly-once delivery, in order: what was delivered, what is `pending` and
      what is still queued are, together, what was queued. */
  ghost predicate Balanced(env: Env, s: Start, w: World, delivered: seq<Message>) {
    && Of(delivered, Steered) + w.steering == s.steering + Queued(env.steer, Steered, 0, w.clock)
    && Of(delivered, FollowedUp) + w.followUps == s.followUps + Queued(env.followUp, FollowedUp, 0, w.clock)
    && GoodQueues(w)
  }

  lemma TakenBalance(env: Env, s: Start, w: World, v: World, delivered: seq<Message>, batch: seq<Message>)
    requires Balanced(env, s, w, delivered) && Taken(env, w, v, batch)
    ensures Balanced(env, s, v, delivered + batch) && AllFrom(batch, Steered)
  {
    hide Of;
    TakenQueuesGood(env, w, v, batch);
    OfJoin(delivered, batch, Steered);
    OfJoin(delivered, batch, FollowedUp);
    OfAll(batch, Steered, Steered);
    OfAll(batch, Steered, FollowedUp);
    QueuedSplit(env.steer, Steered, 0, w.clock, v.clock);
    QueuedSplit(env.followUp, FollowedUp, 0, w.clock, v.clock);
    Rebalance(Of(delivered, Steered), w.steering, s.steering, Queued(env.steer, Steered, 0, w.clock),
              Queued(env.steer, Steered, w.clock, v.clock), batch, v.steering);
    Rebalance(Of(delivered, FollowedUp), w.followUps, s.followUps, Queued(env.followUp, FollowedUp, 0, w.clock),
              Queued(env.followUp, FollowedUp, w.clock, v.clock), [], v.followUps);
    assert [] + v.followUps == v.followUps;
  }

  lemma Rebalance(out: seq<Message>, queue: seq<Message>, start: seq<Message>, q: seq<Message>, more: seq<Message>,
                  batch: seq<Message>, queue': seq<Message>)
    requires out + queue == start + q && queue + more == batch + queue'
    ensures (out + batch) + queue' == start + (q + more)
  {
    assert (out + batch) + queue' == out + (batch + queue') == out + (queue + more) == (out + queue) + more;
    assert (start + q) + more == start + (q + more);
  }

  lemma TakenQueuesGood(env: Env, w: World, v: World, batch: seq<Message>)
    requires GoodQueues(w) && Taken(env, w, v, batch)
    ensures GoodQueues(v) && AllFrom(batch, Steered)
  {
    KeptQueuesGood(env, w.(context := v.context, newMessages := v.newMessages), v, batch);
  }

  /** Messages that are neither queued kind leave the balance alone. */
  lemma BalanceIgnores(env: Env, s: Start, w: World, delivered: seq<Message>, more: seq<Message>)
    requires Balanced(env, s, w, delivered) && forall i :: 0 <= i < |more| ==> !more[i].User?
    ensures Balanced(env, s, w, delivered + more)
  {
    OfJoin(delivered, more, Steered);
    OfJoin(delivered, more, FollowedUp);
    OfInside(more, Steered);
    OfInside(more, FollowedUp);
  }

  lemma FollowUpBalance(env: Env, s: Start, w: World, delivered: seq<Message>)
    requires Balanced(env, s, w, delivered)
    ensures var p := PollFollowUps(env, w);
            && Balanced(env, s, p.world, delivered + p.batch) && AllFrom(p.batch, FollowedUp)
            && ((forall t :: OneAtATime(env, t)) ==> |p.batch| <= 1)
  {
    hide Of;
    var a := Await(env, w);
    var p := PollFollowUps(env, w);
    AwaitKeeps(env, w);
    TakenBalance(env, s, w, a, delivered, []);
    assert delivered + [] == delivered;
    assert a.followUps == p.batch + p.world.followUps;
    AllFromParts(p.batch, p.world.followUps, FollowedUp);
    OfJoin(delivered, p.batch, Steered);
    OfJoin(delivered, p.batch, FollowedUp);
    OfAll(p.batch, FollowedUp, Steered);
    OfAll(p.batch, FollowedUp, FollowedUp);
    assert (Of(delivered, FollowedUp) + p.batch) + p.world.followUps == Of(delivered, FollowedUp) + a.followUps;
    assert Of(delivered, Steered) + [] == Of(delivered, Steered);
    assert OneAtATime(env, w.clock) ==> |p.batch| <= 1;
  }

  // ---- turns and rounds ------------------------------------------------------------------------

  /** What holds whenever a turn may begin. */
  ghost predicate AtRest(env: Env, s: Start, w: World, pending: seq<Message>) {
    var m := Seen(w);
    && m.ok && m.open.None? && m.answer.None? && m.todo == multiset{} && m.running == multiset{}
    && m.ended == w.newMessages && w.context == s.before + w.newMessages
    && Answered(w.newMessages, env)
    && FromOutside(pending) && Balanced(env, s, w, w.newMessages + pending)
    && ((forall t :: OneAtATime(env, t)) ==> m.most <= 1 && |pending| <= 1)
  }

  ghost predicate Head(env: Env, s: Start, w: World, pending: seq<Message>, first: bool, more: bool) {
    var m := Seen(w);
    && AtRest(env, s, w, pending)
    && (if first then m.phase == InTurn && !m.responded && more && !m.called
        else m.phase == Between && m.called && m.sinceCall == 0)
    && (!more && pending == [] ==> m.quiet == 2) && m.quiet <= 2
  }

  /** The stream was closed with the messages of the run. */
  ghost predicate Finished(env: Env, s: Start, w: World) {
    && AtRest(env, s, w, []) && Seen(w).phase == Done
    && w.log != [] && w.log[|w.log| - 1] == Emit(AgentEnd(w.newMessages))
  }

  /** The response of a turn, with the messages injected before it. */
  lemma TurnResponds(env: Env, s: Start, w: World, pending: seq<Message>, first: bool, more: bool)
    requires GoodEnv(env) && Head(env, s, w, pending, first, more)
    ensures var w1 := if first then w else Send(w, TurnStart);
            var r := Respond(env, Inject(w1, pending));
            var w2 := r.world.(newMessages := r.world.newMessages + [r.message]);
            && r.message.Assistant? && Replied(env, r.message) && Ready(w2) && Seen(w2).running == multiset{}
            && Seen(w2).todo == (if Stopped(r.message) then multiset{} else Ids(CallsOf(r.message)))
            && Seen(w2).ended == w2.newMessages == w.newMessages + pending + [r.message]
            && w2.context == s.before + w2.newMessages
            && Seen(w2).called && Seen(w2).sinceCall == 0
            && ((forall t :: OneAtATime(env, t)) ==> Seen(w2).most <= 1)
            && Balanced(env, s, w2, w2.newMessages)
  {
    hide ReadAll, Answered, Balanced, Taken;
    var w1 := if first then w else Send(w, TurnStart);
    if !first {
      SeenPush(w, Emit(TurnStart));
    }
    assert Awaiting(w1);
    InjectReads(w1, pending);
    var wi := Inject(w1, pending);
    RespondReads(env, wi);
    RespondTells(env, wi);
    var r := Respond(env, wi);
    var called := Push(Await(env, wi), ModelCalled);
    var w2 := r.world.(newMessages := r.world.newMessages + [r.message]);
    assert (s.before + w.newMessages) + pending + [r.message] == s.before + (w.newMessages + pending + [r.message]);
    assert Balanced(env, s, wi, w.newMessages + pending) by {
      SameQueues(env, s, w, wi, w.newMessages + pending);
    }
    TakenBalance(env, s, wi, called, w.newMessages + pending, []);
    assert w.newMessages + pending + [] == w.newMessages + pending;
    SameQueues(env, s, called, w2, w.newMessages + pending);
    BalanceIgnores(env, s, w2, w.newMessages + pending, [r.message]);
  }

  lemma SameQueues(env: Env, s: Start, w: World, v: World, delivered: seq<Message>)
    requires Balanced(env, s, w, delivered)
    requires v.steering == w.steering && v.followUps == w.followUps && v.clock == w.clock
    ensures Balanced(env, s, v, delivered)
  {
  }

  /** A stopped response ends the turn and the run. */
  lemma TurnStops(env: Env, s: Start, w: World, m: Message)
    requires m.Assistant? && Stopped(m) && Ready(w) && Seen(w).running == multiset{} && Seen(w).todo == multiset{}
    requires Seen(w).ended == w.newMessages && w.newMessages != [] && w.newMessages[|w.newMessages| - 1] == m
    requires w.context == s.before + w.newMessages && Balanced(env, s, w, w.newMessages)
    requires Answered(w.newMessages, env) && ((forall t :: OneAtATime(env, t)) ==> Seen(w).most <= 1)
    ensures Finished(env, s, Send(Send(w, TurnEnd(m, [])), AgentEnd(w.newMessages)))
  {
    hide ReadAll, Answered, Balanced;
    var v := Send(w, TurnEnd(m, []));
    SeenPush(w, Emit(TurnEnd(m, [])));
    SeenPush(v, Emit(AgentEnd(w.newMessages)));
    var u := Send(v, AgentEnd(w.newMessages));
    assert [m] + [] == [m] && w.newMessages[|w.newMessages| - 1..] == [m];
    SameQueues(env, s, w, u, w.newMessages);
    assert w.newMessages + [] == w.newMessages;
  }

  /** The tools a response asks for. */
  function ToolsOf(env: Env, w: World, m: Message): Executed {
    if CallsOf(m) != [] then ExecuteTools(env, w, CallsOf(m)) else Executed(w, [], [])
  }

  /** They are run, and all answered. */
  lemma TurnTools(env: Env, w: World, m: Message)
    requires Ready(w) && Seen(w).running == multiset{} && Seen(w).todo == Ids(CallsOf(m))
    ensures var ran := ToolsOf(env, w, m);
            && Progress(env, w, ran.world, ran.results, ran.steering, multiset{}, multiset{})
            && |ran.results| == |CallsOf(m)| && (forall i :: 0 <= i < |ran.results| ==> !ran.results[i].User?)
            && (CallsOf(m) != [] ==> Answers(env, ran.results, CallsOf(m)))
            && ((forall t :: OneAtATime(env, t)) ==> |ran.steering| <= 1)
  {
    hide ReadAll, Progress, ExecuteTools, Ids, Answers, AnswersAt, CallsOf, Kept;
    var calls := CallsOf(m);
    if calls != [] {
      ToolsRun(env, w, calls);
      AnsweredSometime(env, w.clock, ToolsOf(env, w, m).results, calls, ToolsOf(env, w, m).steering != []);
      AnswersAreResults(env, ToolsOf(env, w, m).results, calls);
    } else {
      NoIds();
      NoProgress(env, w);
    }
  }

  /** The end of a turn, read. */
  lemma TurnEndReads(w: World, m: Message, results: seq<Message>)
    requires Ready(w) && Seen(w).todo == multiset{} && Seen(w).running == multiset{}
             && EndsWith(Seen(w).ended, [m] + results)
    ensures var u, v := Seen(w), Seen(Send(w, TurnEnd(m, results)));
            && v == u.(phase := Between, quiet := v.quiet)
            && (!Stopped(m) ==> v.quiet == if CallsOf(m) == [] then 1 else 0)
  {
    hide ReadAll, CallsOf, Stopped;
    SeenPush(w, Emit(TurnEnd(m, results)));
  }

  /** The results of a turn belong to neither queue. */
  lemma TurnBalance(env: Env, s: Start, w: World, v: World, results: seq<Message>, batch: seq<Message>)
    requires Balanced(env, s, w, w.newMessages) && Taken(env, w, v, batch)
    requires forall i :: 0 <= i < |results| ==> !results[i].User?
    ensures Balanced(env, s, v, w.newMessages + results + batch) && FromOutside(batch)
  {
    hide Balanced, Taken;
    TakenBalance(env, s, w, v, w.newMessages, batch);
    BalanceBeforeBatch(env, s, v, w.newMessages, results, batch);
  }

  /** The messages of a turn end with its response and the results. */
  lemma TurnMessages(before: seq<Message>, all: seq<Message>, m: Message, results: seq<Message>)
    requires all != [] && before == all[..|all| - 1] && all[|all| - 1] == m
    ensures all + results == before + [m] + results && EndsWith(all + results, [m] + results)
  {
    assert all == before + [m];
    assert all + results == before + ([m] + results);
  }

  /** From the response to the end of the turn: the tools, their results in the
      conversation, and the announcement of the turn's end. */
  lemma TurnEnds(env: Env, s: Start, w: World, m: Message)
    requires m.Assistant? && !Stopped(m) && Ready(w) && Seen(w).running == multiset{} && Seen(w).todo == Ids(CallsOf(m))
    requires Seen(w).ended == w.newMessages && w.newMessages != [] && w.newMessages[|w.newMessages| - 1] == m
    requires w.context == s.before + w.newMessages && Balanced(env, s, w, w.newMessages)
    requires Replied(env, m) && Answered(w.newMessages[..|w.newMessages| - 1], env)
    requires Seen(w).called && Seen(w).sinceCall == 0 && ((forall t :: OneAtATime(env, t)) ==> Seen(w).most <= 1)
    ensures var ran := ToolsOf(env, w, m);
            var w3 := ran.world.(context := ran.world.context + ran.results,
                                 newMessages := ran.world.newMessages + ran.results);
            var w4 := Send(w3, TurnEnd(m, ran.results));
            && AtRest(env, s, w4, ran.steering) && Seen(w4).phase == Between && Seen(w4).called
              && Seen(w4).sinceCall == 0
            && Seen(w4).quiet == if CallsOf(m) == [] then 1 else 0
  {
    hide ReadAll, Answered, Balanced, Taken, ToolsOf, Ids, Answers, CallsOf, Stopped, EndsWith, Progress;
    var ran := ToolsOf(env, w, m);
    TurnTools(env, w, m);
    ProgressSays(env, w, ran.world, ran.results, ran.steering, multiset{}, multiset{});
    var w3 := ran.world.(context := ran.world.context + ran.results,
                         newMessages := ran.world.newMessages + ran.results);
    assert Seen(w3) == Seen(ran.world);
    var before := w.newMessages[..|w.newMessages| - 1];
    TurnMessages(before, w.newMessages, m, ran.results);
    TurnEndReads(w3, m, ran.results);
    TurnAnswered(before, m, ran.results, env);
    assert (s.before + w.newMessages) + ran.results == s.before + (w.newMessages + ran.results);
    TurnBalance(env, s, w, ran.world, ran.results, ran.steering);
    SameQueues(env, s, ran.world, Send(w3, TurnEnd(m, ran.results)), w3.newMessages + ran.steering);
  }

  lemma AnsweredSometime(env: Env, t: nat, results: seq<Message>, calls: seq<Call>, stopped: bool)
    requires AnswersAt(env, t, results, calls, stopped)
    ensures Answers(env, results, calls)
  {
    hide AnswersAt;
  }

  lemma AnswersAreResults(env: Env, results: seq<Message>, calls: seq<Call>)
    requires Answers(env, results, calls)
    ensures forall i :: 0 <= i < |results| ==> !results[i].User?
  {
    hide ParallelOrder;
  }

  lemma BalanceBeforeBatch(env: Env, s: Start, w: World, delivered: seq<Message>, results: seq<Message>,
                           batch: seq<Message>)
    requires Balanced(env, s, w, delivered + batch) && forall i :: 0 <= i < |results| ==> !results[i].User?
    ensures Balanced(env, s, w, delivered + results + batch)
  {
    hide Of;
    forall o: Origin
      ensures Of(delivered + results + batch, o) == Of(delivered + batch, o)
    {
      OfJoin(delivered, batch, o);
      OfJoin(delivered, results, o);
      OfJoin(delivered + results, batch, o);
      OfInside(results, o);
      assert Of(delivered, o) + [] == Of(delivered, o);
    }
  }

  /** A turn from rest ends at rest again, or ends the run. */
  lemma TurnKeeps(env: Env, s: Start, w: World, pending: seq<Message>, first: bool, more: bool)
    requires GoodEnv(env) && Head(env, s, w, pending, first, more)
    ensures var t := Turn(env, w, pending, first);
            if t.stopped then Finished(env, s, t.world) else Head(env, s, t.world, t.pending, false, t.more)
  {
    hide ReadAll, Answered, Balanced, Taken, ExecuteTools, Inject, Respond, Ids;
    TurnResponds(env, s, w, pending, first, more);
    var w1 := if first then w else Send(w, TurnStart);
    var r := Respond(env, Inject(w1, pending));
    var w2 := r.world.(newMessages := r.world.newMessages + [r.message]);
    var before := w.newMessages + pending;
    OutsideAnswered(pending, env);
    AnsweredJoin(w.newMessages, pending, env);
    assert w2.newMessages[..|w2.newMessages| - 1] == before;
    if Stopped(r.message) {
      TurnAnswered(before, r.message, [], env);
      assert before + [r.message] + [] == w2.newMessages;
      TurnStops(env, s, w2, r.message);
    } else {
      TurnEnds(env, s, w2, r.message);
      EndOfTurn(env, s, w2, r.message);
    }
  }

  /** After the end of a turn, steering already taken is pending, or else the
      queue is polled. */
  lemma EndOfTurn(env: Env, s: Start, w: World, m: Message)
    requires m.Assistant?
    requires var calls, ran := CallsOf(m), ToolsOf(env, w, m);
             var w3 := ran.world.(context := ran.world.context + ran.results,
                                  newMessages := ran.world.newMessages + ran.results);
             var w4 := Send(w3, TurnEnd(m, ran.results));
             && AtRest(env, s, w4, ran.steering) && Seen(w4).phase == Between && Seen(w4).called
               && Seen(w4).sinceCall == 0
             && Seen(w4).quiet == if calls == [] then 1 else 0
    ensures var calls, ran := CallsOf(m), ToolsOf(env, w, m);
            var w3 := ran.world.(context := ran.world.context + ran.results,
                                 newMessages := ran.world.newMessages + ran.results);
            var w4 := Send(w3, TurnEnd(m, ran.results));
            var poll := PollSteering(env, w4);
            if ran.steering != [] then Head(env, s, w4, ran.steering, false, calls != [])
            else Head(env, s, poll.world, poll.batch, false, calls != [])
  {
    hide ReadAll, Answered, Balanced, Taken, ExecuteTools, PollSteering;
    var ran := ToolsOf(env, w, m);
    var w3 := ran.world.(context := ran.world.context + ran.results,
                         newMessages := ran.world.newMessages + ran.results);
    var w4 := Send(w3, TurnEnd(m, ran.results));
    if ran.steering == [] {
      PollAtRest(env, s, w4);
    }
  }

  lemma PollAtRest(env: Env, s: Start, w: World)
    requires AtRest(env, s, w, [])
    ensures var poll := PollSteering(env, w);
            && AtRest(env, s, poll.world, poll.batch)
            && Core(poll.world) == Core(w)
            && Seen(poll.world).quiet == (if Seen(w).quiet == 1 && poll.batch == [] then 2 else 0)
  {
    hide ReadAll, Answered, Balanced, Taken, PollSteering;
    var poll := PollSteering(env, w);
    PollKeeps(env, w);
    assert Core(poll.world).ended == Core(w).ended && Core(poll.world).most == Core(w).most;
    assert w.newMessages + [] == w.newMessages;
    TakenBalance(env, s, w, poll.world, w.newMessages, poll.batch);
  }

  /** Follow-ups are looked for only at rest, with nothing more to do. */
  lemma FollowUpsAtRest(env: Env, s: Start, w: World)
    requires Head(env, s, w, [], false, false)
    ensures var poll := PollFollowUps(env, w);
            && (poll.batch != [] ==> Head(env, s, poll.world, poll.batch, false, true))
            && (poll.batch == [] ==> Finished(env, s, Send(poll.world, AgentEnd(poll.world.newMessages))))
  {
    hide ReadAll, Answered, Balanced;
    var poll := PollFollowUps(env, w);
    assert w.newMessages + [] == w.newMessages;
    FollowUpBalance(env, s, w, w.newMessages);
    var a := Await(env, w);
    assert Seen(a) == Seen(w);
    SeenPush(a, FollowUpPolled(poll.batch));
    assert Seen(poll.world) == Read(Seen(w), FollowUpPolled(poll.batch));
    if poll.batch == [] {
      var v := Send(poll.world, AgentEnd(poll.world.newMessages));
      SeenPush(poll.world, Emit(AgentEnd(poll.world.newMessages)));
      SameQueues(env, s, poll.world, v, w.newMessages + []);
    }
  }

  /** Every round from rest leads to rest or to the end. */
  lemma {:induction false} LoopKeeps(env: Env, s: Start, w: World, pending: seq<Message>, first: bool, more: bool,
                                     rounds: nat)
    requires GoodEnv(env) && Head(env, s, w, pending, first, more)
    ensures var e := Loop(env, w, pending, first, more, rounds);
            && AtRest(env, s, e.world, e.pending)
            && (e.finished ==> Finished(env, s, e.world) && e.pending == [])
    decreases rounds
  {
    hide AtRest, Turn, PollFollowUps, ReadAll;
    if rounds == 0 {
    } else if more || pending != [] {
      TurnKeeps(env, s, w, pending, first, more);
      var t := Turn(env, w, pending, first);
      if !t.stopped {
        LoopKeeps(env, s, t.world, t.pending, false, t.more, rounds - 1);
      }
    } else {
      FollowUpsAtRest(env, s, w);
      var poll := PollFollowUps(env, w);
      if poll.batch != [] {
        LoopKeeps(env, s, poll.world, poll.batch, false, true, rounds - 1);
      }
    }
  }

  // ---- the run -----------------------------------------------------------------------------------

  lemma {:induction false} PromptsRead(w: World, prompts: seq<Message>)
    requires Awaiting(w) && FromOutside(prompts) && !Seen(w).called
    ensures var v := AnnounceAll(w, prompts);
            && v == w.(log := v.log) && Awaiting(v) && !Seen(v).called
            && Seen(v).ended == Seen(w).ended + prompts && Seen(v).most == Seen(w).most
    decreases |prompts|
  {
    hide ReadAll;
    if prompts == [] {
      assert Seen(w).ended + prompts == Seen(w).ended;
    } else {
      var v := Announce(w, prompts[0]);
      AnnounceReads(w, prompts[0]);
      assert Core(v).ended == Core(w).ended + [prompts[0]] && !Core(v).called && Core(v).most == Core(w).most;
      PromptsRead(v, prompts[1..]);
      assert (Seen(w).ended + [prompts[0]]) + prompts[1..] == Seen(w).ended + prompts;
    }
  }

  /** What a run starts from; prompts may themselves have been queued. */
  function StartOf(before: seq<Message>, prompts: seq<Message>, steering: seq<Message>,
                   followUps: seq<Message>): Start {
    Start(before, Of(prompts, Steered) + steering, Of(prompts, FollowedUp) + followUps)
  }

  lemma Opens(w: World)
    requires w.log == []
    ensures var v := Send(Send(w, AgentStart), TurnStart);
            Awaiting(v) && Seen(v).ended == [] && !Seen(v).called && Seen(v).most == 0 && v == w.(log := v.log)
  {
    hide ReadAll;
    assert Seen(w) == START by { NothingRead(); }
    SeenPush(w, Emit(AgentStart));
    SeenPush(Send(w, AgentStart), Emit(TurnStart));
  }

  lemma NothingRead()
    ensures ReadAll([]) == START
  {
  }

  /** Where the rounds of a run begin. */
  function FirstPoll(env: Env, before: seq<Message>, prompts: seq<Message>, steering: seq<Message>,
                     followUps: seq<Message>,
                     skipPoll: bool): Polled
  {
    var w := World(before + prompts, prompts, [], 0, steering, followUps, skipPoll);
    PollSteering(env, AnnounceAll(Send(Send(w, AgentStart), TurnStart), prompts))
  }

  /** The first poll of a resumed run is skipped, once; otherwise what is queued is
      taken, one or all. */
  lemma FirstPollSkips(env: Env, before: seq<Message>, prompts: seq<Message>, steering: seq<Message>,
                       followUps: seq<Message>, skipPoll: bool)
    ensures var poll := FirstPoll(env, before, prompts, steering, followUps, skipPoll);
            var queued := steering + Tagged(Steered, env.steer(0));
            && !poll.world.skipPoll && poll.batch + poll.world.steering == queued
            && |poll.batch| == if skipPoll || queued == [] then 0 else if env.steerAll(0) then |queued| else 1
  {
    hide Announce;
    var w := World(before + prompts, prompts, [], 0, steering, followUps, skipPoll);
    var begun := Send(Send(w, AgentStart), TurnStart);
    AnnouncingWaits(begun, prompts);
    assert [] + (steering + Tagged(Steered, env.steer(0))) == steering + Tagged(Steered, env.steer(0));
  }

  lemma {:induction false} AnnouncingWaits(w: World, messages: seq<Message>)
    ensures var v := AnnounceAll(w, messages); v == w.(log := v.log)
    decreases |messages|
  {
    if messages != [] {
      AnnouncingWaits(Announce(w, messages[0]), messages[1..]);
    }
  }

  lemma RunBegins(env: Env, before: seq<Message>, prompts: seq<Message>, steering: seq<Message>,
                  followUps: seq<Message>,
                  skipPoll: bool)
    requires FromOutside(prompts) && AllFrom(steering, Steered) && AllFrom(followUps, FollowedUp)
    ensures var poll := FirstPoll(env, before, prompts, steering, followUps, skipPoll);
            Head(env, StartOf(before, prompts, steering, followUps), poll.world, poll.batch, true, true)
  {
    hide ReadAll, Answered, Balanced, Taken, AnnounceAll, PollSteering;
    var s := StartOf(before, prompts, steering, followUps);
    var w := World(before + prompts, prompts, [], 0, steering, followUps, skipPoll);
    Opens(w);
    var begun := Send(Send(w, AgentStart), TurnStart);
    PromptsRead(begun, prompts);
    var started := AnnounceAll(begun, prompts);
    assert [] + prompts == prompts;
    StartBalanced(env, s, started, prompts, steering, followUps);
    OutsideAnswered(prompts, env);
    assert prompts + [] == prompts;
    assert AtRest(env, s, started, []);
    PollAtRest(env, s, started);
    var poll := PollSteering(env, started);
    assert !Core(poll.world).called && !Core(poll.world).responded && Core(poll.world).phase == InTurn;
  }

  /** Every run, watched for any number of rounds: its events so far are in
      order; each response that was not stopped has been answered call by call;
      the loop's conversation is the one before the run and the run's messages;
      queued messages are delivered once, in order, or pending, or still queued.
      A finished run has closed its stream with exactly its messages. */
  lemma EveryRun(env: Env, before: seq<Message>, prompts: seq<Message>, steering: seq<Message>, followUps: seq<Message>,
                 skipPoll: bool, rounds: nat)
    requires GoodEnv(env) && FromOutside(prompts) && AllFrom(steering, Steered) && AllFrom(followUps, FollowedUp)
    ensures var e := Run(env, before, prompts, steering, followUps, skipPoll, rounds);
            var s := StartOf(before, prompts, steering, followUps);
            && Seen(e.world).ok && Seen(e.world).ended == e.world.newMessages
            && Answered(e.world.newMessages, env)
            && e.world.context == before + e.world.newMessages
            && Balanced(env, s, e.world, e.world.newMessages + e.pending)
            && ((forall t :: OneAtATime(env, t)) ==> Seen(e.world).most <= 1)
            && (e.finished ==> e.pending == [] && Seen(e.world).phase == Done
                               && e.world.log[..|e.world.log| - 1] + [Emit(AgentEnd(e.world.newMessages))] ==
                                 e.world.log)
  {
    hide ReadAll, Answered, Balanced, Taken, AnnounceAll, PollSteering, Loop, Head;
    RunBegins(env, before, prompts, steering, followUps, skipPoll);
    var poll := FirstPoll(env, before, prompts, steering, followUps, skipPoll);
    LoopKeeps(env, StartOf(before, prompts, steering, followUps), poll.world, poll.batch, true, true, rounds);
  }

  lemma StartBalanced(env: Env, s: Start, w: World, prompts: seq<Message>, steering: seq<Message>,
                      followUps: seq<Message>)
    requires s == StartOf(s.before, prompts, steering, followUps)
    requires w.steering == steering && w.followUps == followUps && w.clock == 0 && GoodQueues(w)
    ensures Balanced(env, s, w, prompts + [])
  {
    hide Of;
    assert prompts + [] == prompts;
    assert s.steering + [] == s.steering && s.followUps + [] == s.followUps;
  }

  /** The run `Continue` starts, when it starts one. */
  function Resumed(env: Env, messages: seq<Message>, steering: seq<Message>, followUps: seq<Message>,
                   steeringAll: bool, followUpAll: bool, rounds: nat): End
  {
    if messages != [] && messages[|messages| - 1].Assistant? then
      if steering != [] then
        var d := Dequeue(steering, steeringAll);
        Run(env, messages, d.batch, d.rest, followUps, true, rounds)
      else
        var d := Dequeue(followUps, followUpAll);
        Run(env, messages, d.batch, steering, d.rest, false, rounds)
    else Run(env, messages, [], steering, followUps, false, rounds)
  }

  /** A resumed run delivers what it takes as its prompts like everything else
      queued: once, and in order. */
  lemma ResumedRunDelivers(env: Env, messages: seq<Message>, steering: seq<Message>, followUps: seq<Message>,
                           steeringAll: bool, followUpAll: bool, rounds: nat)
    requires GoodEnv(env) && AllFrom(steering, Steered) && AllFrom(followUps, FollowedUp)
    ensures var e := Resumed(env, messages, steering, followUps, steeringAll, followUpAll, rounds);
            && Seen(e.world).ok && e.world.context == messages + e.world.newMessages
            && Balanced(env, Start(messages, steering, followUps), e.world, e.world.newMessages + e.pending)
  {
    hide Run, Balanced, Of, Answered, ReadAll;
    var (prompts, s, f, skip) :=
      if messages != [] && messages[|messages| - 1].Assistant? then
        if steering != [] then (Dequeue(steering, steeringAll).batch, Dequeue(steering, steeringAll).rest, followUps,
                                true)
        else (Dequeue(followUps, followUpAll).batch, steering, Dequeue(followUps, followUpAll).rest, false)
      else ([], steering, followUps, false);
    assert [] + steering == steering && [] + followUps == followUps;
    TakenFirst(prompts, s, f, steering, followUps, prompts + s == steering && f == followUps);
    EveryRun(env, messages, prompts, s, f, skip, rounds);
  }

  lemma TakenFirst(prompts: seq<Message>, s: seq<Message>, f: seq<Message>, steering: seq<Message>,
                   followUps: seq<Message>, fromSteering: bool)
    requires if fromSteering then prompts + s == steering && f == followUps
             else s == steering && prompts + f == followUps
    requires AllFrom(steering, Steered) && AllFrom(followUps, FollowedUp)
    ensures Of(prompts, Steered) + s == steering && Of(prompts, FollowedUp) + f == followUps
    ensures AllFrom(s, Steered) && AllFrom(f, FollowedUp) && FromOutside(prompts)
  {
    if fromSteering {
      AllFromParts(prompts, s, Steered);
      OfAll(prompts, Steered, Steered);
      OfAll(prompts, Steered, FollowedUp);
      assert [] + f == f;
    } else {
      AllFromParts(prompts, f, FollowedUp);
      OfAll(prompts, FollowedUp, Steered);
      OfAll(prompts, FollowedUp, FollowedUp);
      assert [] + s == s;
    }
  }

  // ---- what the automaton's verdict means -------------------------------------------------------------

  lemma {:induction false} OkPrefix(log: seq<Action>, n: nat)
    requires ReadAll(log).ok && n <= |log|
    ensures ReadAll(log[..n]).ok
    decreases |log|
  {
    if n < |log| {
      OkPrefix(log[..|log| - 1], n);
      assert log[..|log| - 1][..n] == log[..n];
    } else {
      assert log[..n] == log;
    }
  }

  /** Follow-ups are asked for only right after a turn without calls whose
      steering poll came back empty. */
  lemma {:induction false} FollowUpsComeLast(log: seq<Action>, i: nat)
    requires i < |log|
    ensures ReadAll(log).ok && log[i].FollowUpPolled? ==>
              2 <= i && log[i - 1] == SteeringPolled([]) && EndsQuietTurn(log[i - 2])
  {
    hide ReadAll, EndsQuietTurn;
    if ReadAll(log).ok && log[i].FollowUpPolled? {
      OkPrefix(log, i + 1);
      var p := log[..i + 1];
      ReadLast(p);
      assert p[..|p| - 1] == log[..i];
      QuietTwo(log[..i]);
    }
  }

  lemma ReadLast(log: seq<Action>)
    requires log != []
    ensures ReadAll(log) == Read(ReadAll(log[..|log| - 1]), log[|log| - 1])
  {
  }

  predicate EndsQuietTurn(a: Action) {
    a.Emit? && a.event.TurnEnd? && CallsOf(a.event.message) == [] && !Stopped(a.event.message)
  }

  lemma QuietStep(m: Monitor, a: Action)
    ensures Read(m, a).quiet == 2 ==> a == SteeringPolled([]) && m.quiet == 1
    ensures Read(m, a).quiet == 1 ==> EndsQuietTurn(a)
  {
    hide CallsOf, Stopped;
  }

  lemma QuietTwo(log: seq<Action>)
    requires ReadAll(log).quiet == 2
    ensures 2 <= |log| && log[|log| - 1] == SteeringPolled([]) && EndsQuietTurn(log[|log| - 2])
  {
    hide Read, EndsQuietTurn;
    var before := log[..|log| - 1];
    ReadLast(log);
    QuietStep(ReadAll(before), log[|log| - 1]);
    ReadLast(before);
    QuietStep(ReadAll(before[..|before| - 1]), before[|before| - 1]);
  }

  /** A run ends only after a follow-up poll that came back empty, or a response
      that was stopped; and after either nothing but the end comes. */
  lemma RunsEndRightly(log: seq<Action>, i: nat)
    requires i < |log|
    ensures ReadAll(log).ok && log[i].Emit? && log[i].event.AgentEnd? ==>
              1 <= i && (log[i - 1] == FollowUpPolled([]) || EndsStoppedTurn(log[i - 1]))
    ensures ReadAll(log).ok && 1 <= i && (log[i - 1] == FollowUpPolled([]) || EndsStoppedTurn(log[i - 1])) ==>
              log[i].Emit? ==> log[i].event.AgentEnd?
  {
    hide ReadAll, Read, EndsStoppedTurn;
    if ReadAll(log).ok {
      OkPrefix(log, i + 1);
      OkPrefix(log, i);
      var p, q := log[..i + 1], log[..i];
      ReadLast(p);
      assert p[..i] == q;
      QuietBetween(q);
      EndsAreLast(ReadAll(q), log[i]);
      if i > 0 {
        ReadLast(q);
        assert q[..i - 1] == log[..i - 1] && q[i - 1] == log[i - 1];
        LastStep(ReadAll(log[..i - 1]), log[i - 1]);
      } else {
        assert q == [];
        NothingRead();
      }
    }
  }

  predicate EndsStoppedTurn(a: Action) {
    && a.Emit? && a.event.TurnEnd? && a.event.message.Assistant?
    && (a.event.message.stop == Failed || a.event.message.stop == Aborted)
  }

  lemma LastStep(m: Monitor, a: Action)
    requires Read(m, a).ok
    ensures Read(m, a).quiet in {3, 4} <==> a == FollowUpPolled([]) || EndsStoppedTurn(a)
  {
    hide CallsOf, Ids, InPlace;
  }

  lemma QuietStepBetween(m: Monitor, a: Action)
    requires Read(m, a).ok && (m.quiet > 0 ==> m.phase == Between)
    ensures Read(m, a).quiet > 0 ==> Read(m, a).phase == Between
  {
    hide CallsOf, Stopped, Ids, InPlace;
  }

  lemma {:induction false} QuietBetween(log: seq<Action>)
    requires ReadAll(log).ok
    ensures ReadAll(log).quiet > 0 ==> ReadAll(log).phase == Between
    decreases |log|
  {
    hide ReadAll, Read;
    if log == [] {
      NothingRead();
    } else {
      ReadLast(log);
      OkPrefix(log, |log| - 1);
      QuietBetween(log[..|log| - 1]);
      QuietStepBetween(ReadAll(log[..|log| - 1]), log[|log| - 1]);
    }
  }

  lemma EndsAreLast(m: Monitor, a: Action)
    requires Read(m, a).ok
    ensures a.Emit? && a.event.AgentEnd? ==> m.quiet in {3, 4}
    ensures m.quiet in {3, 4} && m.phase == Between && a.Emit? ==> a.event.AgentEnd?
  {
    hide CallsOf, Stopped, Ids;
  }

  predicate OutsideEnd(a: Action) {
    a.Emit? && a.event.MessageEnd? && a.event.message.User?
  }

  /** How many messages from outside end in a stretch of the log. */
  function OutsideEnds(log: seq<Action>): nat {
    if log == [] then 0
    else OutsideEnds(log[..|log| - 1]) + if OutsideEnd(log[|log| - 1]) then 1 else 0
  }

  lemma CountStep(m: Monitor, a: Action)
    ensures m.most <= Read(m, a).most
    ensures a == ModelCalled ==> Read(m, a).called && Read(m, a).sinceCall == 0
    ensures a != ModelCalled && m.called ==>
              && Read(m, a).called && Read(m, a).sinceCall == m.sinceCall + (if OutsideEnd(a) then 1 else 0)
              && (OutsideEnd(a) ==> Read(m, a).sinceCall <= Read(m, a).most)
  {
    hide CallsOf, Stopped, Ids;
  }

  /** Between two model calls at most `most` messages come in from outside. */
  lemma {:induction false} MostBetweenCalls(log: seq<Action>, i: nat, j: nat)
    requires i < j <= |log| && log[i] == ModelCalled && forall k :: i < k < j ==> log[k] != ModelCalled
    ensures var m := ReadAll(log[..j]);
            m.called && m.sinceCall == OutsideEnds(log[i + 1..j]) && (m.sinceCall == 0 || m.sinceCall <= m.most)
    decreases j
  {
    hide Read, ReadAll, OutsideEnd;
    var p := log[..j];
    ReadLast(p);
    assert p[..j - 1] == log[..j - 1];
    CountStep(ReadAll(log[..j - 1]), log[j - 1]);
    if i + 1 < j {
      MostBetweenCalls(log, i, j - 1);
      var part := log[i + 1..j];
      assert part[..|part| - 1] == log[i + 1..j - 1];
    }
  }

  lemma {:induction false} MostOnlyGrows(log: seq<Action>, n: nat)
    requires n <= |log|
    ensures ReadAll(log[..n]).most <= ReadAll(log).most
    decreases |log|
  {
    hide Read, ReadAll;
    if n < |log| {
      ReadLast(log);
      CountStep(ReadAll(log[..|log| - 1]), log[|log| - 1]);
      MostOnlyGrows(log[..|log| - 1], n);
      assert log[..|log| - 1][..n] == log[..n];
    } else {
      assert log[..n] == log;
    }
  }

  /** One at a time: between two model calls of a run at most one message comes
      in from outside. */
  lemma OneMessageBetweenCalls(env: Env, before: seq<Message>, prompts: seq<Message>, steering: seq<Message>,
                               followUps: seq<Message>,
                               skipPoll: bool, rounds: nat, i: nat, j: nat)
    requires GoodEnv(env) && FromOutside(prompts) && AllFrom(steering, Steered) && AllFrom(followUps, FollowedUp)
    requires forall t :: OneAtATime(env, t)
    requires var log := Run(env, before, prompts, steering, followUps, skipPoll, rounds).world.log;
             i < j < |log| && log[i] == ModelCalled == log[j] && forall k :: i < k < j ==> log[k] != ModelCalled
    ensures OutsideEnds(Run(env, before, prompts, steering, followUps, skipPoll, rounds).world.log[i + 1..j]) <= 1
  {
    hide ReadAll, Run;
    var log := Run(env, before, prompts, steering, followUps, skipPoll, rounds).world.log;
    EveryRun(env, before, prompts, steering, followUps, skipPoll, rounds);
    MostBetweenCalls(log, i, j);
    MostOnlyGrows(log, j);
  }
}
