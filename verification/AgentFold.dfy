/** The state the Agent folds out of the events of a run. */
module AgentFold {
  import opened Common
  import opened AgentModel
  import opened AgentGrammar
  import opened AgentTools
  import opened AgentRuns

  datatype AgentState = AgentState(
    messages: seq<Message>,
    isStreaming: bool,
    streamMessage: Option<Message>,
    pendingToolCalls: set<string>,
    error: Option<string>)

  function Handle(s: AgentState, e: Event): AgentState {
    match e
    case MessageStart(m) => s.(streamMessage := Some(m))
    case MessageUpdate(m) => s.(streamMessage := Some(m))
    case MessageEnd(m) => s.(streamMessage := None, messages := s.messages + [m])
    case ToolStart(id, _) => s.(pendingToolCalls := s.pendingToolCalls + {id})
    case ToolEnd(id, _, _) => s.(pendingToolCalls := s.pendingToolCalls - {id})
    case TurnEnd(m, _) => if m.Assistant? && m.error != "" then s.(error := Some(m.error)) else s
    case AgentEnd(_) => s.(isStreaming := false, streamMessage := None)
    case AgentStart => s
    case TurnStart => s
    case ToolUpdate(_) => s
  }

  function HandleAll(s: AgentState, events: seq<Event>): AgentState {
    if events == [] then s else Handle(HandleAll(s, events[..|events| - 1]), events[|events| - 1])
  }

  /** The events a consumer of the stream gets: those pushed, in order, up to
      the one that closes it. */
  function Streamed(log: seq<Action>): seq<Event> {
    if log == [] then []
    else
      var before := Streamed(log[..|log| - 1]);
      var a := log[|log| - 1];
      if a.Emit? && !(before != [] && before[|before| - 1].AgentEnd?) then before + [a.event] else before
  }

  /** Everything pushed. */
  function Pushed(log: seq<Action>): seq<Event> {
    if log == [] then []
    else Pushed(log[..|log| - 1]) + if log[|log| - 1].Emit? then [log[|log| - 1].event] else []
  }

  /** Nothing is pushed after the event that closes the stream, so everything
      pushed is delivered; and the stream is closed only at the end of a run. */
  lemma {:induction false} StreamedOpen(log: seq<Action>)
    requires ReadAll(log).ok
    ensures Streamed(log) == Pushed(log)
    ensures var e := Streamed(log);
            e != [] && e[|e| - 1].AgentEnd? ==> ReadAll(log).phase == Done
    decreases |log|
  {
    hide ReadAll, Read;
    if log != [] {
      ReadLast(log);
      var before := log[..|log| - 1];
      OkPrefix(log, |log| - 1);
      StreamedOpen(before);
      PhaseStep(ReadAll(before), log[|log| - 1]);
      assert Pushed(before) + [] == Pushed(before);
    }
  }

  lemma PhaseStep(m: Monitor, a: Action)
    requires Read(m, a).ok
    ensures m.ok && (m.phase == Done ==> Read(m, a).phase == Done && !a.Emit?)
    ensures a.Emit? && a.event.AgentEnd? ==> Read(m, a).phase == Done
  {
    hide CallsOf, Stopped, Ids;
  }

  /** In an orderly log, each event pushed is delivered. */
  lemma StreamedNext(log: seq<Action>)
    requires log != [] && ReadAll(log).ok
    ensures var before, a := log[..|log| - 1], log[|log| - 1];
            && ReadAll(before).ok && ReadAll(log) == Read(ReadAll(before), a)
            && Streamed(log) == Streamed(before) + (if a.Emit? then [a.event] else [])
  {
    hide ReadAll, Read;
    var before, a := log[..|log| - 1], log[|log| - 1];
    ReadLast(log);
    PhaseStep(ReadAll(before), a);
    StreamedOpen(before);
    assert Streamed(before) + [] == Streamed(before);
  }

  lemma HandleSnoc(s: AgentState, events: seq<Event>, e: Event)
    ensures HandleAll(s, events + [e]) == Handle(HandleAll(s, events), e)
  {
    assert (events + [e])[..|events|] == events;
  }

  lemma NothingHandled(s: AgentState)
    ensures HandleAll(s, []) == s && Streamed([]) == [] && ReadAll([]) == START
  {
  }

  /** One more action: how the state and the automaton move together. */
  lemma FoldNext(s: AgentState, log: seq<Action>)
    requires log != [] && ReadAll(log).ok
    ensures var before, a := log[..|log| - 1], log[|log| - 1];
            && ReadAll(before).ok && ReadAll(log) == Read(ReadAll(before), a)
            && HandleAll(s, Streamed(log)) ==
               (if a.Emit? then Handle(HandleAll(s, Streamed(before)), a.event) else HandleAll(s, Streamed(before)))
  {
    hide ReadAll, Read, HandleAll, Handle, Streamed;
    StreamedNext(log);
    var before, a := log[..|log| - 1], log[|log| - 1];
    if a.Emit? {
      HandleSnoc(s, Streamed(before), a.event);
    } else {
      assert Streamed(before) + [] == Streamed(before);
    }
  }

  lemma EndedStep(m: Monitor, a: Action)
    ensures Read(m, a).ended == m.ended + (if a.Emit? && a.event.MessageEnd? then [a.event.message] else [])
  {
    hide CallsOf, Stopped, Ids;
    assert m.ended + [] == m.ended;
  }

  /** The state's messages are those before the run and those that ended. */
  lemma {:induction false} MessagesFold(s: AgentState, log: seq<Action>)
    requires ReadAll(log).ok
    ensures HandleAll(s, Streamed(log)).messages == s.messages + ReadAll(log).ended
    decreases |log|
  {
    hide ReadAll, Read, HandleAll, Streamed;
    if log == [] {
      NothingHandled(s);
      assert s.messages + [] == s.messages;
    } else {
      var before, a := log[..|log| - 1], log[|log| - 1];
      FoldNext(s, log);
      MessagesFold(s, before);
      EndedStep(ReadAll(before), a);
      var ended := ReadAll(before).ended;
      assert ended + [] == ended;
      if a.Emit? && a.event.MessageEnd? {
        assert s.messages + (ended + [a.event.message]) == (s.messages + ended) + [a.event.message];
      }
    }
  }

  // ---- the partial message ---------------------------------------------------------------

  /** The message a consumer of the stream holds that has not ended. */
  function Partial(events: seq<Event>): Option<Message> {
    if events == [] then None
    else
      match events[|events| - 1]
      case MessageStart(m) => Some(m)
      case MessageUpdate(m) => Some(m)
      case MessageEnd(_) => None
      case _ => Partial(events[..|events| - 1])
  }

  lemma PartialSnoc(events: seq<Event>, e: Event)
    ensures Partial(events + [e]) == (match e
                                      case MessageStart(m) => Some(m)
                                      case MessageUpdate(m) => Some(m)
                                      case MessageEnd(_) => None
                                      case _ => Partial(events))
  {
    assert (events + [e])[..|events|] == events;
  }

  lemma OpenStep(m: Monitor, a: Action)
    requires Read(m, a).ok
    ensures Read(m, a).open.Some? <==>
            if a.Emit? && (a.event.MessageStart? || a.event.MessageUpdate?) then true
            else if a.Emit? && a.event.MessageEnd? then false
            else m.open.Some?
  {
    hide CallsOf, Stopped, Ids;
  }

  /** A partial message is held exactly while one is open; when a run has ended
      none is left over. */
  lemma {:induction false} NothingLeftOver(log: seq<Action>)
    requires ReadAll(log).ok
    ensures Partial(Streamed(log)).Some? <==> ReadAll(log).open.Some?
    ensures ReadAll(log).phase == Done ==> Partial(Streamed(log)).None?
    decreases |log|
  {
    hide ReadAll, Read, Streamed, Partial, Orderly;
    if log == [] {
      NoPartial();
    } else {
      var before, a := log[..|log| - 1], log[|log| - 1];
      StreamedNext(log);
      NothingLeftOver(before);
      OpenStep(ReadAll(before), a);
      if a.Emit? {
        PartialSnoc(Streamed(before), a.event);
      } else {
        assert Streamed(before) + [] == Streamed(before);
      }
    }
    OpenInTurn(log);
  }

  lemma NoPartial()
    ensures Partial(Streamed([])).None? && ReadAll([]) == START
  {
  }

  lemma {:induction false} OpenInTurn(log: seq<Action>)
    requires ReadAll(log).ok
    ensures Orderly(ReadAll(log)) && (ReadAll(log).open.Some? ==> ReadAll(log).phase == InTurn)
    decreases |log|
  {
    hide ReadAll, Read;
    if log == [] {
      NoPartial();
    } else {
      ReadLast(log);
      OkPrefix(log, |log| - 1);
      OpenInTurn(log[..|log| - 1]);
      OrderlyStep(ReadAll(log[..|log| - 1]), log[|log| - 1]);
    }
  }

  // ---- the rest of the state --------------------------------------------------------------

  predicate Complains(e: Event) {
    e.TurnEnd? && e.message.Assistant? && e.message.error != ""
  }

  /** The error is that of the last turn that had one. */
  lemma {:induction false} ErrorIsTheLast(s: AgentState, events: seq<Event>, i: int)
    requires -1 <= i < |events| && (i >= 0 ==> Complains(events[i]))
    requires forall j :: i < j < |events| ==> !Complains(events[j])
    ensures HandleAll(s, events).error == if i == -1 then s.error else Some(events[i].message.error)
    decreases |events|
  {
    if events != [] {
      if i < |events| - 1 {
        ErrorIsTheLast(s, events[..|events| - 1], i);
      }
    }
  }

  /** Until the end the message shown as streaming is the partial one, and a run
      is on; afterwards neither. */
  lemma {:induction false} StreamsThePartial(s: AgentState, events: seq<Event>)
    requires s.streamMessage.None?
    requires forall j :: 0 <= j < |events| - 1 ==> !events[j].AgentEnd?
    ensures var r := HandleAll(s, events);
            if events != [] && events[|events| - 1].AgentEnd? then r.streamMessage.None? && !r.isStreaming
            else r.streamMessage == Partial(events) && r.isStreaming == s.isStreaming
    decreases |events|
  {
    if events != [] {
      StreamsThePartial(s, events[..|events| - 1]);
    }
  }

  // ---- pending tool calls ----------------------------------------------------------------

  /** The tools running, as a set. */
  ghost predicate IsSupport(ids: set<string>, running: multiset<string>) {
    forall id :: id in ids <==> id in running
  }

  /** No response asks twice for the same call id. */
  ghost predicate DistinctIds(log: seq<Action>) {
    forall i :: 0 <= i < |log| && log[i].Emit? && log[i].event.MessageEnd? ==>
      forall id :: Ids(CallsOf(log[i].event.message))[id] <= 1
  }

  /** Calls are to be run and running only within a turn, after its response. */
  predicate Orderly(m: Monitor) {
    && (m.phase != InTurn || !m.responded ==> m.todo == multiset{} && m.running == multiset{})
    && (m.open.Some? ==> m.phase == InTurn) && (m.open.Some? && m.open.value.Assistant? ==> !m.responded)
  }

  lemma OrderlyStep(m: Monitor, a: Action)
    requires Orderly(m) && Read(m, a).ok
    ensures Orderly(Read(m, a))
  {
    hide CallsOf, Stopped, Ids;
  }

  /** How a step moves an id between the calls to run and those running. */
  lemma CountsStep(m: Monitor, a: Action, id: string)
    requires Orderly(m) && Read(m, a).ok
    ensures var r := Read(m, a);
            if a.Emit? && a.event.ToolStart? && a.event.id == id then
              m.todo[id] > 0 && r.todo[id] == m.todo[id] - 1 && r.running[id] == m.running[id] + 1
            else if a.Emit? && a.event.ToolEnd? && a.event.id == id then
              m.running[id] > 0 && r.todo[id] == m.todo[id] && r.running[id] == m.running[id] - 1
            else if a.Emit? && a.event.MessageEnd? && a.event.message.Assistant? && !Stopped(a.event.message) then
              m.running[id] == 0 == r.running[id] && r.todo[id] == Ids(CallsOf(a.event.message))[id]
            else r.todo[id] == m.todo[id] && r.running[id] == m.running[id]
  {
    hide CallsOf, Stopped, Ids, Orderly, Read;
    if a.Emit? && a.event.MessageEnd? {
      MessageEndCounts(m, a.event.message, id);
    } else if a.Emit? && a.event.ToolStart? {
      ToolStartCounts(m, a.event.id, a.event.name);
    } else if a.Emit? && a.event.ToolEnd? {
      ToolEndCounts(m, a.event.id, a.event.output, a.event.isError);
    } else {
      OtherCounts(m, a);
    }
  }

  lemma MessageEndCounts(m: Monitor, x: Message, id: string)
    requires Orderly(m) && Read(m, Emit(MessageEnd(x))).ok
    ensures var r := Read(m, Emit(MessageEnd(x)));
            if x.Assistant? && !Stopped(x) then
              m.running[id] == 0 == r.running[id] && r.todo[id] == Ids(CallsOf(x))[id]
            else r.todo[id] == m.todo[id] && r.running[id] == m.running[id]
  {
    hide CallsOf, Stopped, Ids;
  }

  lemma ToolStartCounts(m: Monitor, id: string, name: string)
    requires Read(m, Emit(ToolStart(id, name))).ok
    ensures var r := Read(m, Emit(ToolStart(id, name)));
            id in m.todo && r.todo == m.todo - multiset{id} && r.running == m.running + multiset{id}
  {
  }

  lemma ToolEndCounts(m: Monitor, id: string, output: Output, isError: bool)
    requires Read(m, Emit(ToolEnd(id, output, isError))).ok
    ensures var r := Read(m, Emit(ToolEnd(id, output, isError)));
            id in m.running && r.todo == m.todo && r.running == m.running - multiset{id}
  {
  }

  lemma OtherCounts(m: Monitor, a: Action)
    requires !(a.Emit? && (a.event.MessageEnd? || a.event.ToolStart? || a.event.ToolEnd?))
    ensures Read(m, a).todo == m.todo && Read(m, a).running == m.running
  {
    hide CallsOf, Stopped, Ids, InPlace;
  }

  /** A step keeps an id at most once among the calls to run and running. */
  lemma OnceStep(m: Monitor, a: Action, id: string)
    requires Orderly(m) && Read(m, a).ok && m.todo[id] + m.running[id] <= 1
    requires a.Emit? && a.event.MessageEnd? ==> Ids(CallsOf(a.event.message))[id] <= 1
    ensures Read(m, a).todo[id] + Read(m, a).running[id] <= 1
  {
    hide Read, Orderly, CallsOf, Stopped, Ids;
    CountsStep(m, a, id);
  }

  /** How the set follows the running calls. */
  lemma SupportStep(m: Monitor, s: AgentState, e: Event, id: string)
    requires Orderly(m) && Read(m, Emit(e)).ok && (id in s.pendingToolCalls ==> id in m.running)
    ensures id in Handle(s, e).pendingToolCalls ==> id in Read(m, Emit(e)).running
  {
    hide Read, Orderly, CallsOf, Stopped, Ids;
    CountsStep(m, Emit(e), id);
  }

  lemma RunningUnchanged(m: Monitor, a: Action)
    requires !a.Emit?
    ensures Read(m, a).running == m.running && Read(m, a).todo == m.todo
  {
  }

  /** After any number of actions the pending set holds only running calls; so
      it is empty whenever none is running, as at the end of every turn. */
  lemma {:induction false} PendingFold(s: AgentState, log: seq<Action>)
    requires ReadAll(log).ok && s.pendingToolCalls == {}
    ensures Orderly(ReadAll(log))
    ensures forall id :: id in HandleAll(s, Streamed(log)).pendingToolCalls ==> id in ReadAll(log).running
    decreases |log|
  {
    hide ReadAll, Read, HandleAll, Streamed, Handle, Orderly, CallsOf;
    if log == [] {
      NothingHandled(s);
      StartOrderly();
    } else {
      var before, a := log[..|log| - 1], log[|log| - 1];
      FoldNext(s, log);
      PendingFold(s, before);
      var m := ReadAll(before);
      OrderlyStep(m, a);
      forall id: string
        ensures id in HandleAll(s, Streamed(log)).pendingToolCalls ==> id in Read(m, a).running
      {
        if a.Emit? {
          SupportStep(m, HandleAll(s, Streamed(before)), a.event, id);
        } else {
          RunningUnchanged(m, a);
        }
      }
    }
  }

  /** When no response repeats an id, it is at most once to run or running. */
  lemma {:induction false} RunsOnce(log: seq<Action>, id: string)
    requires ReadAll(log).ok && DistinctIds(log)
    ensures ReadAll(log).todo[id] + ReadAll(log).running[id] <= 1
    decreases |log|
  {
    hide ReadAll, Read, Orderly, DistinctIds, CallsOf;
    if log == [] {
      NothingRead();
    } else {
      ReadLast(log);
      OkPrefix(log, |log| - 1);
      DistinctBefore(log);
      RunsOnce(log[..|log| - 1], id);
      OpenInTurn(log[..|log| - 1]);
      OnceStep(ReadAll(log[..|log| - 1]), log[|log| - 1], id);
    }
  }

  lemma DistinctBefore(log: seq<Action>)
    requires DistinctIds(log) && log != []
    ensures DistinctIds(log[..|log| - 1])
    ensures var a := log[|log| - 1];
            a.Emit? && a.event.MessageEnd? ==> forall id :: Ids(CallsOf(a.event.message))[id] <= 1
  {
  }

  lemma StartOrderly()
    ensures Orderly(START)
  {
  }

  /** At the end of every turn the pending set is empty. */
  lemma NothingPendingAtTurnEnd(s: AgentState, log: seq<Action>, i: nat)
    requires ReadAll(log).ok && s.pendingToolCalls == {} && i < |log| && log[i].Emit? && log[i].event.TurnEnd?
    ensures HandleAll(s, Streamed(log[..i + 1])).pendingToolCalls == {}
  {
    hide ReadAll, HandleAll, Streamed, Handle, Orderly, CallsOf, Stopped;
    var p := log[..i + 1];
    OkPrefix(log, i + 1);
    PendingFold(s, p);
    ReadLast(p);
  }

  /** After a run is drained, the Agent's messages are those it had and the
      run's, the same as the loop's own conversation, and nothing is pending. */
  lemma DrainedRunAgrees(env: Env, s: AgentState, prompts: seq<Message>, steering: seq<Message>,
                         followUps: seq<Message>,
                         skipPoll: bool, rounds: nat)
    requires GoodEnv(env) && FromOutside(prompts) && AllFrom(steering, Steered) && AllFrom(followUps, FollowedUp)
    requires s.pendingToolCalls == {}
    requires Run(env, s.messages, prompts, steering, followUps, skipPoll, rounds).finished
    ensures var w := Run(env, s.messages, prompts, steering, followUps, skipPoll, rounds).world;
            var events := Streamed(w.log);
            var after := HandleAll(s, events);
            && events != [] && events[|events| - 1] == AgentEnd(w.newMessages)
            && after.messages == s.messages + w.newMessages == w.context
            && after.pendingToolCalls == {} && !after.isStreaming && after.streamMessage.None?
            && Partial(events).None?
  {
    hide ReadAll, HandleAll, Streamed, Partial, Run, Orderly, Answered, Balanced;
    var w := Run(env, s.messages, prompts, steering, followUps, skipPoll, rounds).world;
    EveryRun(env, s.messages, prompts, steering, followUps, skipPoll, rounds);
    MessagesFold(s, w.log);
    PendingFold(s, w.log);
    DoneIsOrderly(Seen(w));
    NothingLeftOver(w.log);
    StreamedNext(w.log);
    FoldNext(s, w.log);
    assert w.log[|w.log| - 1] == Emit(AgentEnd(w.newMessages));
  }

  lemma DoneIsOrderly(m: Monitor)
    requires Orderly(m) && m.phase == Done
    ensures m.running == multiset{}
  {
  }
}
