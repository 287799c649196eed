/** What every run does, watched by an automaton that reads the loop's log. */
module AgentGrammar {
  import opened Common
  import opened AgentModel

  datatype Phase = Before | InTurn | Between | Done

  datatype Outcome = Outcome(id: string, output: Output, isError: bool)

  /** The automaton's state.  `todo` are the calls of the turn's response still
      to be started, `running` those started and not ended, `ended` the messages
      of the `MessageEnd` events, `answer` the end of a call whose result has not
      been announced yet, `most` the most messages from outside between
      two model calls.  `quiet` is 1 right after a turn without calls, 2 after a
      steering poll that then came back empty, 3 after a follow-up poll that did
      too, and 4 after a turn that was stopped. */
  datatype Monitor = Monitor(
    ok: bool,
    phase: Phase,
    open: Option<Message>,
    responded: bool,
    todo: multiset<string>,
    running: multiset<string>,
    ended: seq<Message>,
    answer: Option<Outcome>,
    called: bool,
    sinceCall: nat,
    most: nat,
    quiet: nat)

  const START := Monitor(true, Before, None, false, multiset{}, multiset{}, [], None, false, 0, 0, 0)

  function Ids(calls: seq<Call>): multiset<string> {
    if calls == [] then multiset{} else multiset{calls[0].id} + Ids(calls[1..])
  }

  predicate EndsWith(s: seq<Message>, suffix: seq<Message>) {
    |suffix| <= |s| && s[|s| - |suffix|..] == suffix
  }

  /** Whether an event may come now.  The end of a call is followed at once by a
      result that says the same. */
  predicate InPlace(m: Monitor, e: Event) {
    && (m.answer.Some? ==> e.MessageStart?)
    && match e
    case AgentStart => m.phase == Before
    case TurnStart => m.phase == Between && m.quiet != 3 && m.quiet != 4
    case MessageStart(x) =>
      && m.phase == InTurn && m.open.None? && (x.ToolResult? <==> m.responded)
      && m.answer == if x.ToolResult? then Some(Outcome(x.callId, x.output, x.isError)) else None
    case MessageUpdate(x) => m.phase == InTurn && m.open.Some? && m.open.value.Assistant? && x.Assistant?
    case MessageEnd(x) =>
      m.phase == InTurn && m.open.Some? && (if m.open.value.Assistant? then x.Assistant? else x == m.open.value)
    case ToolStart(id, _) => m.phase == InTurn && m.responded && m.open.None? && id in m.todo
    case ToolUpdate(id) => m.phase == InTurn && m.open.None? && id in m.running
    case ToolEnd(id, _, _) => m.phase == InTurn && m.open.None? && id in m.running
    case TurnEnd(x, results) =>
      && m.phase == InTurn && m.responded && m.open.None? && m.todo == multiset{} && m.running == multiset{}
      && EndsWith(m.ended, [x] + results)
    case AgentEnd(messages) => m.phase == Between && messages == m.ended && (m.quiet == 3 || m.quiet == 4)
  }

  /** What an event changes. */
  function Moved(m: Monitor, e: Event): Monitor {
    match e
    case AgentStart => m.(phase := Between)
    case TurnStart => m.(phase := InTurn, responded := false)
    case MessageStart(x) => m.(open := Some(x), answer := None)
    case MessageUpdate(_) => m
    case MessageEnd(x) =>
      var injected := x.User? && m.called;
      m.(open := None, ended := m.ended + [x],
         responded := m.responded || x.Assistant?,
         todo := if x.Assistant? && !Stopped(x) then Ids(CallsOf(x)) else m.todo,
         sinceCall := if injected then m.sinceCall + 1 else m.sinceCall,
         most := if injected then Max(m.most, m.sinceCall + 1) else m.most)
    case ToolStart(id, _) => m.(todo := m.todo - multiset{id}, running := m.running + multiset{id})
    case ToolUpdate(_) => m
    case ToolEnd(id, output, isError) =>
      m.(running := m.running - multiset{id}, answer := Some(Outcome(id, output, isError)))
    case TurnEnd(x, _) => m.(phase := Between, quiet := if Stopped(x) then 4 else if CallsOf(x) == [] then 1 else 0)
    case AgentEnd(_) => m.(phase := Done)
  }

  /** One action read; `ok` falls, for good, when it is out of place. */
  function Read(m: Monitor, a: Action): Monitor {
    match a
    case Emit(e) => Moved(m.(quiet := 0), e).(ok := m.ok && InPlace(m, e))
    case ModelCalled =>
      m.(ok := m.ok && m.phase == InTurn && m.open.None? && !m.responded && m.answer.None?, called := true,
         sinceCall := 0, quiet := 0)
    case SteeringPolled(batch) => m.(quiet := if m.quiet == 1 && batch == [] then 2 else 0)
    case FollowUpPolled(batch) => m.(ok := m.ok && m.quiet == 2, quiet := if batch == [] then 3 else 0)
  }

  function ReadAll(log: seq<Action>): Monitor {
    if log == [] then START else Read(ReadAll(log[..|log| - 1]), log[|log| - 1])
  }

  function Seen(w: World): Monitor {
    ReadAll(w.log)
  }

  lemma SeenPush(w: World, a: Action)
    ensures Seen(Push(w, a)) == Read(Seen(w), a)
  {
    assert (w.log + [a])[..|w.log|] == w.log;
  }

  /** What has been read, but for the polls. */
  function Core(w: World): Monitor {
    Seen(w).(quiet := 0)
  }

  // ---- what else a step keeps ------------------------------------------------------------

  /** Everything queued at the ticks from `a` to `b`. */
  function Queued(f: nat -> seq<string>, origin: Origin, a: nat, b: nat): seq<Message>
    requires a <= b
  {
    if a == b then [] else Queued(f, origin, a, b - 1) + Tagged(origin, f(b - 1))
  }

  lemma {:induction false} QueuedSplit(f: nat -> seq<string>, origin: Origin, a: nat, b: nat, c: nat)
    requires a <= b <= c
    ensures Queued(f, origin, a, c) == Queued(f, origin, a, b) + Queued(f, origin, b, c)
    decreases c
  {
    if b < c {
      QueuedSplit(f, origin, a, b, c - 1);
      assert Queued(f, origin, a, b) + (Queued(f, origin, b, c - 1) + Tagged(origin, f(c - 1)))
          == (Queued(f, origin, a, b) + Queued(f, origin, b, c - 1)) + Tagged(origin, f(c - 1));
    }
  }

  /** From `w` to `v` no queued message is lost, doubled or reordered: `batch`
      was taken from the front of the steering queue. */
  ghost predicate Taken(env: Env, w: World, v: World, batch: seq<Message>) {
    && w.clock <= v.clock
    && w.steering + Queued(env.steer, Steered, w.clock, v.clock) == batch + v.steering
    && w.followUps + Queued(env.followUp, FollowedUp, w.clock, v.clock) == v.followUps
  }

  /** And the conversation stands still. */
  ghost predicate Kept(env: Env, w: World, v: World, batch: seq<Message>) {
    v.context == w.context && v.newMessages == w.newMessages && Taken(env, w, v, batch)
  }

  lemma TakenJoin(env: Env, w: World, v: World, u: World, a: seq<Message>, b: seq<Message>)
    requires Taken(env, w, v, a) && Taken(env, v, u, b)
    ensures Taken(env, w, u, a + b)
  {
    var f, g := env.steer, env.followUp;
    QueuedSplit(f, Steered, w.clock, v.clock, u.clock);
    QueuedSplit(g, FollowedUp, w.clock, v.clock, u.clock);
    var q, r := Queued(f, Steered, w.clock, v.clock), Queued(f, Steered, v.clock, u.clock);
    assert w.steering + (q + r) == (w.steering + q) + r;
    assert (a + v.steering) + r == a + (v.steering + r);
    assert a + (b + u.steering) == (a + b) + u.steering;
    var q', r' := Queued(g, FollowedUp, w.clock, v.clock), Queued(g, FollowedUp, v.clock, u.clock);
    assert w.followUps + (q' + r') == (w.followUps + q') + r';
  }

  lemma KeptJoin(env: Env, w: World, v: World, u: World, a: seq<Message>, b: seq<Message>)
    requires Kept(env, w, v, a) && Kept(env, v, u, b)
    ensures Kept(env, w, u, a + b)
  {
    TakenJoin(env, w, v, u, a, b);
  }

  lemma KeptThen(env: Env, w: World, v: World, u: World, a: seq<Message>)
    requires Kept(env, w, v, a) && Kept(env, v, u, [])
    ensures Kept(env, w, u, a)
  {
    KeptJoin(env, w, v, u, a, []);
    assert a + [] == a;
  }

  lemma ThenKept(env: Env, w: World, v: World, u: World, b: seq<Message>)
    requires Kept(env, w, v, []) && Kept(env, v, u, b)
    ensures Kept(env, w, u, b)
  {
    KeptJoin(env, w, v, u, [], b);
    assert [] + b == b;
  }

  lemma AwaitKeeps(env: Env, w: World)
    ensures Kept(env, w, Await(env, w), []) && Await(env, w).log == w.log
  {
    var c := w.clock;
    assert Queued(env.steer, Steered, c, c) == [] && Queued(env.followUp, FollowedUp, c, c) == [];
    assert [] + Tagged(Steered, env.steer(c)) == Tagged(Steered, env.steer(c));
    assert [] + Tagged(FollowedUp, env.followUp(c)) == Tagged(FollowedUp, env.followUp(c));
    var v := Await(env, w);
    assert [] + v.steering == v.steering;
  }

  lemma LogKeeps(env: Env, w: World, log: seq<Action>)
    ensures Kept(env, w, w.(log := log), [])
  {
    assert w.steering + [] == w.steering && w.followUps + [] == w.followUps && [] + w.steering == w.steering;
  }

  predicate AllFrom(messages: seq<Message>, origin: Origin) {
    forall i :: 0 <= i < |messages| ==> messages[i].User? && messages[i].origin == origin
  }

  /** Queues hold what was queued, and only that. */
  predicate GoodQueues(w: World) {
    AllFrom(w.steering, Steered) && AllFrom(w.followUps, FollowedUp)
  }

  predicate OneAtATime(env: Env, t: nat) {
    !env.steerAll(t) && !env.followUpAll(t)
  }

  lemma QueuedFrom(f: nat -> seq<string>, origin: Origin, a: nat, b: nat)
    requires a <= b
    ensures AllFrom(Queued(f, origin, a, b), origin)
  {
  }

  lemma AllFromParts(a: seq<Message>, b: seq<Message>, origin: Origin)
    ensures AllFrom(a + b, origin) <==> AllFrom(a, origin) && AllFrom(b, origin)
  {
    assert forall i :: 0 <= i < |a| ==> (a + b)[i] == a[i];
    assert forall i :: 0 <= i < |b| ==> (a + b)[|a| + i] == b[i];
  }

  /** Messages taken from the steering queue were queued there. */
  lemma KeptQueuesGood(env: Env, w: World, v: World, batch: seq<Message>)
    requires GoodQueues(w) && Kept(env, w, v, batch)
    ensures GoodQueues(v) && AllFrom(batch, Steered)
  {
    QueuedFrom(env.steer, Steered, w.clock, v.clock);
    QueuedFrom(env.followUp, FollowedUp, w.clock, v.clock);
    AllFromParts(w.steering, Queued(env.steer, Steered, w.clock, v.clock), Steered);
    AllFromParts(batch, v.steering, Steered);
    AllFromParts(w.followUps, Queued(env.followUp, FollowedUp, w.clock, v.clock), FollowedUp);
  }

  lemma PollKeeps(env: Env, w: World)
    ensures var p := PollSteering(env, w);
            && Kept(env, w, p.world, p.batch) && p.world.log == w.log + [SteeringPolled(p.batch)]
            && Core(p.world) == Core(w)
            && Seen(p.world).quiet == (if Seen(w).quiet == 1 && p.batch == [] then 2 else 0)
            && ((forall t :: OneAtATime(env, t)) ==> |p.batch| <= 1)
  {
    hide ReadAll, Kept, Taken;
    var a := Await(env, w);
    var p := PollSteering(env, w);
    AwaitKeeps(env, w);
    SeenPush(a, SteeringPolled(p.batch));
    DequeueKeeps(env, a, p.world, p.batch);
    ThenKept(env, w, a, p.world, p.batch);
    assert OneAtATime(env, w.clock) ==> |p.batch| <= 1;
  }

  lemma DequeueKeeps(env: Env, a: World, v: World, batch: seq<Message>)
    requires v.context == a.context && v.newMessages == a.newMessages && v.clock == a.clock
    requires a.steering == batch + v.steering && v.followUps == a.followUps
    ensures Kept(env, a, v, batch)
  {
    assert a.steering + [] == a.steering && a.followUps + [] == a.followUps;
  }
}
