/**
  The message and lifecycle protocol of one actor as a log of atomic events.

  Callers admit and abandon messages, other threads submit lifecycle operations,
  children exit, and the actor task dispatches, discards, completes and cleans up.
  `Enabled` gives the transaction each event performs; `Allowed` adds what the actor
  task promises about when it performs it.  A log is legal when every event meets
  both; `ActorTask` proves that the actor's code only ever extends legal logs.
 */
module Ledger {
  import opened Lifecycle

  datatype Outcome =
    | Replied
    | BeforeDispatch(reason: ExitReason)
    | DuringDispatch(reason: ExitReason)

  /** How an accepted envelope left the mailbox. */
  datatype Fate = Dispatched | Skipped | Refused | Discarded

  datatype Settlement = Settlement(id: nat, fate: Fate)

  /** What the actor task last did about its lifecycle: read the mode, consumed the hint, or found none. */
  datatype Stance = Fresh | Notified | Passed

  /** The user code of an actor. */
  datatype Code =
    | InitCode
    | Handler
    | ChildHook
    | ShutdownHook
    | StopHook
    | Destructor    // of a message, a reply, an outcome, or a future
    | LocalsDrop    // of the main future's own locals, the actor value among them

  predicate Destroys(code: Code) { code == Destructor || code == LocalsDrop }

  /** The gate as the actor task sees it, and how far its cleanup got. */
  datatype Watch = Watch(
    mode: Mode,
    permit: bool,             // the lifecycle hint is stored
    observed: Mode,           // the mode the actor task last read
    stance: Stance,           // `Notified`: the hint was consumed, the mode not yet reread
    initEntered: bool,        // initialization was entered
    shutdownSeen: bool,       // on_shutdown was entered
    stopEntered: bool,        // on_stop was entered
    crashed: bool,            // user code of the actor has panicked
    escaped: bool)            // a panic left the actor's main future

  datatype Mail = Mail(
    arrived: nat,             // messages admitted; ids count up from 0
    calls: set<nat>,          // admitted messages whose sender waits for an outcome
    abandoned: set<nat>,      // calls whose receiver was dropped
    inbox: seq<nat>,
    closed: bool,
    hand: Option<nat>,        // an envelope taken from the inbox
    settled: seq<Settlement>, // envelopes that left, in order
    running: set<nat>,        // dispatched, neither completed nor failed
    failing: set<nat>,        // failure committed, error not yet read
    slots: set<nat>,          // dispatched work the scheduler still stores
    answers: map<nat, Outcome>)

  datatype Family = Family(
    kids: set<nat>,           // retained children
    spawned: set<nat>,
    gone: set<nat>,           // children that published an exit
    hooked: set<nat>)         // children whose exit hook was entered

  datatype World = World(watch: Watch, mail: Mail, family: Family)

  datatype Event =
    // other threads
    | Op(op: GateOp)
    | Admit(isCall: bool)
    | Abandon(id: nat)
    | ChildExits(child: nat)
    // the actor task and its gate
    | Fail
    | Abort
    | Observe
    | Consume
    | Wait
    | EnterInit
    | Runs(code: Code)
    | Panics
    | Escapes
    | OnShutdown(shutdown: Shutdown)
    | EnterStop(reason: ExitReason)
    | Publish(proposed: ExitStatus)
    // the actor task and its mailbox
    | Close
    | Receive
    | Skip
    | Commit
    | Refuse
    | Discard
    | Complete(id: nat)
    | BeginFail(id: nat)
    | EndFail(id: nat)
    | Retire(id: nat)
    // the actor task and its children
    | Spawn(child: nat)
    | Reap(child: nat)
    | ClearKids
    | EnterHook(child: nat)

  function Init(): World {
    World(
      Watch(Running, false, Running, Fresh, false, false, false, false, false),
      Mail(0, {}, {}, [], false, None, [], {}, {}, {}, map[]),
      Family({}, {}, {}, {}))
  }

  /** Events other threads cause. */
  predicate External(e: Event) {
    match e
    case Op(op) => Foreign(op)
    case _ => e.Admit? || e.Abandon? || e.ChildExits?
  }

  /** What may happen between a panic and the commit that takes the actor out of its cooperative modes. */
  predicate Containing(e: Event) {
    External(e) || e == Fail || e.BeginFail? || e == Abort || e == Escapes
  }

  /** Everything the actor accepted has been settled and nothing is scheduled. */
  predicate Quiet(m: Mail) {
    m.inbox == [] && m.hand == None && m.running == {} && m.failing == {} && m.slots == {}
  }

  // ----------------------------------------------------------- transactions

  predicate WatchEnabled(w: Watch, e: Event) {
    match e
    case Op(op) => Foreign(op)
    case EnterInit => Soft(w.mode)
    case Consume => w.permit
    case Wait => !w.permit
    case Publish(_) => !w.mode.Exited?
    case _ => true
  }

  predicate MailEnabled(m: Mail, mode: Mode, e: Event) {
    match e
    case Admit(_) => mode == Running
    case Abandon(id) => id in m.calls
    case Receive => m.hand == None && m.inbox != []
    case Skip => m.hand.Some? && m.hand.value in m.calls && m.hand.value in m.abandoned
    case Commit => m.hand.Some? && Dispatching(mode)
    case Refuse => m.hand.Some? && !Dispatching(mode)
    case Discard => m.hand.Some?
    case Complete(id) => id in m.running
    case BeginFail(id) => id in m.running
    case EndFail(id) => id in m.failing
    case Retire(id) => id in m.slots && id !in m.running && id !in m.failing
    case _ => true
  }

  predicate FamilyEnabled(f: Family, mode: Mode, e: Event) {
    match e
    case ChildExits(c) => c in f.spawned
    case Spawn(c) => c !in f.spawned
    case Reap(c) => c in f.kids
    case EnterHook(_) => mode == Running
    case _ => true
  }

  predicate Enabled(w: World, e: Event) {
    WatchEnabled(w.watch, e) && MailEnabled(w.mail, w.watch.mode, e) && FamilyEnabled(w.family, w.watch.mode, e)
  }

  function Gated(w: Watch, op: GateOp): Watch {
    w.(mode := Gate(w.mode, op), permit := w.permit || Gate(w.mode, op) != w.mode)
  }

  function WatchStep(w: Watch, e: Event): Watch {
    match e
    case Op(op) => Gated(w, op)
    case Fail => Gated(w, BeginFailure)
    case Abort => Gated(w, BeginAbort)
    case BeginFail(_) => Gated(w, BeginFailure)
    case Publish(proposed) => Gated(w, Finish(proposed))
    case Observe => w.(observed := w.mode, stance := Fresh)
    case Consume => w.(permit := false, stance := Notified)
    case Wait => w.(stance := Passed)
    case EnterInit => w.(initEntered := true)
    case Panics => w.(crashed := true)
    case Escapes => w.(escaped := true)
    case OnShutdown(_) => w.(shutdownSeen := true)
    case EnterStop(_) => w.(stopEntered := true)
    case _ => w
  }

  /** One-way messages have no receiver to answer. */
  function Answer(m: Mail, id: nat, outcome: Outcome): Mail {
    if id in m.calls then m.(answers := m.answers[id := outcome]) else m
  }

  /** The envelope in hand leaves the mailbox without a handler. */
  function Reject(m: Mail, mode: Mode, fate: Fate): Mail
    requires m.hand.Some?
  {
    Answer(m, m.hand.value, BeforeDispatch(QueuedReason(mode)))
      .(hand := None, settled := m.settled + [Settlement(m.hand.value, fate)])
  }

  function CompletionOutcome(mode: Mode): Outcome {
    if Soft(mode) then Replied else DuringDispatch(DispatchReason(mode))
  }

  function MailStep(m: Mail, mode: Mode, e: Event): Mail
    requires MailEnabled(m, mode, e)
  {
    match e
    case Admit(isCall) =>
      m.(arrived := m.arrived + 1, inbox := m.inbox + [m.arrived],
         calls := if isCall then m.calls + {m.arrived} else m.calls)
    case Abandon(id) => m.(abandoned := m.abandoned + {id})
    case Close => m.(closed := true)
    case Receive => m.(hand := Some(m.inbox[0]), inbox := m.inbox[1..])
    case Skip => Reject(m, mode, Skipped)
    case Refuse => Reject(m, mode, Refused)
    case Discard => Reject(m, mode, Discarded)
    case Commit =>
      m.(hand := None, settled := m.settled + [Settlement(m.hand.value, Dispatched)],
         running := m.running + {m.hand.value}, slots := m.slots + {m.hand.value})
    case Complete(id) => Answer(m.(running := m.running - {id}), id, CompletionOutcome(mode))
    case BeginFail(id) => m.(running := m.running - {id}, failing := m.failing + {id})
    case EndFail(id) => Answer(m.(failing := m.failing - {id}), id, DuringDispatch(DispatchReason(mode)))
    case Retire(id) => m.(slots := m.slots - {id})
    case _ => m
  }

  function FamilyStep(f: Family, e: Event): Family {
    match e
    case ChildExits(c) => f.(gone := f.gone + {c})
    case Spawn(c) => f.(kids := f.kids + {c}, spawned := f.spawned + {c})
    case Reap(c) => f.(kids := f.kids - {c})
    case ClearKids => f.(kids := {})
    case EnterHook(c) => f.(hooked := f.hooked + {c})
    case _ => f
  }

  function Apply(w: World, e: Event): World
    requires Enabled(w, e)
  {
    World(WatchStep(w.watch, e), MailStep(w.mail, w.watch.mode, e), FamilyStep(w.family, e))
  }

  /**
    What the actor task promises about its own events: after a panic it does nothing until
    a hard mode has committed, and it commits failure for no other cause.
   */
  predicate Allowed(w: World, e: Event) {
    (w.watch.crashed && Soft(w.watch.mode) ==> Containing(e)) && Promised(w, e)
  }

  /** Each hook runs after its entry, handlers between initialization and the final cleanup. */
  predicate MayRun(g: Watch, code: Code) {
    match code
    case ShutdownHook => g.shutdownSeen && !g.stopEntered
    case StopHook => g.stopEntered
    case _ => g.initEntered && !g.stopEntered
  }

  predicate Promised(w: World, e: Event) {
    var g, m, f := w.watch, w.mail, w.family;
    match e
    case Fail => g.crashed || !Soft(g.mode)
    case BeginFail(_) => g.crashed || !Soft(g.mode)
    case Wait => g.stance != Notified
    case EnterInit => !g.initEntered
    case Runs(code) => Destroys(code) || (!g.crashed && MayRun(g, code))
    case Escapes => g.crashed
    case Close => g.mode != Running
    case Commit => g.initEntered
    case Discard => !Dispatching(g.mode)
    case Spawn(_) => g.initEntered && !g.stopEntered
    case Reap(c) => c in f.gone
    case ClearKids => f.kids <= f.gone && g.mode != Running
    case EnterHook(c) => c in f.spawned && c in f.gone && c !in f.kids && c !in f.hooked && g.initEntered
    case OnShutdown(s) =>
      && g.initEntered && !g.shutdownSeen && !g.stopEntered && !g.crashed
      && g.stance == Fresh
      && ((g.observed == Draining && s == Drain) || (g.observed == Stopping && s == Stop))
      && (g.mode == g.observed || (Rank(g.mode) == 2 && g.permit))
    case EnterStop(r) =>
      && !g.stopEntered && g.shutdownSeen && !g.crashed
      && Quiet(m) && f.kids == {}
      && g.stance == Passed
      && ((g.observed == Stopping && r == Stopped) || (g.observed == Draining && r == Drained))
      && (g.mode == g.observed || (Rank(g.mode) == 2 && g.permit))
    case Publish(p) =>
      && g.mode != Running && Quiet(m)
      && (g.escaped ==> g.mode == Aborting)
      && (p.reason == Aborted ==> g.mode == Aborting)
      && (g.mode == Stopping ==> p.reason == Stopped && g.stopEntered)
      && (g.mode == Draining ==> p.reason == Drained && g.stopEntered)
    case _ => true
  }

  predicate MailEvent(e: Event) {
    || e.Admit? || e.Abandon? || e == Close || e == Receive || e == Skip || e == Commit || e == Refuse
    || e == Discard || e.Complete? || e.EndFail? || e.Retire?
  }

  /** A mailbox event moves nothing but the mail. */
  lemma MailEventApplies(w: World, e: Event)
    requires MailEvent(e) && MailEnabled(w.mail, w.watch.mode, e) && Promised(w, e)
    requires w.watch.crashed && Soft(w.watch.mode) ==> Containing(e)
    ensures Enabled(w, e) && Allowed(w, e) && Apply(w, e) == w.(mail := MailStep(w.mail, w.watch.mode, e))
  {
  }

  predicate FamilyEvent(e: Event) { e.ChildExits? || e.Spawn? || e.Reap? || e == ClearKids || e.EnterHook? }

  /** A child event moves nothing but the family. */
  lemma FamilyEventApplies(w: World, e: Event)
    requires FamilyEvent(e) && FamilyEnabled(w.family, w.watch.mode, e) && Promised(w, e)
    requires w.watch.crashed && Soft(w.watch.mode) ==> Containing(e)
    ensures Enabled(w, e) && Allowed(w, e) && Apply(w, e) == w.(family := FamilyStep(w.family, e))
  {
  }

  // ------------------------------------------------------------------- logs

  function Next(w: World, e: Event): World {
    if Enabled(w, e) then Apply(w, e) else w
  }

  function Replay(log: seq<Event>): World {
    if log == [] then Init() else Next(Replay(log[..|log| - 1]), log[|log| - 1])
  }

  predicate Legal(log: seq<Event>) {
    log != [] ==>
      var w, e := Replay(log[..|log| - 1]), log[|log| - 1];
      Legal(log[..|log| - 1]) && Enabled(w, e) && Allowed(w, e)
  }

  lemma Extend(log: seq<Event>, e: Event)
    requires Legal(log) && Enabled(Replay(log), e) && Allowed(Replay(log), e)
    ensures Legal(log + [e]) && Replay(log + [e]) == Apply(Replay(log), e)
  {
    assert (log + [e])[..|log + [e]| - 1] == log;
  }

  /** Event `i` of a log was enabled and allowed where it happened, and led to the next state. */
  predicate StepAt(log: seq<Event>, i: nat)
    requires i < |log|
  {
    var w := Replay(log[..i]);
    Enabled(w, log[i]) && Allowed(w, log[i]) && Replay(log[..i + 1]) == Apply(w, log[i])
  }

  lemma {:induction false} LegalPrefix(log: seq<Event>, i: nat)
    requires Legal(log) && i <= |log|
    ensures Legal(log[..i])
    ensures i < |log| ==> StepAt(log, i)
  {
    hide Enabled, Allowed, Apply;
    if i == |log| {
      assert log[..i] == log;
    } else {
      var front := log[..|log| - 1];
      LegalPrefix(front, i);
      assert front[..i] == log[..i];
      if i == |front| {
        assert log[..i] == front && log[..i + 1] == log;
      } else {
        assert front[..i + 1] == log[..i + 1] && front[i] == log[i];
      }
    }
  }

  // -------------------------------------------------------------- invariant

  function InHand(m: Mail): nat { if m.hand.Some? then 1 else 0 }

  /** Conservation and order: ids leave the mailbox in the order they entered it. */
  ghost predicate OrderOk(m: Mail) {
    && |m.settled| + InHand(m) + |m.inbox| == m.arrived
    && (forall i :: 0 <= i < |m.settled| ==> m.settled[i].id == i)
    && (m.hand.Some? ==> m.hand.value == |m.settled|)
    && (forall i :: 0 <= i < |m.inbox| ==> m.inbox[i] == |m.settled| + InHand(m) + i)
  }

  ghost predicate FateIs(m: Mail, id: nat, fate: Fate) {
    id < |m.settled| && m.settled[id].fate == fate
  }

  ghost predicate Open(m: Mail, id: nat) { id in m.running || id in m.failing }

  /** Open work is dispatched and unanswered; every other settled call is answered. */
  ghost predicate AnswersOk(m: Mail) {
    && m.running !! m.failing
    && (forall id :: id in m.slots ==> FateIs(m, id, Dispatched))
    && (forall id :: Open(m, id) ==> id in m.slots && id !in m.answers)
    && (forall id :: id in m.calls ==> id < m.arrived)
    && (forall id :: id in m.answers ==> id in m.calls && id < |m.settled|)
    && (forall id :: id in m.answers ==> (m.answers[id].BeforeDispatch? <==> m.settled[id].fate != Dispatched))
    && (forall id :: id in m.calls && id < |m.settled| && !Open(m, id) ==> id in m.answers)
  }

  /** Nothing but abandoned calls was turned away. */
  ghost predicate Orderly(m: Mail) {
    forall i :: 0 <= i < |m.settled| ==> m.settled[i].fate == Dispatched || m.settled[i].fate == Skipped
  }

  ghost predicate WatchOk(g: Watch) {
    && (g.mode != g.observed ==> g.permit || g.stance == Notified)
    && (g.mode == g.observed || Rank(g.observed) < Rank(g.mode))
    && (g.shutdownSeen ==> g.mode != Running)
    && (g.stopEntered ==> g.shutdownSeen) && (g.shutdownSeen ==> g.initEntered) && (g.escaped ==> g.crashed)
  }

  ghost predicate MailOk(g: Watch, m: Mail) {
    && (m.closed ==> g.mode != Running)
    && (m.failing != {} ==> !Soft(g.mode))
    && (g.mode.Exited? || g.stopEntered ==> Quiet(m))
    && (Dispatching(g.mode) ==> Orderly(m))
    && (g.mode.Exited? && g.mode.status.reason == Drained ==> Orderly(m))
    && (g.mode.Exited? && (g.mode.status.reason == Drained || g.mode.status.reason == Stopped) ==> g.stopEntered)
  }

  ghost predicate FamilyOk(g: Watch, f: Family) {
    && f.kids <= f.spawned && f.gone <= f.spawned && f.hooked <= f.gone
    && f.spawned - f.kids <= f.gone && f.hooked !! f.kids
    && (g.stopEntered ==> f.kids == {})
  }

  ghost predicate Inv(w: World) {
    OrderOk(w.mail) && AnswersOk(w.mail) && WatchOk(w.watch) && MailOk(w.watch, w.mail) && FamilyOk(w.watch, w.family)
  }

  lemma StepKeepsOrder(m: Mail, mode: Mode, e: Event)
    requires OrderOk(m) && MailEnabled(m, mode, e)
    ensures OrderOk(MailStep(m, mode, e))
  {
  }

  lemma RejectKeepsAnswers(m: Mail, mode: Mode, fate: Fate)
    requires OrderOk(m) && AnswersOk(m) && m.hand.Some? && fate != Dispatched
    ensures AnswersOk(Reject(m, mode, fate))
  {
  }

  lemma AdmissionKeepsAnswers(m: Mail, mode: Mode, e: Event)
    requires OrderOk(m) && AnswersOk(m) && MailEnabled(m, mode, e)
    requires e.Admit? || e.Commit?
    ensures AnswersOk(MailStep(m, mode, e))
  {
  }

  lemma RepliesKeepAnswers(m: Mail, mode: Mode, e: Event)
    requires OrderOk(m) && AnswersOk(m) && MailEnabled(m, mode, e)
    requires e.Complete? || e.EndFail?
    ensures AnswersOk(MailStep(m, mode, e))
  {
  }

  lemma StepKeepsAnswers(m: Mail, mode: Mode, e: Event)
    requires OrderOk(m) && AnswersOk(m) && MailEnabled(m, mode, e)
    ensures AnswersOk(MailStep(m, mode, e))
  {
    match e
    case Skip => RejectKeepsAnswers(m, mode, Skipped);
    case Refuse => RejectKeepsAnswers(m, mode, Refused);
    case Discard => RejectKeepsAnswers(m, mode, Discarded);
    case Admit(_) => AdmissionKeepsAnswers(m, mode, e);
    case Commit => AdmissionKeepsAnswers(m, mode, e);
    case Complete(_) => RepliesKeepAnswers(m, mode, e);
    case EndFail(_) => RepliesKeepAnswers(m, mode, e);
    case _ =>
  }

  lemma StepKeepsWatch(w: World, e: Event)
    requires WatchOk(w.watch) && Enabled(w, e) && Allowed(w, e)
    ensures WatchOk(WatchStep(w.watch, e))
  {
  }

  lemma SettlingKeepsMail(w: World, e: Event)
    requires OrderOk(w.mail) && WatchOk(w.watch) && MailOk(w.watch, w.mail) && Enabled(w, e) && Allowed(w, e)
    requires e == Skip || e == Commit || e == Refuse || e == Discard
    ensures MailOk(WatchStep(w.watch, e), MailStep(w.mail, w.watch.mode, e))
  {
  }

  lemma StepKeepsMail(w: World, e: Event)
    requires OrderOk(w.mail) && WatchOk(w.watch) && MailOk(w.watch, w.mail) && Enabled(w, e) && Allowed(w, e)
    ensures MailOk(WatchStep(w.watch, e), MailStep(w.mail, w.watch.mode, e))
  {
    if e == Skip || e == Commit || e == Refuse || e == Discard { SettlingKeepsMail(w, e); }
  }

  lemma StepKeepsFamily(w: World, e: Event)
    requires FamilyOk(w.watch, w.family) && Enabled(w, e) && Allowed(w, e)
    ensures FamilyOk(WatchStep(w.watch, e), FamilyStep(w.family, e))
  {
  }

  lemma StepKeepsInv(w: World, e: Event)
    requires Inv(w) && Enabled(w, e) && Allowed(w, e)
    ensures Inv(Apply(w, e))
  {
    StepKeepsOrder(w.mail, w.watch.mode, e);
    StepKeepsAnswers(w.mail, w.watch.mode, e);
    StepKeepsWatch(w, e);
    StepKeepsMail(w, e);
    StepKeepsFamily(w, e);
  }

  lemma {:induction false} LegalInv(log: seq<Event>)
    requires Legal(log)
    ensures Inv(Replay(log))
  {
    if log != [] {
      LegalInv(log[..|log| - 1]);
      StepKeepsInv(Replay(log[..|log| - 1]), log[|log| - 1]);
    }
  }
}
