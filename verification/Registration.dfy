/** How an Agent registers with the Server and finds its way back after a crash. The Agent may stop after
    any step, and in the middle of any save. */
module Registration {
  import opened Basics
  import opened StateFiles

  type Identity = nat
  type Keys = nat
  type RegistrationId = nat
  type AgentId = nat

  datatype AgentState =
    | IdentityPrepared(identity: Identity)
    | RegistrationPending(agentId: AgentId, identity: Identity, keys: Keys, registrationId: RegistrationId)
    | Registered(agentId: AgentId, identity: Identity, keys: Keys, registrationId: RegistrationId)

  /** What the Server commits. */
  datatype Record = Record(identity: Identity, agentId: AgentId, registrationId: RegistrationId)

  function RecordOf(state: AgentState): Record
    requires !state.IdentityPrepared?
  {
    Record(state.identity, state.agentId, state.registrationId)
  }

  function StageRank(state: AgentState): nat {
    match state
    case IdentityPrepared(_) => 1
    case RegistrationPending(_, _, _, _) => 2
    case Registered(_, _, _, _) => 3
  }

  function RegisteredFromPending(state: AgentState): AgentState
    requires state.RegistrationPending?
  {
    Registered(state.agentId, state.identity, state.keys, state.registrationId)
  }

  /** The check made before a repeated registration may replace the pending one. */
  predicate SamePending(previous: AgentState, current: AgentState)
    requires previous.RegistrationPending? && current.RegistrationPending?
  {
    && previous.agentId == current.agentId && previous.identity == current.identity
    && previous.keys == current.keys && previous.registrationId == current.registrationId
  }

  /** Where the Agent process is. */
  datatype Process =
    | Down
    | Holding(state: AgentState)
    | Offered(state: AgentState, offer: AgentState)
    | Committing(pending: AgentState)
    | Awaiting(pending: AgentState)
    | Authorized(state: AgentState)
    | Running(state: AgentState)

  /** `inFlight` are the commits sent and not known to be lost; the Server may act on one at any time,
      more than once, and after the Agent has stopped. */
  datatype System = System(disk: Files<AgentState>, process: Process, inFlight: set<Record>, committed: set<Record>)

  const Initial: System := System(Files(None, None, None), Down, {}, {})

  datatype Step =
    | Start(identity: Identity, io: Io, stop: nat)
    | Stop
    | Prepare(token: bool, agentId: AgentId, keys: Keys, registrationId: RegistrationId)
    | SavePending(io: Io, stop: nat)
    | SendCommit
    | ServerCommits(record: Record)
    | ConnectPending
    | ConnectRegistered
    | SaveRegistered(io: Io, stop: nat)
    | ChangeKeys(keys: Keys, io: Io, stop: nat)

  /** The state a step saves, if it saves one. */
  function Target(s: System, step: Step): Option<AgentState> {
    match step
    case Start(identity, _, _) =>
      if s.process.Down? && Load(s.disk).None? then Some(IdentityPrepared(identity)) else None
    case SavePending(_, _) => if s.process.Offered? then Some(s.process.offer) else None
    case SaveRegistered(_, _) =>
      if s.process.Awaiting? && s.process.pending.RegistrationPending? then
        Some(RegisteredFromPending(s.process.pending))
      else if s.process.Authorized? && s.process.state.RegistrationPending? then
        Some(RegisteredFromPending(s.process.state))
      else None
    case ChangeKeys(keys, _, _) =>
      if (s.process.Authorized? || s.process.Running?) && !s.process.state.IdentityPrepared? then
        Some(s.process.state.(keys := keys))
      else None
    case _ => None
  }

  predicate Saves(step: Step) {
    step.Start? || step.SavePending? || step.SaveRegistered? || step.ChangeKeys?
  }

  /** A step that saves stops at some state of the save's trail: the last one, or an earlier one if the
      process dies on the way. */
  predicate SaveEnabled(s: System, step: Step) {
    Saves(step) && Target(s, step).Some? && step.stop < |Trail(s.disk, Target(s, step).value, step.io)|
  }

  predicate Enabled(s: System, step: Step) {
    match step
    case Start(_, _, _) => s.process.Down? && (Load(s.disk).None? ==> SaveEnabled(s, step))
    case Stop => true
    case Prepare(_, _, _, _) => s.process.Holding? && !s.process.state.Registered?
    case SavePending(_, _) => SaveEnabled(s, step)
    case SendCommit => s.process.Committing? && s.process.pending.RegistrationPending?
    case ServerCommits(record) => record in s.inFlight
    case ConnectPending =>
      && s.process.Holding? && s.process.state.RegistrationPending?
      && exists record :: record in s.committed && record.identity == s.process.state.identity
    case ConnectRegistered => s.process.Holding? && s.process.state.Registered?
    case SaveRegistered(_, _) =>
      && SaveEnabled(s, step)
      && (s.process.Awaiting? && s.process.pending.RegistrationPending? ==>
            RecordOf(s.process.pending) in s.committed)
    case ChangeKeys(_, _, _) => SaveEnabled(s, step)
  }

  /** Where the process goes on when a save has reported success. */
  function Onward(process: Process, saved: AgentState): Process {
    match process
    case Down => Holding(saved)
    case Offered(_, _) => Committing(saved)
    case Awaiting(_) => Running(saved)
    case Authorized(_) => if saved.Registered? then Running(saved) else Authorized(saved)
    case _ => Running(saved)
  }

  function AfterSave(s: System, step: Step): System
    requires SaveEnabled(s, step)
  {
    var target := Target(s, step).value;
    var trail := Trail(s.disk, target, step.io);
    var finished := step.stop == |trail| - 1 && Saved(s.disk, step.io);
    s.(disk := trail[step.stop], process := if finished then Onward(s.process, target) else Down)
  }

  function Apply(s: System, step: Step): System
    requires Enabled(s, step)
  {
    match step
    case Start(_, _, _) => if Load(s.disk).Some? then s.(process := Holding(Load(s.disk).value)) else AfterSave(s, step)
    case Stop => s.(process := Down)
    case Prepare(token, agentId, keys, registrationId) =>
      var state := s.process.state;
      var offer := RegistrationPending(agentId, state.identity, keys, registrationId);
      if !token || (state.RegistrationPending? && !SamePending(state, offer)) then s.(process := Down)
      else s.(process := Offered(state, offer))
    case SavePending(_, _) => AfterSave(s, step)
    case SendCommit => s.(process := Awaiting(s.process.pending),
                          inFlight := s.inFlight + {RecordOf(s.process.pending)})
    case ServerCommits(record) => s.(committed := s.committed + {record})
    case ConnectPending => s.(process := Authorized(s.process.state))
    case ConnectRegistered => s.(process := Running(s.process.state))
    case SaveRegistered(_, _) => AfterSave(s, step)
    case ChangeKeys(_, _, _) => AfterSave(s, step)
  }

  ghost predicate Behaviour(states: seq<System>, steps: seq<Step>) {
    && |states| == |steps| + 1 && states[0] == Initial
    && forall i :: 0 <= i < |steps| ==> Enabled(states[i], steps[i]) && states[i + 1] == Apply(states[i], steps[i])
  }

  // ----- what every state keeps -----

  /** The disk remembers this registration. */
  ghost predicate Remembers(disk: Files<AgentState>, record: Record) {
    Load(disk).Some? && !Load(disk).value.IdentityPrepared? && RecordOf(Load(disk).value) == record
  }

  /** The process works on what the disk holds. */
  ghost predicate ProcessOk(s: System) {
    match s.process
    case Down => true
    case Holding(state) => Load(s.disk) == Some(state)
    case Offered(state, offer) =>
      && Load(s.disk) == Some(state) && offer.RegistrationPending? && offer.identity == state.identity
      && !state.Registered?
      && (state.RegistrationPending? ==> offer == state)
    case Committing(pending) => Load(s.disk) == Some(pending) && pending.RegistrationPending?
    case Awaiting(pending) =>
      Load(s.disk) == Some(pending) && pending.RegistrationPending? && RecordOf(pending) in s.inFlight
    case Authorized(state) =>
      Load(s.disk) == Some(state) && state.RegistrationPending? && RecordOf(state) in s.committed
    case Running(state) => Load(s.disk) == Some(state) && state.Registered?
  }

  ghost predicate Inv(s: System) {
    && ProcessOk(s)
    && s.committed <= s.inFlight
    && (forall record :: record in s.inFlight ==> Remembers(s.disk, record))
    && (Load(s.disk).Some? && Load(s.disk).value.Registered? ==> RecordOf(Load(s.disk).value) in s.committed)
  }

  /** The save of this step dies in the stretch where nothing is left to load. */
  predicate FallsInGap(s: System, step: Step) {
    SaveEnabled(s, step) && Gap(s.disk, step.io, step.stop)
  }

  /** What one save leaves behind: the old state or the target, and the target for sure on success. */
  lemma SaveOutcome(s: System, step: Step)
    requires SaveEnabled(s, step) && !FallsInGap(s, step)
    ensures var target := Target(s, step);
            && (Load(AfterSave(s, step).disk) == Load(s.disk) || Load(AfterSave(s, step).disk) == target)
            && (!AfterSave(s, step).process.Down? ==>
                  && Load(AfterSave(s, step).disk) == target
                  && AfterSave(s, step).process == Onward(s.process, target.value))
  {
    var target := Target(s, step).value;
    CrashKeepsOldOrNew(s.disk, target, step.io, step.stop);
    ReportIsTrue(s.disk, target, step.io);
  }

  lemma SaveKeeps(s: System, step: Step)
    requires Inv(s) && Enabled(s, step) && SaveEnabled(s, step) && !FallsInGap(s, step)
    ensures Inv(AfterSave(s, step))
  {
    SaveOutcome(s, step);
  }

  lemma StepKeeps(s: System, step: Step)
    requires Inv(s) && Enabled(s, step) && !FallsInGap(s, step)
    ensures Inv(Apply(s, step))
  {
    if SaveEnabled(s, step) {
      SaveKeeps(s, step);
    }
  }

  /** Once there is an identity it stays, the stage does not move back, and a registration once pending
      stays the same one. */
  ghost predicate Advances(before: Option<AgentState>, after: Option<AgentState>) {
    before.Some? ==>
      && after.Some? && after.value.identity == before.value.identity
      && StageRank(before.value) <= StageRank(after.value)
      && (!before.value.IdentityPrepared? ==> RecordOf(after.value) == RecordOf(before.value))
  }

  lemma StepAdvances(s: System, step: Step)
    requires Inv(s) && Enabled(s, step) && !FallsInGap(s, step)
    ensures Advances(Load(s.disk), Load(Apply(s, step).disk))
  {
    if SaveEnabled(s, step) {
      SaveOutcome(s, step);
    }
  }

  /** What becomes of the keys of a registration: they stay, or become those a change of keys asks for. */
  ghost predicate KeysFollow(before: Option<AgentState>, step: Step, after: Option<AgentState>) {
    before.Some? && !before.value.IdentityPrepared? ==>
      && after.Some? && !after.value.IdentityPrepared?
      && (after.value.keys == before.value.keys || (step.ChangeKeys? && after.value.keys == step.keys))
  }

  lemma StepKeepsKeys(s: System, step: Step)
    requires Inv(s) && Enabled(s, step) && !FallsInGap(s, step)
    ensures KeysFollow(Load(s.disk), step, Load(Apply(s, step).disk))
  {
    if SaveEnabled(s, step) {
      SaveOutcome(s, step);
    }
  }

  /** A registration that is offered again is taken up exactly if there is a token and agent id, keys and registration
      id are all those of the pending one; then it is the pending one. Otherwise the Agent stops. A first one is
      taken up exactly if there is a token. */
  lemma PrepareDecides(s: System, step: Step)
    requires step.Prepare? && Enabled(s, step)
    ensures var state, t := s.process.state, Apply(s, step);
            && t == s.(process := t.process) && (t.process.Down? || t.process.Offered?)
            && (state.RegistrationPending? ==>
                  && (t.process.Offered? <==>
                      && step.token && step.agentId == state.agentId && step.keys == state.keys
                      && step.registrationId == state.registrationId)
                  && (t.process.Offered? ==> t.process == Offered(state, state)))
            && (state.IdentityPrepared? ==>
                  && (t.process.Offered? <==> step.token)
                  && (t.process.Offered? ==>
                      && t.process.state == state && t.process.offer.RegistrationPending?
                      && t.process.offer.identity == state.identity && t.process.offer.agentId == step.agentId
                      && t.process.offer.keys == step.keys && t.process.offer.registrationId == step.registrationId))
  {
  }

  ghost predicate AvoidsGap(states: seq<System>, steps: seq<Step>, n: nat)
    requires n <= |steps| <= |states|
  {
    forall i :: 0 <= i < n ==> !FallsInGap(states[i], steps[i])
  }

  lemma {:induction false} InvInEveryState(states: seq<System>, steps: seq<Step>, n: nat)
    requires Behaviour(states, steps) && n <= |steps| && AvoidsGap(states, steps, n)
    ensures Inv(states[n])
  {
    if n > 0 {
      InvInEveryState(states, steps, n - 1);
      StepKeeps(states[n - 1], steps[n - 1]);
    }
  }

  /** With crashes anywhere else: whatever the Server has committed, the disk holds, pending or
      registered, under the same identity, agent and registration id; so the Server never commits two
      registrations for this Agent, and a disk that says registered is right. */
  lemma CommittedIsRemembered(states: seq<System>, steps: seq<Step>, n: nat)
    requires Behaviour(states, steps) && n <= |steps| && AvoidsGap(states, steps, n)
    ensures forall record :: record in states[n].committed ==> Remembers(states[n].disk, record)
    ensures |states[n].committed| <= 1
    ensures Load(states[n].disk).Some? && Load(states[n].disk).value.Registered? ==>
              RecordOf(Load(states[n].disk).value) in states[n].committed
  {
    InvInEveryState(states, steps, n);
    var committed := states[n].committed;
    if record :| record in committed {
      assert forall other :: other in committed ==> Remembers(states[n].disk, other);
      assert committed == {record};
    }
  }

  lemma {:induction false} NeverMovesBack(states: seq<System>, steps: seq<Step>, m: nat, n: nat)
    requires Behaviour(states, steps) && m <= n <= |steps| && AvoidsGap(states, steps, n)
    ensures Advances(Load(states[m].disk), Load(states[n].disk))
    decreases n
  {
    if m < n {
      NeverMovesBack(states, steps, m, n - 1);
      InvInEveryState(states, steps, n - 1);
      StepAdvances(states[n - 1], steps[n - 1]);
    }
  }

  /** The keys of a stored registration, pending or complete, change only by a change of keys: they are still those of
      any earlier state, or those a change since then asked for. */
  lemma {:induction false} KeysChangeOnlyOnRequest(states: seq<System>, steps: seq<Step>, m: nat, n: nat)
    requires Behaviour(states, steps) && m <= n <= |steps| && AvoidsGap(states, steps, n)
    requires Load(states[m].disk).Some? && !Load(states[m].disk).value.IdentityPrepared?
    ensures var before, after := Load(states[m].disk).value, Load(states[n].disk);
            && after.Some? && !after.value.IdentityPrepared?
            && (|| after.value.keys == before.keys
                || exists i :: m <= i < n && steps[i].ChangeKeys? && after.value.keys == steps[i].keys)
    decreases n
  {
    if m < n {
      KeysChangeOnlyOnRequest(states, steps, m, n - 1);
      InvInEveryState(states, steps, n - 1);
      StepKeepsKeys(states[n - 1], steps[n - 1]);
    }
  }

  /** The condition is exact: a step loses the state if and only if its save dies in the gap, and then the
      next start makes up a new identity whatever the Server has committed. */
  lemma LostIffGap(s: System, step: Step)
    requires Inv(s) && Enabled(s, step)
    ensures Load(s.disk).Some? && Load(Apply(s, step).disk).None? <==> FallsInGap(s, step)
    ensures FallsInGap(s, step) ==>
              forall restart: Step :: restart.Start? && Enabled(Apply(s, step).(process := Down), restart) ==>
                Target(Apply(s, step).(process := Down), restart) == Some(IdentityPrepared(restart.identity))
  {
    if SaveEnabled(s, step) {
      CrashKeepsOldOrNew(s.disk, Target(s, step).value, step.io, step.stop);
      if !FallsInGap(s, step) {
        SaveOutcome(s, step);
      }
    }
  }

  const AllWell: Io := Io(true, true, true, true, true, true, true, true)

  lemma UndisturbedSave(disk: Files<AgentState>, state: AgentState)
    ensures Saved(disk, AllWell)
    ensures var trail := Trail(disk, state, AllWell);
            && trail[3] == Files(disk.main, Some(Whole(state)), None)
            && (disk.main.None? ==> |trail| == 6 && trail[5] == Files(Some(state), None, None))
            && (disk.main.Some? ==>
                  && |trail| == 7 && trail[4] == Files(None, Some(Whole(state)), disk.main)
                  && trail[6] == Files(Some(state), None, None))
  {
  }

  ghost predicate Leads(s: System, step: Step, t: System) {
    Enabled(s, step) && t == Apply(s, step)
  }

  /** A save that stops at the given point of an undisturbed trail. */
  lemma SaveLeads(s: System, step: Step, t: System)
    requires SaveEnabled(s, step) && Enabled(s, step) && (step.Start? ==> Load(s.disk).None?)
    requires var trail := Trail(s.disk, Target(s, step).value, step.io);
             && t.disk == trail[step.stop] && t.inFlight == s.inFlight && t.committed == s.committed
             && t.process == if step.stop == |trail| - 1 && Saved(s.disk, step.io) then
               Onward(s.process, Target(s, step).value) else Down
    ensures Leads(s, step, t)
  {
  }

  ghost predicate EndsIn(states: seq<System>, steps: seq<Step>, s: System) {
    Behaviour(states, steps) && states[|steps|] == s
  }

  ghost predicate Reachable(s: System) {
    exists states, steps :: EndsIn(states, steps, s)
  }

  lemma Extend(s: System, step: Step, t: System)
    requires Reachable(s) && Leads(s, step, t)
    ensures Reachable(t)
  {
    var states, steps :| EndsIn(states, steps, s);
    var longer, more := states + [t], steps + [step];
    forall i | 0 <= i < |more|
      ensures Enabled(longer[i], more[i]) && longer[i + 1] == Apply(longer[i], more[i])
    {
      if i < |steps| {
        assert longer[i] == states[i] && longer[i + 1] == states[i + 1] && more[i] == steps[i];
      }
    }
    assert EndsIn(longer, more, t);
  }

  /** The disk after a crash between setting the old file aside and installing the new one. */
  function Aside(pending: AgentState): Files<AgentState>
    requires pending.RegistrationPending?
  {
    Files(None, Some(Whole(RegisteredFromPending(pending))), Some(pending))
  }

  lemma ReachesPending(pending: AgentState)
    requires pending.RegistrationPending?
    ensures Reachable(System(Files(Some(pending), None, None), Committing(pending), {}, {}))
  {
    var prepared := IdentityPrepared(pending.identity);
    var disk := Files(Some(prepared), None, None);
    var s1 := System(disk, Holding(prepared), {}, {});
    var s2 := System(disk, Offered(prepared, pending), {}, {});
    var s3 := System(Files(Some(pending), None, None), Committing(pending), {}, {});
    assert Behaviour([Initial], []);
    assert EndsIn([Initial], [], Initial);
    UndisturbedSave(Initial.disk, prepared);
    SaveLeads(Initial, Start(pending.identity, AllWell, 5), s1);
    Extend(Initial, Start(pending.identity, AllWell, 5), s1);
    Extend(s1, Prepare(true, pending.agentId, pending.keys, pending.registrationId), s2);
    UndisturbedSave(disk, pending);
    SaveLeads(s2, SavePending(AllWell, 6), s3);
    Extend(s2, SavePending(AllWell, 6), s3);
  }

  lemma ReachesAside(pending: AgentState)
    requires pending.RegistrationPending?
    ensures Reachable(System(Aside(pending), Down, {RecordOf(pending)}, {RecordOf(pending)}))
  {
    ReachesPending(pending);
    var record := RecordOf(pending);
    var disk := Files(Some(pending), None, None);
    var s3 := System(disk, Committing(pending), {}, {});
    var s4 := System(disk, Awaiting(pending), {record}, {});
    var s5 := s4.(committed := {record});
    var s6 := System(Aside(pending), Down, {record}, {record});
    Extend(s3, SendCommit, s4);
    Extend(s4, ServerCommits(record), s5);
    UndisturbedSave(disk, RegisteredFromPending(pending));
    SaveLeads(s5, SaveRegistered(AllWell, 4), s6);
    Extend(s5, SaveRegistered(AllWell, 4), s6);
  }

  /** Two crashes are enough: one between setting the old file aside and installing the new one, and one
      after the recovering save has removed the backup. Whatever registration it was, the Server has
      committed it and the disk is empty. */
  lemma TwoCrashesForget(pending: AgentState)
    requires pending.RegistrationPending?
    ensures exists s :: Reachable(s) && RecordOf(pending) in s.committed && Load(s.disk).None?
  {
    ReachesAside(pending);
    var record := RecordOf(pending);
    var s6 := System(Aside(pending), Down, {record}, {record});
    var s7 := s6.(process := Holding(pending));
    var s8 := s6.(process := Authorized(pending));
    var s9 := s6.(disk := Aside(pending).(backup := None));
    Extend(s6, Start(pending.identity, AllWell, 0), s7);
    assert record in s7.committed;
    Extend(s7, ConnectPending, s8);
    UndisturbedSave(Aside(pending), RegisteredFromPending(pending));
    SaveLeads(s8, SaveRegistered(AllWell, 3), s9);
    Extend(s8, SaveRegistered(AllWell, 3), s9);
  }
}
