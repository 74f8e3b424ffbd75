/** When the controller skips a fetch, what it has materialised is the server's current revision. */
module ImportControllerTheorems {
  import opened Domain
  import opened Revisions
  import opened RevisionInvariants
  import opened ControlPlane
  import opened ControlPlaneInvariants
  import opened IndexInvariants
  import opened NameInvariants
  import opened ControlPlaneTheorems
  import opened NameIdentity
  import opened SyncIndex
  import opened NameHistory
  import opened AgentSync
  import opened AgentSyncTheorems
  import opened AgentGrants
  import opened ImportController
  import opened ImportGrants

  // ---------------------------------------------------------------- the invariant

  /** The recorded version is the secret's current revision, unless the secret moved above the frontier. */
  ghost predicate StatusOk(w: World, environment: Name, digest: Digest, through: nat, status: Option<Status>) {
    status.Some? && status.value.secretUid.Some? && status.value.control.Some?
    && Published(w, status.value.secretUid.value, environment, digest)
    && Sequence(w, status.value.secretUid.value) <= through ==>
      status.value.control == Some(CurrentControl(w.cells[status.value.secretUid.value]).version)
  }

  /** The version is the selected secret's current one, if that secret's revision counts. */
  ghost predicate RemoteOk(w: World, saved: Agent, agent: Agent, uid: Id, control: Id)
    requires agent.completed.Some?
  {
    Counts(w, saved, agent, uid) ==> control == CurrentControl(w.cells[uid]).version
  }

  ghost predicate SavedOk(w: World, saved: Agent, status: Option<Status>) {
    saved.checkpoint.Some? ==>
      StatusOk(w, saved.scope.environment, saved.checkpoint.value.position.digest, saved.checkpoint.value.position.through, status)
  }

  ghost predicate DeltaStatusOk(w: World, agent: Agent, status: Option<Status>)
    requires agent.completed.Some?
  {
    StatusOk(w, agent.scope.environment, agent.completed.value.position.digest, agent.completed.value.position.through, status)
  }

  /** The recorded secret has lost its name, and the consumer's grant no longer names it. */
  ghost predicate Excused(c: Controller, consumer: Id, status: Option<Status>) {
    status.Some? && status.value.secretUid.Some? && Forsaken(c.world, c.policy, consumer, status.value.secretUid.value)
  }

  /** Unless the pass runs as another consumer, a status is right for the saved checkpoint, or will not be asked about. */
  ghost predicate SavedFine(c: Controller, status: Option<Status>) {
    c.agent.scope == c.saved.scope ==> SavedOk(c.world, c.saved, status) || Excused(c, c.saved.scope.consumer, status)
  }

  ghost predicate DeltaFine(c: Controller, status: Option<Status>)
    requires c.agent.completed.Some?
  {
    DeltaStatusOk(c.world, c.agent, status) || Excused(c, c.agent.scope.consumer, status)
  }

  /** As when the pass began: an excused secret is in no grant that this pass has read. */
  ghost predicate ListedFine(c: Controller, status: Option<Status>) {
    c.agent.scope == c.saved.scope ==>
      SavedOk(c.world, c.saved, status)
      || (Excused(c, c.saved.scope.consumer, status) && Unnamed(c, status.value.secretUid.value))
  }

  /** While synchronizing, the agent's checkpoint is the saved one or none. */
  ghost predicate LinkOk(c: Controller) {
    if c.agent.completed.None? then c.agent.checkpoint.Some? ==> c.agent.checkpoint == c.saved.checkpoint && c.agent.scope == c.saved.scope
    else
      && c.agent.cycle.None? && c.agent.pending.None? && c.agent.checkpoint.Some?
      && (!c.agent.completed.value.position.snapshot ==>
            c.agent.completed.value.base == c.saved.checkpoint && c.agent.scope == c.saved.scope)
  }

  /** What is known about the request in progress. */
  ghost predicate WorkOk(c: Controller, resource: Import, work: Work)
    requires c.agent.completed.Some?
  {
    && GrantedUid(c.agent.completed.value.position.digest, resource.spec.secretId) == Some(work.uid)
    && (work.ifNoneMatch.Some? ==>
          resource.status.Some? && resource.status.value.secretUid == Some(work.uid)
          && resource.status.value.control == work.ifNoneMatch)
    && (work.stage.Authorised? ==>
          Selectable(c.world, c.saved, c.agent, work.uid, resource.spec.secretId) || Gone(c, work.uid))
    && (work.stage.Received? || work.stage.Applied? ==>
          RemoteOk(c.world, c.saved, c.agent, work.uid, work.stage.remote.control) || Gone(c, work.uid))
  }

  ghost predicate Gone(c: Controller, uid: Id) {
    Forsaken(c.world, c.policy, c.agent.scope.consumer, uid)
  }

  ghost predicate PassOk(c: Controller) {
    c.pass.Some? ==>
      var pass := c.pass.value;
      && pass.todo <= pass.listed.Keys
      && (forall name :: name in pass.todo ==> ListedFine(c, pass.listed[name].status))
      && (pass.ready ==> LinkOk(c))
      && (pass.work.Some? ==> Reconciling(c) && pass.work.value.name in pass.todo)
      && (Reconciling(c) ==>
            && (forall name :: name in c.imports && name !in pass.todo ==> DeltaFine(c, c.imports[name].status))
            && (forall name :: name in c.imports && name in pass.todo ==>
                  c.imports[name].status == pass.listed[name].status || DeltaFine(c, c.imports[name].status))
            && (pass.work.Some? ==> WorkOk(c, pass.listed[pass.work.value.name], pass.work.value)))
      && (pass.ready && c.agent.completed.None? ==>
            && pass.work.None?
            && (forall name :: name in c.imports ==>
                  c.imports[name].status.None? || c.imports[name].status.value.control.None?
                  || (name in pass.todo && c.imports[name].status == pass.listed[name].status)))
  }

  ghost predicate ControllerInv(c: Controller, timeout: nat, lag: nat) {
    && c.saved.completed.None? && c.saved.cycle.None? && c.saved.pending.None?
    && SyncInv(System(c.world, c.saved), timeout, lag)
    && SyncInv(System(c.world, c.agent), timeout, lag)
    && (forall name :: name in c.imports ==> SavedFine(c, c.imports[name].status))
    && PassOk(c)
  }

  // ---------------------------------------------------------------- writes

  lemma StatusMoves(w: World, v: World, scope: Scope, digest: Digest, through: nat, status: Option<Status>, lag: nat)
    requires StatusOk(w, scope.environment, digest, through, status) && Evolves(w, v, scope.environment, lag)
    requires through <= CounterOf(w, scope.environment)
    ensures StatusOk(v, scope.environment, digest, through, status)
  {
    hide Evolves, Selected;
    if status.Some? && status.value.secretUid.Some? {
      var uid := status.value.secretUid.value;
      if Published(v, uid, scope.environment, digest) && Sequence(v, uid) <= through { PublishedBefore(w, v, scope, digest, lag, uid); }
    }
  }

  lemma BelowMoves(w: World, v: World, environment: Name, frontier: nat, uid: Id, lag: nat)
    requires Evolves(w, v, environment, lag) && frontier <= CounterOf(w, environment) && Below(v, environment, uid, frontier)
    ensures Below(w, environment, uid, frontier) && CurrentControl(w.cells[uid]) == CurrentControl(v.cells[uid])
  {
    hide RowsEvolve, CounterEvolves;
    assert SecretEvolves(w, v, environment, lag, uid);
  }

  lemma RemoteMoves(w: World, v: World, saved: Agent, agent: Agent, uid: Id, control: Id, lag: nat)
    requires agent.completed.Some? && RemoteOk(w, saved, agent, uid, control)
    requires Evolves(w, v, agent.scope.environment, lag) && Limit(saved, agent) <= CounterOf(w, agent.scope.environment)
    ensures RemoteOk(v, saved, agent, uid, control)
  {
    hide Evolves, Below, Limit;
    if Counts(v, saved, agent, uid) { BelowMoves(w, v, agent.scope.environment, Limit(saved, agent), uid, lag); }
  }

  lemma Frontiers(w: World, a: Agent, timeout: nat, lag: nat)
    requires SyncInv(System(w, a), timeout, lag)
    ensures a.checkpoint.Some? ==> a.checkpoint.value.position.through <= CounterOf(w, a.scope.environment)
    ensures a.completed.Some? ==> a.completed.value.position.through <= CounterOf(w, a.scope.environment)
  {
    hide Sound, Covered, NotAhead, Converged, CycleOk, PendingOk, RowsEvolve, SecretsEvolve;
  }

  lemma SavedMoves(w: World, v: World, saved: Agent, status: Option<Status>, timeout: nat, lag: nat)
    requires SyncInv(System(w, saved), timeout, lag) && SavedOk(w, saved, status) && Evolves(w, v, saved.scope.environment, lag)
    ensures SavedOk(v, saved, status)
  {
    hide SyncInv, StatusOk, Evolves;
    Frontiers(w, saved, timeout, lag);
    if saved.checkpoint.Some? {
      StatusMoves(w, v, saved.scope, saved.checkpoint.value.position.digest, saved.checkpoint.value.position.through, status, lag);
    }
  }

  lemma DeltaStatusMoves(w: World, v: World, agent: Agent, status: Option<Status>, timeout: nat, lag: nat)
    requires SyncInv(System(w, agent), timeout, lag) && agent.completed.Some? && DeltaStatusOk(w, agent, status)
    requires Evolves(w, v, agent.scope.environment, lag)
    ensures DeltaStatusOk(v, agent, status)
  {
    hide SyncInv, StatusOk, Evolves;
    Frontiers(w, agent, timeout, lag);
    StatusMoves(w, v, agent.scope, agent.completed.value.position.digest, agent.completed.value.position.through, status, lag);
  }

  lemma LimitReached(w: World, saved: Agent, agent: Agent, timeout: nat, lag: nat)
    requires SyncInv(System(w, saved), timeout, lag) && SyncInv(System(w, agent), timeout, lag) && agent.completed.Some?
    ensures Limit(saved, agent) <= CounterOf(w, agent.scope.environment)
  {
    hide SyncInv, CounterOf;
    Frontiers(w, saved, timeout, lag);
    Frontiers(w, agent, timeout, lag);
  }

  lemma WorkMoves(c: Controller, step: Step, resource: Import, work: Work, timeout: nat, lag: nat)
    requires SyncInv(System(c.world, c.saved), timeout, lag) && SyncInv(System(c.world, c.agent), timeout, lag)
    requires c.agent.completed.Some? && WorkOk(c, resource, work) && StepLag(step) <= lag
    ensures WorkOk(c.(world := Apply(c.world, step)), resource, work)
  {
    hide SyncInv, RemoteOk, Evolves, GrantedUid, Apply, Selectable, Limit, Sound, Forsaken;
    LimitReached(c.world, c.saved, c.agent, timeout, lag);
    SyncIsSound(System(c.world, c.agent), timeout, lag);
    StepEvolves(c.world, step, c.agent.scope.environment, lag);
    if Gone(c, work.uid) {
      StepKeepsForsaken(c.world, step, c.policy, c.agent.scope.consumer, work.uid);
    } else if work.stage.Authorised? {
      SelectableStays(c.world, step, c.saved, c.agent, work.uid, resource.spec.secretId, lag);
    } else if work.stage.Received? || work.stage.Applied? {
      RemoteMoves(c.world, Apply(c.world, step), c.saved, c.agent, work.uid, work.stage.remote.control, lag);
    }
  }

  lemma ExcusedMoves(c: Controller, step: Step, consumer: Id, status: Option<Status>)
    requires Sound(c.world) && Excused(c, consumer, status)
    ensures Excused(c.(world := Apply(c.world, step)), consumer, status)
  {
    hide Sound, Apply, Forsaken;
    StepKeepsForsaken(c.world, step, c.policy, consumer, status.value.secretUid.value);
  }

  lemma StatusesMove(c: Controller, step: Step, status: Option<Status>, timeout: nat, lag: nat)
    requires SyncInv(System(c.world, c.saved), timeout, lag) && SyncInv(System(c.world, c.agent), timeout, lag) && StepLag(step) <= lag
    ensures var d := c.(world := Apply(c.world, step));
            && (SavedFine(c, status) ==> SavedFine(d, status)) && (ListedFine(c, status) ==> ListedFine(d, status))
            && (c.agent.completed.Some? && DeltaFine(c, status) ==> DeltaFine(d, status))
  {
    hide SyncInv, SavedOk, DeltaStatusOk, Evolves, Apply, Sound, Excused, Unnamed;
    var v := Apply(c.world, step);
    SyncIsSound(System(c.world, c.saved), timeout, lag);
    StepEvolves(c.world, step, c.saved.scope.environment, lag);
    StepEvolves(c.world, step, c.agent.scope.environment, lag);
    UnnamedWorld(c, v, status);
    if SavedOk(c.world, c.saved, status) { SavedMoves(c.world, v, c.saved, status, timeout, lag); }
    if Excused(c, c.saved.scope.consumer, status) { ExcusedMoves(c, step, c.saved.scope.consumer, status); }
    if c.agent.completed.Some? {
      if DeltaStatusOk(c.world, c.agent, status) { DeltaStatusMoves(c.world, v, c.agent, status, timeout, lag); }
      if Excused(c, c.agent.scope.consumer, status) { ExcusedMoves(c, step, c.agent.scope.consumer, status); }
    }
  }

  lemma UnnamedWorld(c: Controller, v: World, status: Option<Status>)
    ensures forall uid :: Unnamed(c, uid) ==> Unnamed(c.(world := v), uid)
    ensures forall consumer :: Excused(c, consumer, status) ==> status.Some? && status.value.secretUid.Some?
  {
  }

  lemma WriteKeeps(c: Controller, step: Step, timeout: nat, lag: nat)
    requires ControllerInv(c, timeout, lag) && StepLag(step) <= lag
    ensures ControllerInv(Act(c, Write(step), timeout), timeout, lag)
  {
    hide SyncInv, SavedFine, ListedFine, DeltaFine, WorkOk, Apply;
    var d, v := Act(c, Write(step), timeout), Apply(c.world, step);
    assert Next(System(c.world, c.saved), Move(step), timeout) == System(v, c.saved);
    assert Next(System(c.world, c.agent), Move(step), timeout) == System(v, c.agent);
    MoveKeeps(System(c.world, c.saved), step, timeout, lag);
    MoveKeeps(System(c.world, c.agent), step, timeout, lag);
    forall status
      ensures (SavedFine(c, status) ==> SavedFine(d, status)) && (ListedFine(c, status) ==> ListedFine(d, status))
      ensures c.agent.completed.Some? && DeltaFine(c, status) ==> DeltaFine(d, status)
    {
      StatusesMove(c, step, status, timeout, lag);
    }
    if Reconciling(c) && c.pass.value.work.Some? {
      WorkMoves(c, step, c.pass.value.listed[c.pass.value.work.value.name], c.pass.value.work.value, timeout, lag);
    }
  }

  // ---------------------------------------------------------------- grant edits

  lemma ExcusedStays(c: Controller, edit: PolicyStep, consumer: Id, status: Option<Status>)
    requires Excused(c, consumer, status) && !Revives(c.world, c.policy, edit)
    ensures Excused(c.(policy := PolicyNext(c.policy, c.world, edit)), consumer, status)
  {
    hide Forsaken, PolicyNext, Revives;
    PolicyStepKeepsForsaken(c.world, c.policy, edit, consumer, status.value.secretUid.value);
  }

  lemma EditKeeps(c: Controller, edit: PolicyStep, timeout: nat, lag: nat)
    requires ControllerInv(c, timeout, lag) && !Revives(c.world, c.policy, edit)
    ensures ControllerInv(Act(c, EditGrants(edit), timeout), timeout, lag)
  {
    hide SyncInv, SavedOk, DeltaStatusOk, Excused, PolicyNext, Revives, Unnamed, WorkOk;
    var d := Act(c, EditGrants(edit), timeout);
    forall status
      ensures (SavedFine(c, status) ==> SavedFine(d, status)) && (ListedFine(c, status) ==> ListedFine(d, status))
      ensures c.agent.completed.Some? && DeltaFine(c, status) ==> DeltaFine(d, status)
    {
      StatusesEdited(c, edit, status);
    }
    if Reconciling(c) && c.pass.value.work.Some? {
      WorkEdited(c, edit, c.pass.value.listed[c.pass.value.work.value.name], c.pass.value.work.value);
    }
    hide SavedFine, ListedFine, DeltaFine;
  }

  lemma StatusesEdited(c: Controller, edit: PolicyStep, status: Option<Status>)
    requires !Revives(c.world, c.policy, edit)
    ensures var d := c.(policy := PolicyNext(c.policy, c.world, edit));
            && (SavedFine(c, status) ==> SavedFine(d, status)) && (ListedFine(c, status) ==> ListedFine(d, status))
            && (c.agent.completed.Some? && DeltaFine(c, status) ==> DeltaFine(d, status))
  {
    hide SavedOk, DeltaStatusOk, Excused, PolicyNext, Revives;
    UnnamedWorld(c, c.world, status);
    if Excused(c, c.saved.scope.consumer, status) { ExcusedStays(c, edit, c.saved.scope.consumer, status); }
    if Excused(c, c.agent.scope.consumer, status) { ExcusedStays(c, edit, c.agent.scope.consumer, status); }
  }

  lemma WorkEdited(c: Controller, edit: PolicyStep, resource: Import, work: Work)
    requires !Revives(c.world, c.policy, edit) && c.agent.completed.Some? && WorkOk(c, resource, work)
    ensures WorkOk(c.(policy := PolicyNext(c.policy, c.world, edit)), resource, work)
  {
    hide Forsaken, PolicyNext, Revives, Selectable, RemoteOk, GrantedUid;
    if Gone(c, work.uid) { PolicyStepKeepsForsaken(c.world, c.policy, edit, c.agent.scope.consumer, work.uid); }
  }

  /** Reading the record adds no excused secret to what the pass has read. */
  lemma ReadGrantKeeps(c: Controller, timeout: nat, lag: nat)
    requires ControllerInv(c, timeout, lag)
    ensures ControllerInv(Act(c, ReadGrant, timeout), timeout, lag)
  {
    hide SyncInv, SavedOk, DeltaStatusOk, WorkOk, Spent;
    var d := Act(c, ReadGrant, timeout);
    forall status
      ensures (SavedFine(c, status) ==> SavedFine(d, status)) && (ListedFine(c, status) ==> ListedFine(d, status))
    {
    }
    hide SavedFine, ListedFine, DeltaFine;
  }

  lemma SyncIsSound(s: System, timeout: nat, lag: nat)
    requires SyncInv(s, timeout, lag)
    ensures Sound(s.world)
  {
    hide Sound, CheckpointOk, CycleOk, PendingOk, DeltaOk;
  }

  // ---------------------------------------------------------------- users, and the start and end of a pass

  lemma UserKeeps(c: Controller, action: Action, timeout: nat, lag: nat)
    requires ControllerInv(c, timeout, lag)
    requires action.CreateImport? || action.EditImport? || action.DeleteImport? || action.ChangeTarget? || action.AbortPass?
    ensures ControllerInv(Act(c, action, timeout), timeout, lag)
  {
    hide SyncInv, PassOk, SavedFine;
    ClearedIsFine(c, None);
    UserFrame(c, action, timeout);
    SameRecords(c, Act(c, action, timeout));
    PassStays(c, Act(c, action, timeout));
  }

  /** A user moves imports or targets; an import starts without a status and keeps the one it has. */
  lemma UserFrame(c: Controller, action: Action, timeout: nat)
    requires action.CreateImport? || action.EditImport? || action.DeleteImport? || action.ChangeTarget? || action.AbortPass?
    ensures var d := Act(c, action, timeout);
            && d == c.(imports := d.imports, targets := d.targets, pass := d.pass) && (d.pass == c.pass || d.pass.None?)
            && (forall name :: name in d.imports ==>
                  if name in c.imports then d.imports[name].status == c.imports[name].status else d.imports[name].status.None?)
  {
  }

  lemma PassStays(c: Controller, d: Controller)
    requires PassOk(c) && d == c.(imports := d.imports, targets := d.targets, pass := d.pass) && (d.pass == c.pass || d.pass.None?)
    requires forall name :: name in d.imports ==>
               if name in c.imports then d.imports[name].status == c.imports[name].status else d.imports[name].status.None?
    ensures PassOk(d)
  {
    ClearedIsFine(c, None);
    SameRecords(c, d);
    hide WorkOk, SavedFine, ListedFine, DeltaFine;
  }

  lemma BlankOk(w: World, scope: Scope, timeout: nat, lag: nat)
    requires Sound(w)
    ensures SyncInv(System(w, Blank(scope)), timeout, lag)
  {
    hide Sound;
  }

  lemma StartKeeps(c: Controller, identity: Option<Scope>, timeout: nat, lag: nat)
    requires ControllerInv(c, timeout, lag) && !Restores(c, StartPass(identity))
    ensures ControllerInv(Act(c, StartPass(identity), timeout), timeout, lag)
  {
    hide SyncInv, DeltaStatusOk, StatusOk, Forsaken;
    SyncIsSound(System(c.world, c.saved), timeout, lag);
    if identity.Some? { BlankOk(c.world, identity.value, timeout, lag); }
  }

  lemma ConsumerFailedKeeps(c: Controller, timeout: nat, lag: nat)
    requires ControllerInv(c, timeout, lag)
    ensures ControllerInv(Act(c, ConsumerFailed, timeout), timeout, lag)
  {
    hide SyncInv, StatusOk, DeltaStatusOk, Excused;
    SyncIsSound(System(c.world, c.saved), timeout, lag);
    BlankOk(c.world, c.saved.scope, timeout, lag);
  }

  lemma EndPassKeeps(c: Controller, timeout: nat, lag: nat)
    requires ControllerInv(c, timeout, lag)
    ensures ControllerInv(Act(c, EndPass, timeout), timeout, lag)
  {
    hide SyncInv, StatusOk, WorkOk, Forsaken;
    SavedAgentOk(c.world, c.agent, timeout, lag);
  }

  lemma SavedAgentOk(w: World, a: Agent, timeout: nat, lag: nat)
    requires SyncInv(System(w, a), timeout, lag)
    ensures SyncInv(System(w, a.(completed := None, cycle := None, pending := None)), timeout, lag)
    ensures a.completed.Some? && a.checkpoint.Some? ==>
              a.checkpoint.value.position.through == a.completed.value.position.through
              && a.checkpoint.value.position.digest == a.completed.value.position.digest
  {
    hide Sound, Covered, NotAhead, Converged, Frontier;
  }

  // ---------------------------------------------------------------- synchronizing

  lemma SynchronizeKeeps(c: Controller, event: Event, timeout: nat, lag: nat)
    requires ControllerInv(c, timeout, lag) && Allowance(timeout, lag)
    ensures ControllerInv(Act(c, Synchronize(event), timeout), timeout, lag)
  {
    hide SyncInv, WorkOk, Next, Allowance, SavedOk, LinkOk, DeltaStatusOk, Excused, Unnamed;
    var d := Act(c, Synchronize(event), timeout);
    if d != c {
      EventKeeps(System(c.world, c.agent), event, timeout, lag);
      AgentOnly(System(c.world, c.agent), event, timeout);
      LinkKeeps(c, event, timeout, lag);
      assert System(d.world, d.agent) == Next(System(c.world, c.agent), event, timeout);
      forall status
        ensures (SavedFine(c, status) ==> SavedFine(d, status)) && (ListedFine(c, status) ==> ListedFine(d, status))
      {
        StatusesSynchronized(c, event, status, timeout);
      }
      forall name | name in c.imports && (c.imports[name].status.None? || c.imports[name].status.value.control.None?)
        ensures d.agent.completed.Some? ==> DeltaFine(d, c.imports[name].status)
      {
        ClearedIsFine(d, c.imports[name].status);
      }
      hide SavedFine, ListedFine, DeltaFine;
    }
  }

  lemma ClearedIsFine(c: Controller, status: Option<Status>)
    requires status.None? || status.value.control.None?
    ensures SavedFine(c, status) && (c.agent.completed.Some? ==> DeltaFine(c, status))
  {
    hide Excused, Published;
  }

  lemma StatusesSynchronized(c: Controller, event: Event, status: Option<Status>, timeout: nat)
    requires !event.Move?
    ensures var d := Act(c, Synchronize(event), timeout);
            (SavedFine(c, status) ==> SavedFine(d, status)) && (ListedFine(c, status) ==> ListedFine(d, status))
  {
    hide SavedOk, Next, Unnamed, Forsaken;
    AgentOnly(System(c.world, c.agent), event, timeout);
    NextReads(System(c.world, c.agent), event, timeout);
    if Excused(c, c.saved.scope.consumer, status) && Unnamed(c, status.value.secretUid.value) {
      SynchronizeKeepsUnnamed(c, event, timeout, status.value.secretUid.value);
    }
  }

  lemma AgentOnly(s: System, event: Event, timeout: nat)
    requires !event.Move?
    ensures Next(s, event, timeout).world == s.world
  {
    hide Decide, IsPage, Respond;
  }

  lemma LinkKeeps(c: Controller, event: Event, timeout: nat, lag: nat)
    requires LinkOk(c) && c.agent.completed.None? && !event.Move?
    requires SyncInv(Next(System(c.world, c.agent), event, timeout), timeout, lag)
    ensures LinkOk(c.(agent := Next(System(c.world, c.agent), event, timeout).agent))
  {
    hide Sound, Covered, NotAhead, Converged, Frontier, IsPage, CheckpointOk, CycleOk, PendingOk;
  }

  // ---------------------------------------------------------------- reconciling one import

  /** A cycle's answer for a secret at or below its frontier: its current entry, or nothing newer than its base. */
  lemma DeltaIsCurrent(w: World, a: Agent, uid: Id, timeout: nat, lag: nat)
    requires SyncInv(System(w, a), timeout, lag) && a.completed.Some?
    requires Published(w, uid, a.scope.environment, a.completed.value.position.digest)
    requires Sequence(w, uid) <= a.completed.value.position.through
    ensures var delta := a.completed.value;
            if uid in delta.entries then delta.entries[uid].control == CurrentControl(w.cells[uid]).version
            else !delta.position.snapshot ==>
                   delta.base.Some? && delta.base.value.position.digest == delta.position.digest
                   && Sequence(w, uid) <= delta.base.value.position.through
  {
    hide Sound, Evolves, CycleOk, CheckpointOk, PendingOk, Frontier;
  }

  /** The verdict to keep a copy is right whenever the cycle speaks for the secret's current revision. */
  lemma KeptIsCurrent(c: Controller, name: Name, timeout: nat, lag: nat)
    requires ControllerInv(c, timeout, lag) && Reconciling(c) && name in c.pass.value.todo
    requires Judge(name, c.pass.value.listed[name], c.targets, c.agent.completed.value).Keep?
    ensures var resource := c.pass.value.listed[name];
            var uid := Judge(name, resource, c.targets, c.agent.completed.value).uid;
            && DeltaStatusOk(c.world, c.agent, resource.status)
            && resource.status.Some? && resource.status.value.secretUid == Some(uid) && resource.status.value.control.Some?
            && resource.spec.target in c.targets && c.targets[resource.spec.target].control == resource.status.value.control
            && c.targets[resource.spec.target].secretUid == Some(uid) && c.targets[resource.spec.target].owner == Some(name)
            && GrantedUid(c.agent.completed.value.position.digest, resource.spec.secretId) == Some(uid)
  {
    hide SyncInv, Selected, GrantedUid;
    var resource := c.pass.value.listed[name];
    var delta := c.agent.completed.value;
    var uid := Judge(name, resource, c.targets, delta).uid;
    if Published(c.world, uid, c.agent.scope.environment, delta.position.digest) && Sequence(c.world, uid) <= delta.position.through {
      DeltaIsCurrent(c.world, c.agent, uid, timeout, lag);
      GrantedIsSelected(delta.position.digest, resource.spec.secretId, uid);
      assert ListedFine(c, resource.status);
    }
  }

  lemma GrantedIsSelected(digest: Digest, secretId: Name, uid: Id)
    requires GrantedUid(digest, secretId) == Some(uid)
    ensures uid in digest.secretGrants
  {
  }

  /** One import leaves the to-do list with a status that is right for the new frontier. */
  lemma FinishKeeps(c: Controller, name: Name, imports: map<Name, Import>, targets: map<Name, Target>, failed: bool, timeout: nat, lag: nat)
    requires ControllerInv(c, timeout, lag) && Reconciling(c) && name in c.pass.value.todo
    requires imports.Keys == c.imports.Keys && (forall n :: n in imports && n != name ==> imports[n] == c.imports[n])
    requires name in imports ==> SavedFine(c, imports[name].status) && DeltaFine(c, imports[name].status)
    ensures ControllerInv(c.(imports := imports, targets := targets, pass := Some(Finish(c.pass.value, name, failed))), timeout, lag)
  {
    hide SyncInv, StatusOk, WorkOk, SavedOk, Excused, Unnamed, Forsaken;
    var d := c.(imports := imports, targets := targets, pass := Some(Finish(c.pass.value, name, failed)));
    SameRecords(c, d);
    hide SavedFine, ListedFine, DeltaFine;
  }

  /** The judgements about statuses read neither imports, targets nor the pass. */
  lemma SameRecords(c: Controller, d: Controller)
    requires d == c.(imports := d.imports, targets := d.targets, pass := d.pass)
    ensures forall status :: SavedFine(d, status) == SavedFine(c, status) && ListedFine(d, status) == ListedFine(c, status)
    ensures c.agent.completed.Some? ==> forall status :: DeltaFine(d, status) == DeltaFine(c, status)
    ensures c.agent.completed.Some? ==> forall resource, work :: WorkOk(d, resource, work) == WorkOk(c, resource, work)
  {
    hide SavedOk, DeltaStatusOk, Forsaken, Selectable, RemoteOk, GrantedUid;
  }

  lemma ConsiderKeeps(c: Controller, name: Name, timeout: nat, lag: nat)
    requires ControllerInv(c, timeout, lag)
    ensures ControllerInv(Act(c, Consider(name), timeout), timeout, lag)
  {
    hide SyncInv, StatusOk, SavedOk, GrantedUid, Excused, Unnamed, Forsaken, DeltaStatusOk;
    if Reconciling(c) && c.pass.value.work.None? && name in c.pass.value.todo && name in c.pass.value.listed {
      var resource := c.pass.value.listed[name];
      match Judge(name, resource, c.targets, c.agent.completed.value)
      case Keep(_) =>
        KeptIsCurrent(c, name, timeout, lag);
        FinishKeeps(c, name, c.imports, c.targets, false, timeout, lag);
      case Fetch(uid, ifNoneMatch) =>
        SameRecords(c, ConsiderStep(c, name));
        RequestedWork(c, name, uid, ifNoneMatch);
        hide SavedFine, ListedFine, DeltaFine;
      case Deny =>
    }
  }

  lemma RequestedWork(c: Controller, name: Name, uid: Id, ifNoneMatch: Option<Id>)
    requires Reconciling(c) && name in c.pass.value.listed
    requires Judge(name, c.pass.value.listed[name], c.targets, c.agent.completed.value) == Fetch(uid, ifNoneMatch)
    ensures WorkOk(c, c.pass.value.listed[name], Work(name, uid, ifNoneMatch, FetchStage.Requested))
  {
    hide GrantedUid;
  }

  /** The work item moves on, and what is known about it still holds. */
  lemma WorkKeeps(c: Controller, stage: FetchStage, targets: map<Name, Target>, timeout: nat, lag: nat)
    requires ControllerInv(c, timeout, lag) && Working(c)
    requires WorkOk(c, c.pass.value.listed[c.pass.value.work.value.name], c.pass.value.work.value.(stage := stage))
    ensures ControllerInv(c.(targets := targets, pass := Some(c.pass.value.(work := Some(c.pass.value.work.value.(stage := stage))))), timeout, lag)
  {
    hide SyncInv, StatusOk, SavedOk, WorkOk, SavedFine, ListedFine, DeltaFine;
    SameRecords(c, c.(targets := targets, pass := Some(c.pass.value.(work := Some(c.pass.value.work.value.(stage := stage))))));
  }

  lemma ReadScopeKeeps(c: Controller, timeout: nat, lag: nat)
    requires ControllerInv(c, timeout, lag)
    ensures ControllerInv(Act(c, ReadScope, timeout), timeout, lag)
  {
    hide SyncInv, StatusOk, SavedOk, GrantedUid, SavedFine, ListedFine, DeltaFine, Selectable, Gone;
    if Act(c, ReadScope, timeout) != c { WorkKeeps(c, Scoped(RecordOf(c).value), c.targets, timeout, lag); }
  }

  lemma AuthoriseKeeps(c: Controller, timeout: nat, lag: nat)
    requires ControllerInv(c, timeout, lag) && GrantsInv(c)
    ensures ControllerInv(Act(c, Authorise, timeout), timeout, lag)
  {
    hide SyncInv, StatusOk, SavedOk, GrantedUid, LookupName, SavedFine, ListedFine, DeltaFine, Selectable, Forsaken, GrantsInv, Sound;
    SyncIsSound(System(c.world, c.saved), timeout, lag);
    if Act(c, Authorise, timeout) != c {
      AuthorisedSecret(c);
      WorkKeeps(c, Authorised, c.targets, timeout, lag);
    }
  }

  lemma ReadIsCurrent(w: World, uid: Id)
    requires CellsOk(w) && uid in w.cells
    ensures w.cells[uid].head.Some? && w.cells[uid].head.value.state == Active ==>
              |w.cells[uid].log| > 0 && w.cells[uid].head.value.control == CurrentControl(w.cells[uid]).version
  {
    CellFacts(w, uid);
    hide CellsOk;
  }

  /** What the fetch returns is current where that counts, or the selected secret is gone for good. */
  lemma ReceivedIsCurrent(c: Controller, resource: Import)
    requires CellsOk(c.world) && Fetched(c).Some? && WorkOk(c, resource, c.pass.value.work.value)
    requires resource == c.pass.value.listed[c.pass.value.work.value.name]
    ensures var uid := c.pass.value.work.value.uid;
            RemoteOk(c.world, c.saved, c.agent, uid, c.world.cells[Fetched(c).value].head.value.control) || Gone(c, uid)
  {
    hide CellsOk, Gone, GrantedUid, Limit;
    ReadIsCurrent(c.world, Fetched(c).value);
  }

  /** A version that is current where it counts is right for both frontiers. */
  lemma RemoteStatus(c: Controller, status: Status, uid: Id, control: Id)
    requires c.agent.completed.Some?
    requires RemoteOk(c.world, c.saved, c.agent, uid, control) || Gone(c, uid)
    requires status.secretUid == Some(uid) && status.control == Some(control)
    ensures SavedFine(c, Some(status)) && DeltaFine(c, Some(status))
  {
    hide Selected, Forsaken;
  }

  lemma ReceiveIsStep(c: Controller, timeout: nat)
    ensures Act(c, Receive, timeout) == ReceiveStep(c)
  {
    hide ReceiveStep;
  }

  lemma ReceiveFacts(c: Controller, timeout: nat, lag: nat)
    requires ControllerInv(c, timeout, lag) && ReceiveStep(c) != c
    ensures Fetched(c).Some? && c.agent.completed.Some? && Reconciling(c) && c.pass.value.work.value.name in c.pass.value.todo
    ensures var work := c.pass.value.work.value;
            && WorkOk(c, c.pass.value.listed[work.name], work)
            && (work.name in c.imports ==> SavedFine(c, c.imports[work.name].status)
                                           && (c.imports[work.name].status == c.pass.value.listed[work.name].status || DeltaFine(c, c.imports[work.name].status)))
            && (RemoteOk(c.world, c.saved, c.agent, work.uid, c.world.cells[Fetched(c).value].head.value.control) || Gone(c, work.uid))
  {
    hide SyncInv, Sound, WorkOk, LookupName, RemoteOk, ReadAllowed, SavedFine, ListedFine, DeltaFine, Selectable, Gone;
    SyncIsSound(System(c.world, c.saved), timeout, lag);
    SoundCells(c.world);
    ReceiveFetches(c);
    ReceivedIsCurrent(c, c.pass.value.listed[c.pass.value.work.value.name]);
  }

  lemma ReceiveKeeps(c: Controller, timeout: nat, lag: nat)
    requires ControllerInv(c, timeout, lag)
    ensures ControllerInv(Act(c, Receive, timeout), timeout, lag)
  {
    hide Act, ControllerInv, GrantedUid, LookupName, RemoteOk, ReadAllowed, SavedFine, ListedFine, DeltaFine, Selectable, Gone;
    ReceiveIsStep(c, timeout);
    var d := ReceiveStep(c);
    if d != c {
      var work := c.pass.value.work.value;
      ReceiveFacts(c, timeout, lag);
      if d.pass.value.work.None? {
        RemoteStatus(c, c.pass.value.listed[work.name].status.value, work.uid, work.ifNoneMatch.value);
        FinishKeeps(c, work.name, c.imports, c.targets, false, timeout, lag);
      } else {
        WorkKeeps(c, d.pass.value.work.value.stage, c.targets, timeout, lag);
      }
    }
  }

  lemma ReceiveFetches(c: Controller)
    requires ReceiveStep(c) != c
    ensures Fetched(c).Some?
  {
  }

  lemma SoundCells(w: World)
    requires Sound(w)
    ensures CellsOk(w)
  {
    hide CellsOk, NamesOk, IndexInv;
  }

  lemma MaterialiseKeeps(c: Controller, timeout: nat, lag: nat)
    requires ControllerInv(c, timeout, lag)
    ensures ControllerInv(Act(c, Materialise, timeout), timeout, lag)
  {
    hide SyncInv, StatusOk, SavedOk, GrantedUid, RemoteOk, SavedFine, ListedFine, DeltaFine, Gone;
    var d := Act(c, Materialise, timeout);
    if d != c { WorkKeeps(c, d.pass.value.work.value.stage, d.targets, timeout, lag); }
  }

  /** A status write that is right for both frontiers. */
  lemma StatusWritten(c: Controller, name: Name, status: Status, patched: bool, timeout: nat, lag: nat)
    requires ControllerInv(c, timeout, lag) && c.pass.Some? && name in c.pass.value.todo && CanWrite(c, name, status, patched)
    requires SavedFine(c, Some(status))
    requires Reconciling(c) ==> DeltaFine(c, Some(status))
    requires Syncing(c) ==> status.control.None?
    ensures ControllerInv(c.(imports := ImportController.Written(c.imports, name, status, patched)), timeout, lag)
    ensures name in ImportController.Written(c.imports, name, status, patched) && Reconciling(c) ==>
              DeltaFine(c, ImportController.Written(c.imports, name, status, patched)[name].status)
  {
    hide SyncInv, StatusOk, SavedOk, WorkOk, SavedFine, ListedFine, DeltaFine;
    SameRecords(c, c.(imports := ImportController.Written(c.imports, name, status, patched)));
  }

  lemma RecordKeeps(c: Controller, patched: bool, reported: bool, timeout: nat, lag: nat)
    requires ControllerInv(c, timeout, lag)
    ensures ControllerInv(Act(c, Record(patched, reported), timeout), timeout, lag)
  {
    hide SyncInv, StatusOk, SavedOk, GrantedUid, RemoteOk, SavedFine, ListedFine, DeltaFine, Gone;
    var d := Act(c, Record(patched, reported), timeout);
    if d != c {
      var work := c.pass.value.work.value;
      var status := Status(c.pass.value.listed[work.name].generation, Some(work.uid), Some(work.stage.remote.control), work.stage.remote.payload);
      RemoteStatus(c, status, work.uid, work.stage.remote.control);
      StatusWritten(c, work.name, status, patched, timeout, lag);
      var written := c.(imports := ImportController.Written(c.imports, work.name, status, patched));
      SameRecords(c, written);
      if reported { FinishKeeps(written, work.name, written.imports, c.targets, false, timeout, lag); }
    }
  }

  lemma ClearKeeps(c: Controller, action: Action, timeout: nat, lag: nat)
    requires ControllerInv(c, timeout, lag) && (action.Revoke? || action.Fail?)
    ensures ControllerInv(Act(c, action, timeout), timeout, lag)
  {
    hide SyncInv, Published, WorkOk, SavedFine, ListedFine, DeltaFine;
    var d := Act(c, action, timeout);
    if d != c {
      var status := Cleared(c.pass.value.listed[action.name].generation);
      ClearedIsFine(c, Some(status));
      StatusWritten(c, action.name, status, action.patched, timeout, lag);
      var written := c.(imports := ImportController.Written(c.imports, action.name, status, action.patched));
      SameRecords(c, written);
      if Reconciling(c) { FinishKeeps(written, action.name, written.imports, d.targets, action.Fail?, timeout, lag); }
      else { FinishedElsewhere(written, action.name, d.targets, action.Fail?, timeout, lag); }
    }
  }

  /** One import leaves the to-do list of a pass that is not reconciling. */
  lemma FinishedElsewhere(c: Controller, name: Name, targets: map<Name, Target>, failed: bool, timeout: nat, lag: nat)
    requires ControllerInv(c, timeout, lag) && c.pass.Some? && !Reconciling(c) && name in c.pass.value.todo
    requires Syncing(c) && name in c.imports ==> c.imports[name].status.None? || c.imports[name].status.value.control.None?
    ensures ControllerInv(c.(targets := targets, pass := Some(Finish(c.pass.value, name, failed))), timeout, lag)
  {
    hide SyncInv, WorkOk, SavedFine, ListedFine, DeltaFine;
    SameRecords(c, c.(targets := targets, pass := Some(Finish(c.pass.value, name, failed))));
  }

  // ---------------------------------------------------------------- every run

  lemma ActKeeps(c: Controller, action: Action, timeout: nat, lag: nat)
    requires ControllerInv(c, timeout, lag) && GrantsInv(c) && Allowance(timeout, lag) && Regular(c, action, lag)
    ensures ControllerInv(Act(c, action, timeout), timeout, lag)
  {
    hide ControllerInv, GrantsInv, Act, Allowance, Revives, Restores;
    match action
    case Write(step) => WriteKeeps(c, step, timeout, lag);
    case EditGrants(edit) => EditKeeps(c, edit, timeout, lag);
    case StartPass(identity) => StartKeeps(c, identity, timeout, lag);
    case ReadGrant => ReadGrantKeeps(c, timeout, lag);
    case Synchronize(event) => SynchronizeKeeps(c, event, timeout, lag);
    case ConsumerFailed => ConsumerFailedKeeps(c, timeout, lag);
    case Consider(name) => ConsiderKeeps(c, name, timeout, lag);
    case ReadScope => ReadScopeKeeps(c, timeout, lag);
    case Authorise => AuthoriseKeeps(c, timeout, lag);
    case Receive => ReceiveKeeps(c, timeout, lag);
    case Materialise => MaterialiseKeeps(c, timeout, lag);
    case Record(patched, reported) => RecordKeeps(c, patched, reported, timeout, lag);
    case Revoke(_, _) => ClearKeeps(c, action, timeout, lag);
    case Fail(_, _) => ClearKeeps(c, action, timeout, lag);
    case EndPass => EndPassKeeps(c, timeout, lag);
    case _ => UserKeeps(c, action, timeout, lag);
  }

  lemma WorldIsSound(c: Controller, timeout: nat, lag: nat)
    requires ControllerInv(c, timeout, lag)
    ensures Sound(c.world)
  {
    hide SyncInv, PassOk, Sound;
    SyncIsSound(System(c.world, c.saved), timeout, lag);
  }

  lemma {:induction false} OperateKeeps(c: Controller, actions: seq<Action>, timeout: nat, lag: nat)
    requires ControllerInv(c, timeout, lag) && GrantsInv(c) && Allowance(timeout, lag) && Orderly(c, actions, timeout, lag)
    ensures ControllerInv(Operate(c, actions, timeout), timeout, lag) && GrantsInv(Operate(c, actions, timeout))
    decreases |actions|
  {
    hide ControllerInv, GrantsInv, Allowance, Act, Revives, Restores, ActionLag, Sound;
    if actions != [] {
      WorldIsSound(c, timeout, lag);
      ActKeeps(c, actions[0], timeout, lag);
      ActKeepsGrants(c, actions[0], timeout);
      OperateKeeps(Act(c, actions[0], timeout), actions[1..], timeout, lag);
    }
  }

  lemma InstalledOk(before: seq<Step>, scope: Scope, timeout: nat, lag: nat)
    ensures ControllerInv(Installed(before, scope), timeout, lag) && GrantsInv(Installed(before, scope))
  {
    GenesisSound();
    InstalledGrants(before, scope);
    hide Sound, SyncInv, GrantsInv;
    RunIsSound(Genesis, before);
    BlankOk(Run(Genesis, before), scope, timeout, lag);
  }

  // ---------------------------------------------------------------- main result

  /** The Secret that a pass leaves in place is owned, intact, and the granted secret's current revision where the pass can tell. */
  ghost predicate CopyIsCurrent(c: Controller, name: Name, uid: Id)
    requires Reconciling(c) && name in c.pass.value.listed
  {
    var spec := c.pass.value.listed[name].spec;
    var position := c.agent.completed.value.position;
    && GrantedUid(position.digest, spec.secretId) == Some(uid)
    && spec.target in c.targets && c.targets[spec.target].owner == Some(name)
    && c.targets[spec.target].secretUid == Some(uid) && c.targets[spec.target].data == c.targets[spec.target].checksum
    && (Published(c.world, uid, c.agent.scope.environment, position.digest) && Sequence(c.world, uid) <= position.through ==>
          c.targets[spec.target].control == Some(CurrentControl(c.world.cells[uid]).version))
  }

  lemma KeptCopyIsCurrent(c: Controller, name: Name, timeout: nat, lag: nat)
    requires ControllerInv(c, timeout, lag) && Reconciling(c) && name in c.pass.value.todo && name in c.pass.value.listed
    requires Judge(name, c.pass.value.listed[name], c.targets, c.agent.completed.value).Keep?
    ensures CopyIsCurrent(c, name, Judge(name, c.pass.value.listed[name], c.targets, c.agent.completed.value).uid)
  {
    hide SyncInv, GrantedUid, Selected, PassOk;
    KeptIsCurrent(c, name, timeout, lag);
  }

  /**
   * Whenever a pass leaves an import alone without fetching it, the Secret it leaves in place is owned,
   * intact and annotated with exactly the server's current control revision of the granted secret, if
   * that revision was published at or below the pass's frontier; over every run with grant edits at any
   * moment, failed passes, withheld checkpoints, lost replies, resets, snapshots, edited imports and
   * changed targets.
   */
  lemma SkippedImportsAreCurrent(before: seq<Step>, scope: Scope, actions: seq<Action>, timeout: nat, lag: nat, name: Name)
    requires Allowance(timeout, lag) && Orderly(Installed(before, scope), actions, timeout, lag)
    requires var c := Operate(Installed(before, scope), actions, timeout);
             Reconciling(c) && name in c.pass.value.todo && name in c.pass.value.listed
             && Judge(name, c.pass.value.listed[name], c.targets, c.agent.completed.value).Keep?
    ensures var c := Operate(Installed(before, scope), actions, timeout);
            CopyIsCurrent(c, name, Judge(name, c.pass.value.listed[name], c.targets, c.agent.completed.value).uid)
  {
    hide Operate, Orderly, ControllerInv, GrantsInv, Judge, CopyIsCurrent;
    InstalledOk(before, scope, timeout, lag);
    OperateKeeps(Installed(before, scope), actions, timeout, lag);
    KeptCopyIsCurrent(Operate(Installed(before, scope), actions, timeout), name, timeout, lag);
  }

  /**
   * The checkpoint a pass persists never outruns what its imports have recorded: a recorded version is the
   * secret's current one wherever the checkpoint speaks for it, unless the secret is gone for good.
   */
  lemma SavedCheckpointIsCovered(before: seq<Step>, scope: Scope, actions: seq<Action>, timeout: nat, lag: nat, name: Name)
    requires Allowance(timeout, lag) && Orderly(Installed(before, scope), actions, timeout, lag)
    requires name in Operate(Installed(before, scope), actions, timeout).imports
    requires var c := Operate(Installed(before, scope), actions, timeout); c.agent.scope == c.saved.scope
    ensures var c := Operate(Installed(before, scope), actions, timeout);
            var status := c.imports[name].status;
            SavedOk(c.world, c.saved, status)
            || (status.Some? && status.value.secretUid.Some?
                && Forsaken(c.world, c.policy, c.saved.scope.consumer, status.value.secretUid.value))
  {
    InstalledOk(before, scope, timeout, lag);
    OperateKeeps(Installed(before, scope), actions, timeout, lag);
    hide Operate, Orderly, SyncInv, SavedOk, PassOk, Forsaken, GrantsInv;
  }
}
