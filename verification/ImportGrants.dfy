/** What the controller and the endpoint know of grants: what they have read was a record at some time. */
module ImportGrants {
  import opened Domain
  import opened Revisions
  import opened RevisionInvariants
  import opened ControlPlane
  import opened ControlPlaneInvariants
  import opened IndexInvariants
  import opened NameInvariants
  import opened ControlPlaneTheorems
  import opened NameIdentity
  import opened SyncIndex
  import opened NameHistory
  import opened AgentSync
  import opened AgentSyncTheorems
  import opened AgentGrants
  import opened ImportController

  /** The grants that the agent's cycle has been read under. */
  ghost predicate AgentReads(w: World, a: Agent) {
    && (a.pending.Some? && a.pending.value.Asked? ==> RecordOk(w, a.pending.value.grant))
    && (a.cycle.Some? ==> EntriesOk(w, a.scope.environment, a.cycle.value.position.digest.secretGrants))
    && (a.completed.Some? ==> EntriesOk(w, a.scope.environment, a.completed.value.position.digest.secretGrants))
  }

  ghost predicate WorkReads(c: Controller) {
    c.pass.Some? && c.pass.value.work.Some? && c.pass.value.work.value.stage.Scoped? ==>
      var grant := c.pass.value.work.value.stage.grant;
      RecordOk(c.world, grant) && Newer(c.world, c.policy, c.agent.scope.consumer, grant)
  }

  ghost predicate GrantsInv(c: Controller) {
    && CreatesOk(c.world) && PolicyOk(c.world, c.policy)
    && (c.held.Some? ==> RecordOk(c.world, c.held.value))
    && AgentReads(c.world, c.saved) && AgentReads(c.world, c.agent) && WorkReads(c)
  }

  // ---------------------------------------------------------------- secrets no grant of the pass names

  /** No grant read in this pass names the secret. */
  ghost predicate Unnamed(c: Controller, uid: Id) {
    && (c.held.Some? ==> uid !in c.held.value.digest.secretGrants)
    && (c.agent.pending.Some? && c.agent.pending.value.Asked? ==> uid !in c.agent.pending.value.grant.digest.secretGrants)
    && (c.agent.cycle.Some? ==> uid !in c.agent.cycle.value.position.digest.secretGrants)
    && (c.agent.completed.Some? ==> uid !in c.agent.completed.value.position.digest.secretGrants)
  }

  /** The endpoint accepts a token only under the digest it was made for. */
  lemma AcceptedDigest(state: Option<SyncState>, query: Query, grant: AgentGrant, scope: Scope, clock: nat, now: nat)
    ensures var decision := Decide(state, query, grant, scope, clock, now);
            decision.Accepted? ==> decision.position.digest == grant.digest && grant.environment == scope.environment
  {
  }

  /** What one protocol step makes of the grants: those read before, or the one just asked under. */
  lemma NextReads(s: System, event: Event, timeout: nat)
    requires !event.Move?
    ensures var a, b := s.agent, Next(s, event, timeout).agent;
            && b.scope == a.scope
            && (b.pending.Some? && b.pending.value.Asked? ==>
                  (event.Ask? && b.pending.value.grant == event.grant)
                  || (a.pending.Some? && a.pending.value.Asked? && b.pending.value.grant == a.pending.value.grant))
            && (b.cycle.Some? ==>
                  (a.cycle.Some? && b.cycle.value.position.digest == a.cycle.value.position.digest)
                  || (a.pending.Some? && a.pending.value.Asked? && a.pending.value.grant.environment == a.scope.environment
                      && b.cycle.value.position.digest == a.pending.value.grant.digest))
            && (b.completed.Some? ==>
                  (a.completed.Some? && b.completed == a.completed)
                  || (a.cycle.Some? && b.completed.value.position.digest == a.cycle.value.position.digest))
  {
    hide Decide, IsPage, Changes, Absorb, Uids;
    if event.Check? && s.agent.pending.Some? && s.agent.pending.value.Asked? {
      var request := s.agent.pending.value;
      AcceptedDigest(request.state, request.query, request.grant, s.agent.scope, event.clock, s.world.now);
    }
  }

  lemma SynchronizeKeepsUnnamed(c: Controller, event: Event, timeout: nat, uid: Id)
    requires Unnamed(c, uid)
    ensures Unnamed(Act(c, Synchronize(event), timeout), uid)
  {
    hide Next;
    if !event.Move? { NextReads(System(c.world, c.agent), event, timeout); }
  }

  lemma SynchronizeKeepsGrants(c: Controller, event: Event, timeout: nat)
    requires GrantsInv(c)
    ensures GrantsInv(Act(c, Synchronize(event), timeout))
  {
    hide Next, EntriesOk, PolicyOk, CreatesOk, Newer;
    if !event.Move? { NextReads(System(c.world, c.agent), event, timeout); }
  }

  // ---------------------------------------------------------------- what every action keeps

  lemma AgentReadsMove(w: World, step: Step, a: Agent)
    requires Sound(w) && AgentReads(w, a)
    ensures AgentReads(Apply(w, step), a)
  {
    hide Sound, Apply, EntriesOk;
    if a.pending.Some? && a.pending.value.Asked? {
      StepKeepsEntries(w, step, a.pending.value.grant.environment, a.pending.value.grant.digest.secretGrants);
    }
    if a.cycle.Some? { StepKeepsEntries(w, step, a.scope.environment, a.cycle.value.position.digest.secretGrants); }
    if a.completed.Some? { StepKeepsEntries(w, step, a.scope.environment, a.completed.value.position.digest.secretGrants); }
  }

  lemma WriteKeepsGrants(c: Controller, step: Step, timeout: nat)
    requires Sound(c.world) && GrantsInv(c)
    ensures GrantsInv(Act(c, Write(step), timeout))
  {
    hide Sound, Apply, EntriesOk, PolicyOk, CreatesOk, Newer, AgentReads;
    var w := c.world;
    StepKeepsCreatesOk(w, step);
    StepKeepsPolicy(w, step, c.policy);
    AgentReadsMove(w, step, c.saved);
    AgentReadsMove(w, step, c.agent);
    if c.held.Some? { StepKeepsEntries(w, step, c.held.value.environment, c.held.value.digest.secretGrants); }
    if c.pass.Some? && c.pass.value.work.Some? && c.pass.value.work.value.stage.Scoped? {
      var grant := c.pass.value.work.value.stage.grant;
      StepKeepsEntries(w, step, grant.environment, grant.digest.secretGrants);
      StepKeepsNewer(w, step, c.policy, c.agent.scope.consumer, grant);
    }
  }

  lemma EditKeepsGrants(c: Controller, edit: PolicyStep, timeout: nat)
    requires Sound(c.world) && GrantsInv(c) && !Revives(c.world, c.policy, edit)
    ensures GrantsInv(Act(c, EditGrants(edit), timeout))
  {
    hide EntriesOk, PolicyOk, CreatesOk, Newer, AgentReads, CellsOk, IndexInv, NamesOk, PolicyNext, Revives;
    PolicyStepKeeps(c.world, c.policy, edit);
    if c.pass.Some? && c.pass.value.work.Some? && c.pass.value.work.value.stage.Scoped? {
      PolicyStepKeepsNewer(c.world, c.policy, edit, c.agent.scope.consumer, c.pass.value.work.value.stage.grant);
    }
  }

  lemma ReadKeepsGrants(c: Controller, action: Action, timeout: nat)
    requires GrantsInv(c) && (action.ReadGrant? || action.ReadScope?)
    ensures GrantsInv(Act(c, action, timeout))
  {
    hide EntriesOk, PolicyOk, CreatesOk, Newer, AgentReads;
    if RecordOf(c).Some? { RecordIsNewer(c.world, c.policy, c.agent.scope.consumer); }
  }

  /** Actions on the imports and targets, and the ends of passes. */
  lemma UserKeepsGrants(c: Controller, action: Action, timeout: nat)
    requires GrantsInv(c)
    requires action.CreateImport? || action.EditImport? || action.DeleteImport? || action.ChangeTarget? || action.AbortPass?
             || action.StartPass? || action.ConsumerFailed?
    ensures GrantsInv(Act(c, action, timeout))
  {
    hide EntriesOk, PolicyOk, CreatesOk, Newer;
  }

  /** Every stage but the one that reads the grant keeps or drops what is known. */
  lemma WorkKeepsGrants(c: Controller, action: Action, timeout: nat)
    requires GrantsInv(c) && (action.Consider? || action.Authorise? || action.Receive? || action.Materialise?)
    ensures GrantsInv(Act(c, action, timeout))
  {
    hide EntriesOk, PolicyOk, CreatesOk, Newer, Judge, ReadAllowed, LookupName, CanWrite, Written;
  }

  lemma ReportKeepsGrants(c: Controller, action: Action, timeout: nat)
    requires GrantsInv(c) && (action.Record? || action.Revoke? || action.Fail? || action.EndPass?)
    ensures GrantsInv(Act(c, action, timeout))
  {
    hide EntriesOk, PolicyOk, CreatesOk, Newer, Judge, ReadAllowed, LookupName, CanWrite, Written;
  }

  /** The other actions read no grant. */
  lemma OtherKeepsGrants(c: Controller, action: Action, timeout: nat)
    requires GrantsInv(c)
    requires !action.Write? && !action.EditGrants? && !action.ReadGrant? && !action.ReadScope? && !action.Synchronize?
    ensures GrantsInv(Act(c, action, timeout))
  {
    hide GrantsInv, Act;
    if action.Consider? || action.Authorise? || action.Receive? || action.Materialise? {
      WorkKeepsGrants(c, action, timeout);
    } else if action.Record? || action.Revoke? || action.Fail? || action.EndPass? {
      ReportKeepsGrants(c, action, timeout);
    } else {
      UserKeepsGrants(c, action, timeout);
    }
  }

  lemma ActKeepsGrants(c: Controller, action: Action, timeout: nat)
    requires Sound(c.world) && GrantsInv(c) && (action.EditGrants? ==> !Revives(c.world, c.policy, action.edit))
    ensures GrantsInv(Act(c, action, timeout))
  {
    hide Sound, GrantsInv, Act, Revives;
    match action
    case Write(step) => WriteKeepsGrants(c, step, timeout);
    case EditGrants(edit) => EditKeepsGrants(c, edit, timeout);
    case ReadGrant => ReadKeepsGrants(c, action, timeout);
    case ReadScope => ReadKeepsGrants(c, action, timeout);
    case Synchronize(event) => SynchronizeKeepsGrants(c, event, timeout);
    case _ => OtherKeepsGrants(c, action, timeout);
  }

  lemma InstalledGrants(before: seq<Step>, scope: Scope)
    ensures GrantsInv(Installed(before, scope))
  {
    GenesisSound();
    GenesisCreates();
    hide Sound, CreatesOk, Run;
    RunKeepsCreatesOk(Genesis, before);
  }

  // ---------------------------------------------------------------- the authorised secret

  /** The secret still has the name, or lost it in a publication above both frontiers. */
  ghost predicate Selectable(w: World, saved: Agent, agent: Agent, uid: Id, secretId: Name)
    requires agent.completed.Some?
  {
    && uid in w.cells && NameKey(w.cells[uid]) == (agent.scope.environment, secretId)
    && (Resolves(w, uid) || Above(w, uid, Limit(saved, agent)))
  }

  /** The grant check lets the selected secret through, or the selected secret is gone for good. */
  lemma AuthorisedSecret(c: Controller)
    requires Sound(c.world) && GrantsInv(c) && AuthoriseStep(c) != c
    requires GrantedUid(c.agent.completed.value.position.digest, c.pass.value.listed[c.pass.value.work.value.name].spec.secretId)
             == Some(c.pass.value.work.value.uid)
    ensures var work := c.pass.value.work.value;
            || Selectable(c.world, c.saved, c.agent, work.uid, c.pass.value.listed[work.name].spec.secretId)
            || Forsaken(c.world, c.policy, c.agent.scope.consumer, work.uid)
  {
    hide CellsOk, IndexInv, PendingCreate, CreatesOk, PolicyOk, Limit, Above;
    var work := c.pass.value.work.value;
    var secretId := c.pass.value.listed[work.name].spec.secretId;
    var found := LookupName(c.world, c.agent.scope.environment, secretId).value;
    SelectedIsNamed(c.world, c.agent.scope.environment, c.agent.completed.value.position.digest, secretId, work.uid);
    NamedIsSecret(c.world, c.agent.scope.environment, secretId);
    if found != work.uid { assert !InRecord(c.policy, c.agent.scope.consumer, work.uid); }
  }

  lemma NamedIsSecret(w: World, environment: Name, secretId: Name)
    requires NamesOk(w) && LookupName(w, environment, secretId).Some?
    ensures var uid := LookupName(w, environment, secretId).value;
            uid in w.cells && NameKey(w.cells[uid]) == (environment, secretId) && Resolves(w, uid)
  {
  }

  lemma SelectedIsNamed(w: World, environment: Name, digest: Digest, secretId: Name, uid: Id)
    requires EntriesOk(w, environment, digest.secretGrants) && GrantedUid(digest, secretId) == Some(uid)
    ensures uid in digest.secretGrants && NamesSecret(w, environment, uid, secretId)
  {
  }

  lemma AboveStays(w: World, v: World, environment: Name, lag: nat, uid: Id, frontier: nat)
    requires Evolves(w, v, environment, lag) && Above(w, uid, frontier) && w.cells[uid].environment == environment
    requires frontier <= CounterOf(w, environment)
    ensures Above(v, uid, frontier)
  {
    hide RowsEvolve;
    assert uid in v.cells;
    assert SecretEvolves(w, v, environment, lag, uid);
  }

  lemma NameLostAbove(w: World, step: Step, uid: Id, environment: Name, frontier: nat)
    requires Sound(w) && uid in w.cells && Resolves(w, uid)
    requires w.cells[uid].environment == environment && frontier <= CounterOf(w, environment)
    ensures Resolves(Apply(w, step), uid) || Above(Apply(w, step), uid, frontier)
  {
    hide Sound, Apply, Resolves;
    NameLostIsAbove(w, step, uid);
  }

  lemma SelectableStays(w: World, step: Step, saved: Agent, agent: Agent, uid: Id, secretId: Name, lag: nat)
    requires Sound(w) && agent.completed.Some? && Selectable(w, saved, agent, uid, secretId)
    requires Limit(saved, agent) <= CounterOf(w, agent.scope.environment)
    requires Evolves(w, Apply(w, step), agent.scope.environment, lag)
    ensures Selectable(Apply(w, step), saved, agent, uid, secretId)
  {
    hide CellsOk, NamesOk, IndexInv, Evolves, Apply, Resolves, Above, Limit, CounterOf;
    var environment := agent.scope.environment;
    KeptName(w, step, uid);
    if Resolves(w, uid) { NameLostAbove(w, step, uid, environment, Limit(saved, agent)); }
    else { AboveStays(w, Apply(w, step), environment, lag, uid, Limit(saved, agent)); }
  }
}
