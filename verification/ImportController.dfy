/**
 * The Kubernetes controller as a client of the sync endpoint: one HemligConsumer, its persisted
 * checkpoint, and the imports it materialises. A pass lists the imports, synchronizes, reconciles each
 * import and persists the checkpoint; writers, administrators who edit grants, and cluster users act
 * between any two of its requests.
 */
module ImportController {
  import opened Domain
  import opened Revisions
  import opened ControlPlane
  import opened ControlPlaneTheorems
  import opened SyncIndex
  import opened NameIdentity
  import opened AgentSync
  import opened AgentGrants

  datatype Spec = Spec(secretId: Name, target: Name, kind: Name)

  datatype Status = Status(observed: nat, secretUid: Option<Id>, control: Option<Id>, payload: Option<Id>)

  datatype Import = Import(spec: Spec, generation: nat, status: Option<Status>)

  /** A materialised Secret with the controller's annotations; the data checksum is taken to be injective. */
  datatype Target = Target(
    owner: Option<Name>,
    kind: Name,
    secretUid: Option<Id>,
    control: Option<Id>,
    payload: Option<Id>,
    checksum: Option<Id>,
    data: Option<Id>)

  datatype Remote = Remote(control: Id, payload: Option<Id>)

  datatype FetchStage = Requested | Scoped(grant: AgentGrant) | Authorised | Received(remote: Remote) | Applied(remote: Remote)

  datatype Work = Work(name: Name, uid: Id, ifNoneMatch: Option<Id>, stage: FetchStage)

  datatype Pass = Pass(listed: map<Name, Import>, todo: set<Name>, ready: bool, failed: bool, work: Option<Work>)

  /**
   * `saved` is the checkpoint in the consumer's status, with the agent state it stands for; `held` is the
   * grant record that the sync endpoint has read for the request under way.
   */
  datatype Controller = Controller(
    world: World,
    policy: Policy,
    held: Option<AgentGrant>,
    saved: Agent,
    agent: Agent,
    imports: map<Name, Import>,
    targets: map<Name, Target>,
    pass: Option<Pass>)

  datatype Action =
    | Write(step: Step)
    | EditGrants(edit: PolicyStep)
    | CreateImport(name: Name, spec: Spec)
    | EditImport(name: Name, spec: Spec)
    | DeleteImport(name: Name)
    | ChangeTarget(name: Name, target: Option<Target>)
    | StartPass(identity: Option<Scope>)
    | ReadGrant
    | Synchronize(event: Event)
    | ConsumerFailed
    | Consider(name: Name)
    | ReadScope
    | Authorise
    | Receive
    | Materialise
    | Record(patched: bool, reported: bool)
    | Revoke(name: Name, patched: bool)
    | Fail(name: Name, patched: bool)
    | EndPass
    | AbortPass

  function Blank(scope: Scope): Agent {
    Agent(scope, None, map[], Genesis, None, None, None)
  }

  function Cleared(generation: nat): Status {
    Status(generation, None, None, None)
  }

  // ---------------------------------------------------------------- the decision about one import

  /** The grant's entry for the import's secret id; ids are distinct within a grant. */
  ghost function GrantedUid(digest: Digest, secretId: Name): Option<Id> {
    if exists uid :: uid in digest.secretGrants && digest.secretGrants[uid].secretId == secretId then
      var uid :| uid in digest.secretGrants && digest.secretGrants[uid].secretId == secretId;
      Some(uid)
    else None
  }

  /** The version that status and an intact, owned target both record for the secret. */
  function CurrentImportVersion(name: Name, resource: Import, uid: Id, targets: map<Name, Target>): Option<Id> {
    if resource.status.None? then None
    else
      var status := resource.status.value;
      if status.secretUid != Some(uid) || status.control.None? || status.payload.None? then None
      else if resource.spec.target !in targets then None
      else
        var current := targets[resource.spec.target];
        if current.owner != Some(name) || current.kind != resource.spec.kind || current.secretUid != Some(uid)
           || current.control != status.control || current.payload != status.payload || current.checksum != current.data
        then None
        else status.control
  }

  datatype Verdict = Keep(uid: Id) | Deny | Fetch(uid: Id, ifNoneMatch: Option<Id>)

  /** `reconcileImport` up to its request. */
  ghost function Judge(name: Name, resource: Import, targets: map<Name, Target>, delta: Delta): Verdict {
    var digest := delta.position.digest;
    var selected := GrantedUid(digest, resource.spec.secretId);
    if ReadPermission !in digest.capabilities || selected.None?
       || ReadPermission !in digest.secretGrants[selected.value].permissions then Deny
    else
      var uid := selected.value;
      if uid in delta.entries && ReadPermission !in delta.entries[uid].permissions then Deny
      else
        var local := CurrentImportVersion(name, resource, uid, targets);
        var currentGeneration := resource.status.Some? && resource.status.value.observed == resource.generation;
        if local.Some? && currentGeneration
           && ((uid in delta.entries && delta.entries[uid].control == local.value)
               || (uid !in delta.entries && !delta.position.snapshot)) then Keep(uid)
        else Fetch(uid, if currentGeneration then local else None)
  }

  // ---------------------------------------------------------------- a pass

  predicate Syncing(c: Controller) {
    c.pass.Some? && c.pass.value.ready && c.agent.completed.None?
  }

  predicate Reconciling(c: Controller) {
    c.pass.Some? && c.pass.value.ready && c.agent.completed.Some?
  }

  predicate Working(c: Controller) {
    Reconciling(c) && c.pass.value.work.Some? && c.pass.value.work.value.name in c.pass.value.listed
  }

  function Finish(pass: Pass, name: Name, failed: bool): Pass {
    pass.(todo := pass.todo - {name}, failed := pass.failed || failed,
          work := if pass.work.Some? && pass.work.value.name == name then None else pass.work)
  }

  /** The status patch; it is skipped when the listed status already says the same. */
  predicate CanWrite(c: Controller, name: Name, status: Status, patched: bool) {
    && c.pass.Some? && name in c.pass.value.listed
    && (if patched then name in c.imports else c.pass.value.listed[name].status == Some(status))
  }

  function Written(imports: map<Name, Import>, name: Name, status: Status, patched: bool): map<Name, Import>
    requires patched ==> name in imports
  {
    if patched then imports[name := imports[name].(status := Some(status))] else imports
  }

  ghost function ConsiderStep(c: Controller, name: Name): Controller {
    if !Reconciling(c) || c.pass.value.work.Some? || name !in c.pass.value.todo || name !in c.pass.value.listed then c
    else
      match Judge(name, c.pass.value.listed[name], c.targets, c.agent.completed.value)
      case Keep(_) => c.(pass := Some(Finish(c.pass.value, name, false)))
      case Fetch(uid, ifNoneMatch) => c.(pass := Some(c.pass.value.(work := Some(Work(name, uid, ifNoneMatch, Requested)))))
      case Deny => c
  }

  function RecordOf(c: Controller): Option<AgentGrant> {
    if c.agent.scope.consumer in c.policy.records then Some(c.policy.records[c.agent.scope.consumer]) else None
  }

  /** The agent API reads the caller's grant record, */
  function ReadScopeStep(c: Controller): Controller {
    if !Working(c) || !c.pass.value.work.value.stage.Requested? || RecordOf(c).None? then c
    else c.(pass := Some(c.pass.value.(work := Some(c.pass.value.work.value.(stage := Scoped(RecordOf(c).value))))))
  }

  /** and checks it against the secret the name resolves to. */
  function AuthoriseStep(c: Controller): Controller {
    if !Working(c) || !c.pass.value.work.value.stage.Scoped? then c
    else
      var work := c.pass.value.work.value;
      var grant := work.stage.grant;
      var found := LookupName(c.world, c.agent.scope.environment, c.pass.value.listed[work.name].spec.secretId);
      if grant.active && grant.environment == c.agent.scope.environment
         && ReadPermission in grant.digest.capabilities
         && found.Some? && found.value in grant.digest.secretGrants
         && ReadPermission in grant.digest.secretGrants[found.value].permissions
      then c.(pass := Some(c.pass.value.(work := Some(work.(stage := Authorised)))))
      else c
  }

  /** It then resolves the name once more and reads the head: unchanged, or a new revision. */
  function ReceiveStep(c: Controller): Controller {
    if !Working(c) || !c.pass.value.work.value.stage.Authorised? then c
    else
      var work := c.pass.value.work.value;
      var secretId := c.pass.value.listed[work.name].spec.secretId;
      var found := LookupName(c.world, c.agent.scope.environment, secretId);
      if ReadAllowed(c.world, found, c.agent.scope.consumer, c.agent.scope.environment, secretId) then
        var head := c.world.cells[found.value].head.value;
        if work.ifNoneMatch == Some(head.control) then c.(pass := Some(Finish(c.pass.value, work.name, false)))
        else c.(pass := Some(c.pass.value.(work := Some(work.(stage := Received(Remote(head.control, head.payload)))))))
      else c
  }

  function MaterialiseStep(c: Controller): Controller {
    if !Working(c) || !c.pass.value.work.value.stage.Received? then c
    else
      var work := c.pass.value.work.value;
      var spec := c.pass.value.listed[work.name].spec;
      var remote := work.stage.remote;
      if spec.target in c.targets && c.targets[spec.target].owner != Some(work.name) then c
      else
        c.(targets := c.targets[spec.target := Target(Some(work.name), spec.kind, Some(work.uid), Some(remote.control),
                                                      remote.payload, remote.payload, remote.payload)],
           pass := Some(c.pass.value.(work := Some(work.(stage := Applied(remote))))))
  }

  /** Records what was materialised; a patch whose reply is lost may still have been applied. */
  function RecordStep(c: Controller, patched: bool, reported: bool): Controller {
    if !Working(c) || !c.pass.value.work.value.stage.Applied? then c
    else
      var work := c.pass.value.work.value;
      var remote := work.stage.remote;
      var status := Status(c.pass.value.listed[work.name].generation, Some(work.uid), Some(remote.control), remote.payload);
      if !CanWrite(c, work.name, status, patched) then c
      else
        c.(imports := Written(c.imports, work.name, status, patched),
           pass := if reported then Some(Finish(c.pass.value, work.name, false)) else c.pass)
  }

  /** A 403 or 404: the owned copy goes and the status is cleared. */
  function RevokeStep(c: Controller, name: Name, patched: bool): Controller {
    if c.pass.None? || name !in c.pass.value.todo || name !in c.pass.value.listed then c
    else
      var resource := c.pass.value.listed[name];
      if !CanWrite(c, name, Cleared(resource.generation), patched) then c
      else
        c.(imports := Written(c.imports, name, Cleared(resource.generation), patched),
           targets := if resource.spec.target in c.targets && c.targets[resource.spec.target].owner == Some(name)
                      then c.targets - {resource.spec.target} else c.targets,
           pass := Some(Finish(c.pass.value, name, false)))
  }

  /** Any other failure, or an unusable consumer: the status is cleared and the checkpoint withheld. */
  function FailStep(c: Controller, name: Name, patched: bool): Controller {
    if c.pass.None? || name !in c.pass.value.todo || name !in c.pass.value.listed then c
    else
      var status := Cleared(c.pass.value.listed[name].generation);
      if !CanWrite(c, name, status, patched) then c
      else c.(imports := Written(c.imports, name, status, patched), pass := Some(Finish(c.pass.value, name, true)))
  }

  /** Only a pass that reconciled every import without a failure persists its checkpoint. */
  function EndPassStep(c: Controller): Controller {
    if c.pass.None? || c.pass.value.todo != {} || c.pass.value.work.Some? || Syncing(c) then c
    else if Reconciling(c) && !c.pass.value.failed then
      c.(saved := c.agent.(completed := None, cycle := None, pending := None), pass := None)
    else c.(pass := None)
  }

  ghost function Act(c: Controller, action: Action, timeout: nat): Controller {
    match action
    case Write(step) => c.(world := Apply(c.world, step))
    case EditGrants(edit) => c.(policy := PolicyNext(c.policy, c.world, edit))
    case CreateImport(name, spec) => if name in c.imports then c else c.(imports := c.imports[name := Import(spec, 1, None)])
    case EditImport(name, spec) =>
      if name !in c.imports then c
      else c.(imports := c.imports[name := c.imports[name].(spec := spec, generation := c.imports[name].generation + 1)])
    case DeleteImport(name) => c.(imports := c.imports - {name})
    case ChangeTarget(name, target) =>
      c.(targets := if target.Some? then c.targets[name := target.value] else c.targets - {name})
    case StartPass(identity) =>
      if c.pass.Some? then c
      else c.(agent := if identity.Some? then Blank(identity.value) else c.saved, held := None,
              pass := Some(Pass(c.imports, c.imports.Keys, true, false, None)))
    case ReadGrant => if !Syncing(c) then c else c.(held := RecordOf(c))
    case Synchronize(event) =>
      if !Syncing(c) || event.Move? || (event.Ask? && c.held != Some(event.grant)) then c else c.(agent := Next(System(c.world, c.agent), event, timeout).agent)
    case ConsumerFailed =>
      if !Syncing(c) then c else c.(saved := Blank(c.saved.scope), pass := Some(c.pass.value.(ready := false)))
    case Consider(name) => ConsiderStep(c, name)
    case ReadScope => ReadScopeStep(c)
    case Authorise => AuthoriseStep(c)
    case Receive => ReceiveStep(c)
    case Materialise => MaterialiseStep(c)
    case Record(patched, reported) => RecordStep(c, patched, reported)
    case Revoke(name, patched) => RevokeStep(c, name, patched)
    case Fail(name, patched) => FailStep(c, name, patched)
    case EndPass => EndPassStep(c)
    case AbortPass => c.(pass := None)
  }

  ghost function Operate(c: Controller, actions: seq<Action>, timeout: nat): Controller
    decreases |actions|
  {
    if actions == [] then c else Operate(Act(c, actions[0], timeout), actions[1..], timeout)
  }

  /** Any reachable table, no grant record yet, and a controller that has just been installed. */
  function Installed(before: seq<Step>, scope: Scope): Controller {
    Controller(Run(Genesis, before), NoPolicy, None, Blank(scope), Blank(scope), map[], map[], None)
  }

  function ActionLag(action: Action): nat {
    if action.Write? then StepLag(action.step) else 0
  }

  // ---------------------------------------------------------------- what may go wrong

  /** A pass returns to the consumer whose checkpoint is saved, after a pass as another consumer. */
  predicate Restores(c: Controller, action: Action) {
    && action.StartPass? && c.saved.checkpoint.Some? && c.agent.scope != c.saved.scope
    && (action.identity.None? || action.identity.value == c.saved.scope)
  }

  ghost predicate Regular(c: Controller, action: Action, lag: nat) {
    && ActionLag(action) <= lag
    && (action.EditGrants? ==> !Revives(c.world, c.policy, action.edit))
    && !Restores(c, action)
  }

  /**
   * Writers stay within the lag, no grant edit brings back a secret that has lost its name, and an identity
   * that has been replaced by another consumer's is not restored.
   */
  ghost predicate Orderly(c: Controller, actions: seq<Action>, timeout: nat, lag: nat)
    decreases |actions|
  {
    actions == [] || (Regular(c, actions[0], lag) && Orderly(Act(c, actions[0], timeout), actions[1..], timeout, lag))
  }

  // ---------------------------------------------------------------- what a fetch reads

  /** The secret has a revision at or below the frontier that the checkpoint stands for. */
  ghost predicate Below(w: World, environment: Name, uid: Id, frontier: nat) {
    && uid in w.cells && w.cells[uid].environment == environment && |w.cells[uid].log| > 0
    && SequenceOf(w.cells[uid]).Some? && SequenceOf(w.cells[uid]).value <= frontier
  }

  /** The higher of the frontier the pass has reached and the one saved before it. */
  function Limit(saved: Agent, agent: Agent): nat
    requires agent.completed.Some?
  {
    var through := agent.completed.value.position.through;
    if saved.checkpoint.Some? && saved.scope == agent.scope && saved.checkpoint.value.position.through > through
    then saved.checkpoint.value.position.through else through
  }

  /** The revision of the selected secret counts: the cycle just read or the saved checkpoint speaks for it. */
  ghost predicate Counts(w: World, saved: Agent, agent: Agent, uid: Id)
    requires agent.completed.Some?
  {
    Below(w, agent.scope.environment, uid, Limit(saved, agent))
  }

  /** The secret that the name of the import being fetched resolves to, if the fetch will return a revision. */
  ghost function Fetched(c: Controller): Option<Id> {
    if !Working(c) || !c.pass.value.work.value.stage.Authorised? then None
    else
      var secretId := c.pass.value.listed[c.pass.value.work.value.name].spec.secretId;
      var found := LookupName(c.world, c.agent.scope.environment, secretId);
      if ReadAllowed(c.world, found, c.agent.scope.consumer, c.agent.scope.environment, secretId) then found else None
  }
}
