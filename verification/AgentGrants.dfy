/**
 * The grant record of each agent and the edits of it. An edit resolves its secret names one at a time and
 * then writes what it found, unconditionally; archives and creates may come between.
 */
module AgentGrants {
  import opened Domain
  import opened Revisions
  import opened RevisionInvariants
  import opened ControlPlane
  import opened ControlPlaneInvariants
  import opened IndexInvariants
  import opened NameInvariants
  import opened ControlPlaneTheorems
  import opened SyncIndex
  import opened NameHistory
  import opened AgentSync

  /** `waiting` are the names still to be resolved; `entries` are the grants resolved so far, by UID. */
  datatype Edit = Edit(
    creates: bool,
    consumer: Id,
    environment: Name,
    grant: Id,
    capabilities: set<Permission>,
    waiting: map<Name, set<Permission>>,
    entries: map<Id, SecretGrant>)

  datatype Policy = Policy(records: map<Id, AgentGrant>, edits: map<Id, Edit>)

  datatype PolicyStep =
    | BeginCreate(edit: Id, consumer: Id, environment: Name, grant: Id, capabilities: set<Permission>, wanted: map<Name, set<Permission>>)
    | BeginUpdate(edit: Id, consumer: Id, capabilities: set<Permission>, wanted: map<Name, set<Permission>>)
    | ResolveEntry(edit: Id, secretId: Name)
    | WriteEdit(edit: Id)
    | Activate(consumer: Id)

  const NoPolicy := Policy(map[], map[])

  /** One name is resolved; a name that resolves to nothing ends the edit. */
  function Resolve(w: World, e: Edit, secretId: Name): Option<Edit>
    requires secretId in e.waiting
  {
    var found := LookupName(w, e.environment, secretId);
    if found.None? then None
    else Some(e.(waiting := e.waiting - {secretId}, entries := e.entries[found.value := SecretGrant(secretId, e.waiting[secretId])]))
  }

  /** A create must find no record; an update replaces capabilities and entries and leaves the rest. */
  function WithEdit(p: Policy, e: Edit): map<Id, AgentGrant> {
    if e.creates && e.consumer !in p.records then
      p.records[e.consumer := AgentGrant(e.consumer, e.environment, false, Digest(e.grant, e.capabilities, e.entries))]
    else if !e.creates && e.consumer in p.records then
      var r := p.records[e.consumer];
      p.records[e.consumer := r.(digest := Digest(r.digest.grant, e.capabilities, e.entries))]
    else p.records
  }

  function PolicyNext(p: Policy, w: World, step: PolicyStep): Policy {
    match step
    case BeginCreate(edit, consumer, environment, grant, capabilities, wanted) =>
      if edit in p.edits then p
      else p.(edits := p.edits[edit := Edit(true, consumer, environment, grant, capabilities, wanted, map[])])
    case BeginUpdate(edit, consumer, capabilities, wanted) =>
      if edit in p.edits || consumer !in p.records then p
      else
        var r := p.records[consumer];
        p.(edits := p.edits[edit := Edit(false, consumer, r.environment, r.digest.grant, capabilities, wanted, map[])])
    case ResolveEntry(edit, secretId) =>
      if edit !in p.edits || secretId !in p.edits[edit].waiting then p
      else
        var e := Resolve(w, p.edits[edit], secretId);
        p.(edits := if e.Some? then p.edits[edit := e.value] else p.edits - {edit})
    case WriteEdit(edit) =>
      if edit !in p.edits || p.edits[edit].waiting != map[] then p
      else Policy(WithEdit(p, p.edits[edit]), p.edits - {edit})
    case Activate(consumer) =>
      if consumer !in p.records then p else p.(records := p.records[consumer := p.records[consumer].(active := true)])
  }

  // ---------------------------------------------------------------- edits that stalled

  predicate InRecord(p: Policy, consumer: Id, uid: Id) {
    consumer in p.records && uid in p.records[consumer].digest.secretGrants
  }

  /** The write brings back a secret that has lost its name since the edit resolved it, and that the record had dropped. */
  predicate Revives(w: World, p: Policy, step: PolicyStep) {
    step.WriteEdit? && step.edit in p.edits &&
    exists uid :: uid in p.edits[step.edit].entries && !Resolves(w, uid) && !InRecord(p, p.edits[step.edit].consumer, uid)
  }

  /** Every entry names at the write what its name resolves to at the write. */
  predicate WritesOnTime(w: World, p: Policy, step: PolicyStep) {
    step.WriteEdit? && step.edit in p.edits ==>
      forall uid :: uid in p.edits[step.edit].entries ==>
        LookupName(w, p.edits[step.edit].environment, p.edits[step.edit].entries[uid].secretId) == Some(uid)
  }

  /** A secret that has lost its name, and that the consumer's record does not name. */
  ghost predicate Forsaken(w: World, p: Policy, consumer: Id, uid: Id) {
    Spent(w, uid) && !InRecord(p, consumer, uid)
  }

  // ---------------------------------------------------------------- what records and edits name

  ghost predicate NamesSecret(w: World, environment: Name, uid: Id, secretId: Name) {
    uid in w.cells && NameKey(w.cells[uid]) == (environment, secretId) && !PendingCreate(w.cells[uid])
  }

  /** Entries name existing secrets by their own ids, each id once. */
  ghost predicate EntriesOk(w: World, environment: Name, entries: map<Id, SecretGrant>) {
    && (forall uid :: uid in entries ==> NamesSecret(w, environment, uid, entries[uid].secretId))
    && (forall u, v :: u in entries && v in entries && u != v ==> entries[u].secretId != entries[v].secretId)
  }

  ghost predicate RecordOk(w: World, r: AgentGrant) {
    EntriesOk(w, r.environment, r.digest.secretGrants)
  }

  ghost predicate EditOk(w: World, p: Policy, e: Edit) {
    && EntriesOk(w, e.environment, e.entries)
    && (forall uid :: uid in e.entries ==> e.entries[uid].secretId !in e.waiting)
    && (!e.creates ==> e.consumer in p.records && p.records[e.consumer].environment == e.environment)
  }

  ghost predicate PolicyOk(w: World, p: Policy) {
    && (forall consumer :: consumer in p.records ==> p.records[consumer].consumer == consumer && RecordOk(w, p.records[consumer]))
    && (forall edit :: edit in p.edits ==> EditOk(w, p, p.edits[edit]))
  }

  /** A secret that a grant read earlier names, and that still has its name, is the only one of that name in the record. */
  ghost predicate Newer(w: World, p: Policy, consumer: Id, g: AgentGrant) {
    forall u, x :: u in g.digest.secretGrants && u in w.cells && Resolves(w, u) && InRecord(p, consumer, x) && x in w.cells
                   && NameKey(w.cells[x]) == NameKey(w.cells[u])
      ==> u == x
  }

  // ---------------------------------------------------------------- table steps

  lemma StepKeepsNamed(w: World, step: Step, environment: Name, uid: Id, secretId: Name)
    requires Sound(w) && NamesSecret(w, environment, uid, secretId)
    ensures NamesSecret(Apply(w, step), environment, uid, secretId)
  {
    hide CellsOk, NamesOk, IndexInv, Apply, PendingCreate, CreatesKept;
    UidBelow(w, uid);
    CellPersists(w, step, uid);
    StepKeepsCreates(w, step, uid);
    KeptCreates(w.cells[uid], Apply(w, step).cells[uid]);
  }

  lemma StepKeepsEntries(w: World, step: Step, environment: Name, entries: map<Id, SecretGrant>)
    requires Sound(w) && EntriesOk(w, environment, entries)
    ensures EntriesOk(Apply(w, step), environment, entries)
  {
    hide Sound, Apply, NamesSecret;
    forall uid | uid in entries ensures NamesSecret(Apply(w, step), environment, uid, entries[uid].secretId) {
      StepKeepsNamed(w, step, environment, uid, entries[uid].secretId);
    }
  }

  lemma StepKeepsPolicy(w: World, step: Step, p: Policy)
    requires Sound(w) && PolicyOk(w, p)
    ensures PolicyOk(Apply(w, step), p)
  {
    hide Sound, Apply, EntriesOk;
    forall consumer | consumer in p.records ensures RecordOk(Apply(w, step), p.records[consumer]) {
      StepKeepsEntries(w, step, p.records[consumer].environment, p.records[consumer].digest.secretGrants);
    }
    forall edit | edit in p.edits ensures EditOk(Apply(w, step), p, p.edits[edit]) {
      assert EditOk(w, p, p.edits[edit]);
      StepKeepsEntries(w, step, p.edits[edit].environment, p.edits[edit].entries);
    }
  }

  lemma StepKeepsForsaken(w: World, step: Step, p: Policy, consumer: Id, uid: Id)
    requires Sound(w) && Forsaken(w, p, consumer, uid)
    ensures Forsaken(Apply(w, step), p, consumer, uid)
  {
    hide Sound, Apply, Spent;
    StepKeepsSpent(w, step, uid);
  }

  /** Names are only lost by the secrets that grants name. */
  lemma StepKeepsNewer(w: World, step: Step, p: Policy, consumer: Id, g: AgentGrant)
    requires Sound(w) && RecordOk(w, g) && PolicyOk(w, p) && Newer(w, p, consumer, g)
    ensures Newer(Apply(w, step), p, consumer, g)
  {
    hide CellsOk, NamesOk, IndexInv, Apply, PendingCreate, NameKey, Resolves;
    var v := Apply(w, step);
    forall u, x | u in g.digest.secretGrants && u in v.cells && Resolves(v, u) && InRecord(p, consumer, x) && x in v.cells
                  && NameKey(v.cells[x]) == NameKey(v.cells[u])
      ensures u == x
    {
      assert NamesSecret(w, g.environment, u, g.digest.secretGrants[u].secretId);
      assert RecordOk(w, p.records[consumer]);
      assert NamesSecret(w, p.records[consumer].environment, x, p.records[consumer].digest.secretGrants[x].secretId);
      KeptName(w, step, u);
      KeptName(w, step, x);
      if !Resolves(w, u) { NameGained(w, step, u); }
    }
  }

  lemma KeptName(w: World, step: Step, uid: Id)
    requires CellsOk(w) && NamesOk(w) && uid in w.cells
    ensures uid in Apply(w, step).cells && NameKey(Apply(w, step).cells[uid]) == NameKey(w.cells[uid])
  {
    hide CellsOk, NamesOk, Apply, NameKey;
    UidBelow(w, uid);
    CellPersists(w, step, uid);
  }

  // ---------------------------------------------------------------- edit steps

  /** What a name resolves to carries the name, and its create is spent. */
  lemma ResolvedNames(w: World, environment: Name, secretId: Name)
    requires NamesOk(w) && CreatesOk(w) && LookupName(w, environment, secretId).Some?
    ensures NamesSecret(w, environment, LookupName(w, environment, secretId).value, secretId)
    ensures Resolves(w, LookupName(w, environment, secretId).value)
  {
    hide PendingCreate, OneCreate;
    var uid := LookupName(w, environment, secretId).value;
    assert NameKey(w.cells[uid]) == (environment, secretId);
  }

  lemma ResolveKeeps(w: World, p: Policy, e: Edit, secretId: Name)
    requires NamesOk(w) && CreatesOk(w) && EditOk(w, p, e) && secretId in e.waiting && Resolve(w, e, secretId).Some?
    ensures EditOk(w, p, Resolve(w, e, secretId).value)
  {
    hide NamesOk, CreatesOk, NamesSecret, Resolves;
    ResolvedNames(w, e.environment, secretId);
    var uid := LookupName(w, e.environment, secretId).value;
    assert uid in e.entries ==> e.entries[uid].secretId == secretId by {
      if uid in e.entries { assert NamesSecret(w, e.environment, uid, e.entries[uid].secretId); SameName(w, e.environment, uid, secretId, e.entries[uid].secretId); }
    }
  }

  lemma SameName(w: World, environment: Name, uid: Id, a: Name, b: Name)
    requires NamesSecret(w, environment, uid, a) && NamesSecret(w, environment, uid, b)
    ensures a == b
  {
  }

  lemma PolicyStepKeeps(w: World, p: Policy, step: PolicyStep)
    requires NamesOk(w) && CreatesOk(w) && PolicyOk(w, p)
    ensures PolicyOk(w, PolicyNext(p, w, step))
  {
    hide NamesOk, CreatesOk, EntriesOk, Resolve;
    assert EntriesOk(w, "", map[]) by { NoEntries(w); }
    if step.ResolveEntry? && step.edit in p.edits && step.secretId in p.edits[step.edit].waiting {
      if Resolve(w, p.edits[step.edit], step.secretId).Some? { ResolveKeeps(w, p, p.edits[step.edit], step.secretId); ResolveKind(w, p.edits[step.edit], step.secretId); }
    } else if step.WriteEdit? && step.edit in p.edits {
      assert EditOk(w, p, p.edits[step.edit]);
    } else if step.BeginCreate? || step.BeginUpdate? {
      NoEntriesAnywhere(w);
    }
  }

  lemma ResolveKind(w: World, e: Edit, secretId: Name)
    requires secretId in e.waiting && Resolve(w, e, secretId).Some?
    ensures Resolve(w, e, secretId).value.creates == e.creates && Resolve(w, e, secretId).value.consumer == e.consumer
    ensures Resolve(w, e, secretId).value.environment == e.environment
  {
  }

  lemma NoEntries(w: World)
    ensures EntriesOk(w, "", map[])
  {
  }

  lemma NoEntriesAnywhere(w: World)
    ensures forall environment :: EntriesOk(w, environment, map[])
  {
  }

  /** A write that revives nothing leaves the forsaken secrets out. */
  lemma PolicyStepKeepsForsaken(w: World, p: Policy, step: PolicyStep, consumer: Id, uid: Id)
    requires Forsaken(w, p, consumer, uid) && !Revives(w, p, step)
    ensures Forsaken(w, PolicyNext(p, w, step), consumer, uid)
  {
    hide PendingCreate;
  }

  lemma PolicyStepKeepsNewer(w: World, p: Policy, step: PolicyStep, consumer: Id, g: AgentGrant)
    requires Newer(w, p, consumer, g) && !Revives(w, p, step)
    ensures Newer(w, PolicyNext(p, w, step), consumer, g)
  {
    hide NameKey;
    var q := PolicyNext(p, w, step);
    forall u, x | u in g.digest.secretGrants && u in w.cells && Resolves(w, u) && InRecord(q, consumer, x) && x in w.cells
                  && NameKey(w.cells[x]) == NameKey(w.cells[u])
      ensures u == x
    {
      if !InRecord(p, consumer, x) { assert Resolves(w, x); }
    }
  }

  /** A record just read is not older than itself. */
  lemma RecordIsNewer(w: World, p: Policy, consumer: Id)
    requires PolicyOk(w, p) && consumer in p.records
    ensures RecordOk(w, p.records[consumer]) && Newer(w, p, consumer, p.records[consumer])
  {
    var r := p.records[consumer];
    forall u, x | u in r.digest.secretGrants && x in r.digest.secretGrants && u in w.cells && x in w.cells
                  && NameKey(w.cells[x]) == NameKey(w.cells[u])
      ensures u == x
    {
      assert NamesSecret(w, r.environment, u, r.digest.secretGrants[u].secretId);
      assert NamesSecret(w, r.environment, x, r.digest.secretGrants[x].secretId);
    }
  }

  /** Writes that name what their names resolve to revive nothing. */
  lemma PromptWritesReviveNothing(w: World, p: Policy, step: PolicyStep)
    requires PolicyOk(w, p) && WritesOnTime(w, p, step)
    ensures !Revives(w, p, step)
  {
    if step.WriteEdit? && step.edit in p.edits {
      var e := p.edits[step.edit];
      assert EditOk(w, p, e);
      forall uid | uid in e.entries ensures Resolves(w, uid) {
        assert NamesSecret(w, e.environment, uid, e.entries[uid].secretId);
      }
    }
  }
}
