/** Pieces of a controller's run, evaluated: grant edits, whole cycles, and a fetch that reads another secret. */
module ImportRuns {
  import opened Domain
  import opened Revisions
  import opened RevisionInvariants
  import opened ControlPlane
  import opened ControlPlaneTheorems
  import opened NameReuse
  import opened AgentSync
  import opened AgentSyncTheorems
  import opened AgentGrants
  import opened ImportController

  const IMPORT: Name := "import"
  const TARGET: Name := "target"
  const SPEC := Spec(KEY, TARGET, "Opaque")
  const NewImport := Import(SPEC, 1, None)
  const Reads: set<Permission> := {ReadPermission}
  const Wanted: map<Name, set<Permission>> := map[KEY := Reads]

  function ScopeOf(consumer: Id): Scope {
    Scope(ENV, consumer)
  }

  function DigestFor(consumer: Id, uid: Id): Digest {
    Digest(consumer, Reads, map[uid := SecretGrant(KEY, Reads)])
  }

  function GrantFor(consumer: Id, uid: Id): AgentGrant {
    AgentGrant(consumer, ENV, true, DigestFor(consumer, uid))
  }

  // ---------------------------------------------------------------- runs in pieces

  lemma {:induction false} OperateConcat(c: Controller, a: seq<Action>, b: seq<Action>, timeout: nat)
    ensures Operate(c, a + b, timeout) == Operate(Operate(c, a, timeout), b, timeout)
    decreases |a|
  {
    hide Act;
    if a == [] {
      assert a + b == b;
    } else {
      assert (a + b)[0] == a[0] && (a + b)[1..] == a[1..] + b;
      OperateConcat(Act(c, a[0], timeout), a[1..], b, timeout);
    }
  }

  lemma OneMoreAct(c: Controller, actions: seq<Action>, a: Action, timeout: nat)
    ensures Operate(c, actions + [a], timeout) == Act(Operate(c, actions, timeout), a, timeout)
  {
    hide Act;
    OperateConcat(c, actions, [a], timeout);
    var d := Operate(c, actions, timeout);
    assert [a][1..] == [];
    assert Operate(Act(d, a, timeout), [], timeout) == Act(d, a, timeout);
  }

  lemma NoActs(c: Controller, timeout: nat)
    ensures Operate(c, [], timeout) == c
  {
  }

  function Writes(steps: seq<Step>): seq<Action> {
    if steps == [] then [] else [Write(steps[0])] + Writes(steps[1..])
  }

  lemma {:induction false} WritesRun(c: Controller, steps: seq<Step>, timeout: nat)
    ensures Operate(c, Writes(steps), timeout) == c.(world := Run(c.world, steps))
    decreases |steps|
  {
    hide Apply;
    if steps != [] {
      assert Writes(steps)[0] == Write(steps[0]) && Writes(steps)[1..] == Writes(steps[1..]);
      WritesRun(c.(world := Apply(c.world, steps[0])), steps[1..], timeout);
    }
  }

  function Edits(steps: seq<PolicyStep>): seq<Action> {
    if steps == [] then [] else [EditGrants(steps[0])] + Edits(steps[1..])
  }

  function PolicyRun(p: Policy, w: World, steps: seq<PolicyStep>): Policy
    decreases |steps|
  {
    if steps == [] then p else PolicyRun(PolicyNext(p, w, steps[0]), w, steps[1..])
  }

  lemma {:induction false} EditsRun(c: Controller, steps: seq<PolicyStep>, timeout: nat)
    ensures Operate(c, Edits(steps), timeout) == c.(policy := PolicyRun(c.policy, c.world, steps))
    decreases |steps|
  {
    hide PolicyNext;
    if steps != [] {
      assert Edits(steps)[0] == EditGrants(steps[0]) && Edits(steps)[1..] == Edits(steps[1..]);
      EditsRun(c.(policy := PolicyNext(c.policy, c.world, steps[0])), steps[1..], timeout);
    }
  }

  // ---------------------------------------------------------------- grant edits

  function CreateGrant(edit: Id, consumer: Id): seq<PolicyStep> {
    [BeginCreate(edit, consumer, ENV, consumer, Reads, Wanted), ResolveEntry(edit, KEY), WriteEdit(edit), Activate(consumer)]
  }

  /** An update that has resolved its names and not written yet. */
  function StallGrant(edit: Id, consumer: Id): seq<PolicyStep> {
    [BeginUpdate(edit, consumer, Reads, Wanted), ResolveEntry(edit, KEY)]
  }

  function Stalled(consumer: Id, uid: Id): Edit {
    Edit(false, consumer, ENV, consumer, Reads, map[], map[uid := SecretGrant(KEY, Reads)])
  }

  lemma ResolvesKey(w: World, e: Edit, uid: Id)
    requires LookupName(w, ENV, KEY) == Some(uid) && e.environment == ENV && e.waiting == Wanted && e.entries == map[]
    ensures Resolve(w, e, KEY) == Some(e.(waiting := map[], entries := map[uid := SecretGrant(KEY, Reads)]))
  {
    assert Wanted - {KEY} == map[];
  }

  lemma ThreeEdits(p: Policy, w: World, a: PolicyStep, b: PolicyStep, d: PolicyStep, e: PolicyStep)
    ensures PolicyRun(p, w, [a, b, d, e]) == PolicyNext(PolicyNext(PolicyNext(PolicyNext(p, w, a), w, b), w, d), w, e)
    ensures PolicyRun(p, w, [a, b]) == PolicyNext(PolicyNext(p, w, a), w, b)
  {
    hide PolicyNext;
    assert [a, b, d, e][1..] == [b, d, e] && [b, d, e][1..] == [d, e] && [d, e][1..] == [e] && [e][1..] == [];
    assert [a, b][1..] == [b] && [b][1..] == [];
    var p1 := PolicyNext(p, w, a);
    var p2 := PolicyNext(p1, w, b);
    var p3 := PolicyNext(p2, w, d);
    assert PolicyRun(p2, w, []) == p2;
    assert PolicyRun(p1, w, [b]) == p2;
    assert PolicyRun(PolicyNext(p3, w, e), w, []) == PolicyNext(p3, w, e);
    assert PolicyRun(p3, w, [e]) == PolicyNext(p3, w, e);
    assert PolicyRun(p2, w, [d, e]) == PolicyRun(p3, w, [e]);
    assert PolicyRun(p1, w, [b, d, e]) == PolicyRun(p2, w, [d, e]);
  }

  lemma GrantIsCreated(p: Policy, w: World, edit: Id, consumer: Id, uid: Id)
    requires edit !in p.edits && consumer !in p.records && LookupName(w, ENV, KEY) == Some(uid)
    ensures PolicyRun(p, w, CreateGrant(edit, consumer)) == p.(records := p.records[consumer := GrantFor(consumer, uid)])
  {
    hide Resolve;
    var e := Edit(true, consumer, ENV, consumer, Reads, Wanted, map[]);
    var f := e.(waiting := map[], entries := map[uid := SecretGrant(KEY, Reads)]);
    ResolvesKey(w, e, uid);
    ThreeEdits(p, w, CreateGrant(edit, consumer)[0], ResolveEntry(edit, KEY), WriteEdit(edit), Activate(consumer));
    var p1 := p.(edits := p.edits[edit := e]);
    assert PolicyNext(p1, w, ResolveEntry(edit, KEY)) == p.(edits := p.edits[edit := f]);
    assert p.edits[edit := f] - {edit} == p.edits;
    var inactive := GrantFor(consumer, uid).(active := false);
    assert PolicyNext(p.(edits := p.edits[edit := f]), w, WriteEdit(edit)) == p.(records := p.records[consumer := inactive]);
    assert p.records[consumer := inactive][consumer := GrantFor(consumer, uid)] == p.records[consumer := GrantFor(consumer, uid)];
  }

  lemma EditStalls(p: Policy, w: World, edit: Id, consumer: Id, before: Id, uid: Id)
    requires edit !in p.edits && consumer in p.records && p.records[consumer] == GrantFor(consumer, before)
    requires LookupName(w, ENV, KEY) == Some(uid)
    ensures PolicyRun(p, w, StallGrant(edit, consumer)) == p.(edits := p.edits[edit := Stalled(consumer, uid)])
  {
    hide Resolve;
    var e := Edit(false, consumer, ENV, consumer, Reads, Wanted, map[]);
    ResolvesKey(w, e, uid);
    ThreeEdits(p, w, BeginUpdate(edit, consumer, Reads, Wanted), ResolveEntry(edit, KEY), WriteEdit(edit), WriteEdit(edit));
    assert p.edits[edit := e][edit := Stalled(consumer, uid)] == p.edits[edit := Stalled(consumer, uid)];
  }

  lemma EditIsWritten(p: Policy, w: World, edit: Id, consumer: Id, before: Id, uid: Id)
    requires edit in p.edits && p.edits[edit] == Stalled(consumer, uid)
    requires consumer in p.records && p.records[consumer] == GrantFor(consumer, before)
    ensures PolicyNext(p, w, WriteEdit(edit)) == Policy(p.records[consumer := GrantFor(consumer, uid)], p.edits - {edit})
  {
  }

  // ---------------------------------------------------------------- cycles

  function SnapshotAt(consumer: Id, uid: Id, now: nat): Position {
    Position(AgentSync.Page, 0, DigestFor(consumer, uid), 0, 4, true, now + CHECKPOINT_LIFETIME, now + PAGE_LIFETIME, None)
  }

  function CursorAt(consumer: Id, uid: Id, now: nat): Cursor {
    Encode(ScopeOf(consumer), SnapshotAt(consumer, uid, now).(kind := Checkpoint, after := 4))
  }

  function DeltaAt(consumer: Id, uid: Id, now: nat): Position {
    SnapshotAt(consumer, uid, now).(kind := Checkpoint, after := 4, snapshot := false)
  }

  /** An agent between cycles, with the checkpoint of a snapshot. */
  ghost predicate Rests(a: Agent, consumer: Id, uid: Id, taken: nat) {
    && a.scope == ScopeOf(consumer) && a.checkpoint == Some(CursorAt(consumer, uid, taken))
    && a.cycle.None? && a.pending.None? && a.completed.None?
  }

  /** Every secret of the table is published. */
  predicate Counted4(w: World) {
    StateOf(w, ENV) == Some(SyncState(0, 4, true))
  }

  /** An agent that has asked for a page and waits for it. */
  function Reading(a: Agent, query: Query, position: Position, w: World): Agent {
    a.(pending := Some(Querying(w.now)), cycle := Some(Cycle(position, query, map[], [], None, w)))
  }

  lemma SnapshotAsked(w: World, consumer: Id, uid: Id, timeout: nat)
    requires Counted4(w)
    ensures Next(Next(System(w, Blank(ScopeOf(consumer))), Ask(Fresh, GrantFor(consumer, uid), true), timeout), Event.Check(w.now), timeout)
            == System(w, Reading(Blank(ScopeOf(consumer)), Query(None, None, true), SnapshotAt(consumer, uid, w.now), w))
  {
  }

  lemma DeltaAsked(w: World, a: Agent, consumer: Id, uid: Id, taken: nat, timeout: nat)
    requires Counted4(w) && Rests(a, consumer, uid, taken) && w.now < taken + CHECKPOINT_LIFETIME
    ensures Next(Next(System(w, a), Ask(FromCheckpoint, GrantFor(consumer, uid), true), timeout), Event.Check(w.now), timeout)
            == System(w, Reading(a, Query(a.checkpoint, None, true), DeltaAt(consumer, uid, w.now), w))
  {
  }

  /** The agent after a cycle. */
  ghost predicate Finished(a: Agent, consumer: Id, uid: Id, snapshot: bool) {
    && a.scope == ScopeOf(consumer) && a.checkpoint.Some? && a.cycle.None? && a.pending.None?
    && a.completed.Some? && a.completed.value.position.snapshot == snapshot
    && a.completed.value.position.digest == DigestFor(consumer, uid) && a.completed.value.position.through == 4
  }

  lemma DeltaAnswered(w: World, a: Agent, consumer: Id, uid: Id, taken: nat, timeout: nat)
    requires Rests(a, consumer, uid, taken)
    ensures var s := Next(System(w, Reading(a, Query(a.checkpoint, None, true), DeltaAt(consumer, uid, w.now), w)), Answer([], None), timeout);
            s.world == w && Finished(s.agent, consumer, uid, false) && s.agent.completed.value.entries == map[] && s.agent.checkpoint == a.checkpoint
  {
    var position := DeltaAt(consumer, uid, w.now);
    assert IsPage(w, ENV, position, [], None);
    assert Changes(w, [], consumer, position.digest) == [];
    assert Absorb(map[], []) == map[];
  }

  /** A snapshot's last page completes the cycle and yields its checkpoint. */
  lemma SnapshotAnswered(w: World, consumer: Id, uid: Id, keys: seq<ChangeKey>, timeout: nat)
    requires IsPage(w, ENV, SnapshotAt(consumer, uid, w.now), keys, None) && forall key :: key in keys ==> key in w.changes
    ensures var a := Blank(ScopeOf(consumer));
            var s := Next(System(w, Reading(a, Query(None, None, true), SnapshotAt(consumer, uid, w.now), w)), Answer(keys, None), timeout);
            && s.world == w && Finished(s.agent, consumer, uid, true) && Rests(s.agent.(completed := None), consumer, uid, w.now)
            && s.agent.completed.value.entries == Absorb(map[], Changes(w, keys, consumer, DigestFor(consumer, uid)))
  {
    hide IsPage, Changes, Absorb, Uids;
  }

  // ---------------------------------------------------------------- passes

  function Listing(imports: map<Name, Import>): Pass {
    Pass(imports, imports.Keys, true, false, None)
  }

  function CycleActs(identity: Option<Scope>, source: Source, g: AgentGrant, now: nat, keys: seq<ChangeKey>): seq<Action> {
    [StartPass(identity), ReadGrant, Synchronize(Ask(source, g, true)), Synchronize(Event.Check(now)), Synchronize(Answer(keys, None))]
  }

  lemma FiveActs(c: Controller, a: Action, b: Action, d: Action, e: Action, f: Action, timeout: nat)
    ensures Operate(c, [a, b, d, e, f], timeout)
            == Act(Act(Act(Act(Act(c, a, timeout), b, timeout), d, timeout), e, timeout), f, timeout)
  {
    hide Act, Operate;
    assert [] + [a] == [a] && [a] + [b] == [a, b] && [a, b] + [d] == [a, b, d] && [a, b, d] + [e] == [a, b, d, e]
           && [a, b, d, e] + [f] == [a, b, d, e, f];
    NoActs(c, timeout);
    OneMoreAct(c, [], a, timeout);
    OneMoreAct(c, [a], b, timeout);
    OneMoreAct(c, [a, b], d, timeout);
    OneMoreAct(c, [a, b, d], e, timeout);
    OneMoreAct(c, [a, b, d, e], f, timeout);
  }

  /** A pass runs its cycle to the end when the agent's steps complete it. */
  lemma CycleRuns(c: Controller, identity: Option<Scope>, source: Source, g: AgentGrant, now: nat, keys: seq<ChangeKey>,
                  first: Agent, middle: Agent, last: Agent, timeout: nat)
    requires c.pass.None? && first == (if identity.Some? then Blank(identity.value) else c.saved) && first.completed.None? && middle.completed.None?
    requires first.scope.consumer in c.policy.records && c.policy.records[first.scope.consumer] == g
    requires Next(System(c.world, first), Ask(source, g, true), timeout).agent.completed.None?
    requires Next(System(c.world, first), Ask(source, g, true), timeout).world == c.world
    requires Next(Next(System(c.world, first), Ask(source, g, true), timeout), Event.Check(now), timeout) == System(c.world, middle)
    requires Next(System(c.world, middle), Answer(keys, None), timeout).agent == last
    ensures Operate(c, CycleActs(identity, source, g, now, keys), timeout)
            == c.(agent := last, held := Some(g), pass := Some(Listing(c.imports)))
  {
    hide Next, Operate;
    FiveActs(c, StartPass(identity), ReadGrant, Synchronize(Ask(source, g, true)), Synchronize(Event.Check(now)), Synchronize(Answer(keys, None)),
             timeout);
    var d := c.(agent := first, held := None, pass := Some(Listing(c.imports)));
    assert Act(c, StartPass(identity), timeout) == d;
    var e := d.(held := Some(g));
    assert Act(d, ReadGrant, timeout) == e;
    var asked := Next(System(c.world, first), Ask(source, g, true), timeout).agent;
    assert Act(e, Synchronize(Ask(source, g, true)), timeout) == e.(agent := asked);
    assert Act(e.(agent := asked), Synchronize(Event.Check(now)), timeout) == e.(agent := middle);
  }

  lemma AskEffect(w: World, a: Agent, source: Source, g: AgentGrant, timeout: nat)
    requires a.completed.None?
    ensures var s := Next(System(w, a), Ask(source, g, true), timeout);
            s.world == w && s.agent.completed.None?
  {
  }

  /** A pass from a saved checkpoint that finds nothing new. */
  lemma QuietCycle(c: Controller, consumer: Id, uid: Id, taken: nat, timeout: nat)
    requires c.pass.None? && Counted4(c.world) && Rests(c.saved, consumer, uid, taken) && c.world.now < taken + CHECKPOINT_LIFETIME
    requires consumer in c.policy.records && c.policy.records[consumer] == GrantFor(consumer, uid)
    ensures var d := Operate(c, CycleActs(None, FromCheckpoint, GrantFor(consumer, uid), c.world.now, []), timeout);
            && d == c.(agent := d.agent, held := Some(GrantFor(consumer, uid)), pass := Some(Listing(c.imports)))
            && Finished(d.agent, consumer, uid, false) && d.agent.completed.value.entries == map[] && d.agent.checkpoint == c.saved.checkpoint
  {
    hide Next, Operate;
    var w, g := c.world, GrantFor(consumer, uid);
    DeltaAsked(w, c.saved, consumer, uid, taken, timeout);
    DeltaAnswered(w, c.saved, consumer, uid, taken, timeout);
    AskEffect(w, c.saved, FromCheckpoint, g, timeout);
    var middle := Reading(c.saved, Query(c.saved.checkpoint, None, true), DeltaAt(consumer, uid, w.now), w);
    CycleRuns(c, None, FromCheckpoint, g, w.now, [], c.saved, middle, Next(System(w, middle), Answer([], None), timeout).agent, timeout);
  }

  /** A pass of an agent that starts over. */
  lemma SnapshotCycle(c: Controller, identity: Option<Scope>, consumer: Id, uid: Id, keys: seq<ChangeKey>, timeout: nat)
    requires c.pass.None? && Counted4(c.world)
    requires (if identity.Some? then Blank(identity.value) else c.saved) == Blank(ScopeOf(consumer))
    requires consumer in c.policy.records && c.policy.records[consumer] == GrantFor(consumer, uid)
    requires IsPage(c.world, ENV, SnapshotAt(consumer, uid, c.world.now), keys, None) && forall key :: key in keys ==> key in c.world.changes
    ensures var d := Operate(c, CycleActs(identity, Fresh, GrantFor(consumer, uid), c.world.now, keys), timeout);
            && d == c.(agent := d.agent, held := Some(GrantFor(consumer, uid)), pass := Some(Listing(c.imports)))
            && Finished(d.agent, consumer, uid, true) && Rests(d.agent.(completed := None), consumer, uid, c.world.now)
            && d.agent.completed.value.entries == Absorb(map[], Changes(c.world, keys, consumer, DigestFor(consumer, uid)))
  {
    hide Next, Operate, IsPage, Changes, Absorb;
    var w, g, a := c.world, GrantFor(consumer, uid), Blank(ScopeOf(consumer));
    SnapshotAsked(w, consumer, uid, timeout);
    SnapshotAnswered(w, consumer, uid, keys, timeout);
    AskEffect(w, a, Fresh, g, timeout);
    var middle := Reading(a, Query(None, None, true), SnapshotAt(consumer, uid, w.now), w);
    CycleRuns(c, identity, Fresh, g, w.now, keys, a, middle, Next(System(w, middle), Answer(keys, None), timeout).agent, timeout);
  }

  // ---------------------------------------------------------------- the misdirected fetch

  lemma OnlyGrant(consumer: Id, uid: Id)
    ensures GrantedUid(DigestFor(consumer, uid), KEY) == Some(uid)
  {
    var digest := DigestFor(consumer, uid);
    assert uid in digest.secretGrants && digest.secretGrants[uid].secretId == KEY;
  }

  function StatusFor(w: World, gone: Id, current: Id): Status
    requires Served(w, current)
  {
    var h := w.cells[current].head.value;
    Status(1, Some(gone), Some(h.control), h.payload)
  }

  function CopyFor(w: World, gone: Id, current: Id): Target
    requires Served(w, current)
  {
    var h := w.cells[current].head.value;
    Target(Some(IMPORT), SPEC.kind, Some(gone), Some(h.control), h.payload, h.payload, h.payload)
  }

  /** A pass that selects one secret while the grant record already names another of the same name. */
  ghost predicate Poised(c: Controller, gone: Id, current: Id) {
    && c.imports == map[IMPORT := NewImport] && c.targets == map[] && c.pass == Some(Listing(c.imports))
    && c.agent.scope == ScopeOf(READER) && c.agent.completed.Some?
    && c.agent.completed.value.position.digest == DigestFor(READER, gone) && c.agent.completed.value.entries == map[]
    && READER in c.policy.records && c.policy.records[READER] == GrantFor(READER, current)
    && LookupName(c.world, ENV, KEY) == Some(current) && Served(c.world, current)
  }

  function AtStage(c: Controller, gone: Id, stage: FetchStage): Controller
    requires c.pass.Some?
  {
    c.(pass := Some(c.pass.value.(work := Some(Work(IMPORT, gone, None, stage)))))
  }

  lemma Considers(c: Controller, gone: Id, current: Id)
    requires Poised(c, gone, current)
    ensures ConsiderStep(c, IMPORT) == AtStage(c, gone, FetchStage.Requested)
  {
    OnlyGrant(READER, gone);
    hide GrantedUid, LookupName, Served;
  }

  lemma Authorises(c: Controller, gone: Id, current: Id)
    requires Poised(c, gone, current)
    ensures ReadScopeStep(AtStage(c, gone, FetchStage.Requested)) == AtStage(c, gone, Scoped(GrantFor(READER, current)))
    ensures AuthoriseStep(AtStage(c, gone, Scoped(GrantFor(READER, current)))) == AtStage(c, gone, Authorised)
  {
    hide LookupName, Served;
  }

  lemma Receives(c: Controller, gone: Id, current: Id)
    requires Poised(c, gone, current)
    ensures var h := c.world.cells[current].head.value;
            ReceiveStep(AtStage(c, gone, Authorised)) == AtStage(c, gone, Received(Remote(h.control, h.payload)))
  {
    hide LookupName, ReadAllowed;
  }

  lemma Materialises(c: Controller, gone: Id, current: Id, remote: Remote)
    requires Poised(c, gone, current)
    ensures MaterialiseStep(AtStage(c, gone, Received(remote)))
            == AtStage(c.(targets := map[TARGET := Target(Some(IMPORT), SPEC.kind, Some(gone), Some(remote.control), remote.payload,
                                                          remote.payload, remote.payload)]),
                       gone, Applied(remote))
  {
    hide LookupName, Served;
    var t := Target(Some(IMPORT), SPEC.kind, Some(gone), Some(remote.control), remote.payload, remote.payload, remote.payload);
    assert c.targets[TARGET := t] == map[TARGET := t];
  }

  lemma RecordsIt(c: Controller, gone: Id, remote: Remote)
    requires c.imports == map[IMPORT := NewImport] && c.pass == Some(Listing(c.imports)) && c.agent.completed.Some?
    ensures RecordStep(AtStage(c, gone, Applied(remote)), true, true)
            == c.(imports := map[IMPORT := NewImport.(status := Some(Status(1, Some(gone), Some(remote.control), remote.payload)))],
                  pass := Some(Pass(c.imports, {}, true, false, None)))
  {
    var status := Status(1, Some(gone), Some(remote.control), remote.payload);
    assert c.imports[IMPORT := NewImport.(status := Some(status))] == map[IMPORT := NewImport.(status := Some(status))];
    assert c.imports.Keys - {IMPORT} == {};
  }

  const FetchActs: seq<Action> := [Consider(IMPORT), ReadScope, Authorise, Receive, Materialise]

  lemma FetchParts(c: Controller, gone: Id, current: Id)
    requires Poised(c, gone, current)
    ensures var h := c.world.cells[current].head.value;
            var remote := Remote(h.control, h.payload);
            && ConsiderStep(c, IMPORT) == AtStage(c, gone, FetchStage.Requested)
            && ReadScopeStep(AtStage(c, gone, FetchStage.Requested)) == AtStage(c, gone, Scoped(GrantFor(READER, current)))
            && AuthoriseStep(AtStage(c, gone, Scoped(GrantFor(READER, current)))) == AtStage(c, gone, Authorised)
            && ReceiveStep(AtStage(c, gone, Authorised)) == AtStage(c, gone, Received(remote))
            && MaterialiseStep(AtStage(c, gone, Received(remote)))
               == AtStage(c.(targets := map[TARGET := CopyFor(c.world, gone, current)]), gone, Applied(remote))
  {
    hide ConsiderStep, ReadScopeStep, AuthoriseStep, ReceiveStep, MaterialiseStep, LookupName;
    var h := c.world.cells[current].head.value;
    Considers(c, gone, current);
    Authorises(c, gone, current);
    Receives(c, gone, current);
    Materialises(c, gone, current, Remote(h.control, h.payload));
  }

  lemma FetchIsMade(c: Controller, gone: Id, current: Id, timeout: nat)
    requires Poised(c, gone, current)
    ensures var h := c.world.cells[current].head.value;
            Operate(c, FetchActs, timeout)
            == AtStage(c.(targets := map[TARGET := CopyFor(c.world, gone, current)]), gone, Applied(Remote(h.control, h.payload)))
  {
    hide ConsiderStep, ReadScopeStep, AuthoriseStep, ReceiveStep, MaterialiseStep, RecordStep, Operate, LookupName, AtStage, CopyFor;
    FetchParts(c, gone, current);
    FiveActs(c, Consider(IMPORT), ReadScope, Authorise, Receive, Materialise, timeout);
  }

  /** The grant check lets the fetch through, and it reads the other secret. */
  lemma MisdirectedFetch(c: Controller, gone: Id, current: Id, timeout: nat)
    requires Poised(c, gone, current)
    ensures Operate(c, FetchActs + [Record(true, true)], timeout)
            == c.(imports := map[IMPORT := NewImport.(status := Some(StatusFor(c.world, gone, current)))],
                  targets := map[TARGET := CopyFor(c.world, gone, current)],
                  pass := Some(Pass(c.imports, {}, true, false, None)))
  {
    hide ConsiderStep, ReadScopeStep, AuthoriseStep, ReceiveStep, MaterialiseStep, RecordStep, Operate, LookupName;
    var h := c.world.cells[current].head.value;
    var remote := Remote(h.control, h.payload);
    FetchIsMade(c, gone, current, timeout);
    OneMoreAct(c, FetchActs, Record(true, true), timeout);
    RecordsIt(c.(targets := map[TARGET := CopyFor(c.world, gone, current)]), gone, remote);
  }

  // ---------------------------------------------------------------- the stale copy

  /** The pass keeps a copy that is not the selected secret's current revision. */
  ghost predicate KeepsStaleCopy(c: Controller, gone: Id) {
    && Reconciling(c) && IMPORT in c.pass.value.todo && IMPORT in c.pass.value.listed
    && c.pass.value.listed[IMPORT].spec == SPEC
    && Judge(IMPORT, c.pass.value.listed[IMPORT], c.targets, c.agent.completed.value) == Keep(gone)
    && Published(c.world, gone, c.agent.scope.environment, c.agent.completed.value.position.digest)
    && Sequence(c.world, gone) <= c.agent.completed.value.position.through
    && TARGET in c.targets && c.targets[TARGET].control != Some(CurrentControl(c.world.cells[gone]).version)
  }

  /** The archived secret is published below the frontier, and its revision is not the other's. */
  ghost predicate Confusable(w: World, gone: Id, current: Id) {
    && gone != current && gone in w.cells && NameKey(w.cells[gone]) == (ENV, KEY) && SequenceOf(w.cells[gone]) == Some(2) && |w.cells[gone].log| > 0
    && CurrentControl(w.cells[gone]).secretId == KEY
    && Served(w, current) && w.cells[current].head.value.control != CurrentControl(w.cells[gone]).version
  }

  lemma KeepsStale(c: Controller, consumer: Id, gone: Id, current: Id)
    requires Served(c.world, current) && Confusable(c.world, gone, current)
    requires c.imports == map[IMPORT := NewImport.(status := Some(StatusFor(c.world, gone, current)))]
    requires c.targets == map[TARGET := CopyFor(c.world, gone, current)] && c.pass == Some(Listing(c.imports))
    requires Finished(c.agent, consumer, gone, false) && c.agent.completed.value.entries == map[]
    ensures KeepsStaleCopy(c, gone)
  {
    OnlyGrant(consumer, gone);
    hide GrantedUid, ReadAllowed;
  }

  lemma ReuseConfuses(w: World, gone: Id, current: Id)
    requires Reused(w, gone, current)
    ensures Confusable(w, gone, current) && Counted4(w) && w.now == 0 && LookupName(w, ENV, KEY) == Some(current) && ShortLived(w)
    ensures forall key :: key in w.changes <==> key == ChangeKey(ENV, 2, gone) || key == ChangeKey(ENV, 4, current)
  {
    hide Sound, ReadAllowed, Confusable;
    HeldCells(w, 0, 4, map[gone := 2, current := 4], Some(current));
    ReuseIsConfusable(w, gone, current);
  }

  lemma ReuseIsConfusable(w: World, gone: Id, current: Id)
    requires Reused(w, gone, current)
    ensures Confusable(w, gone, current)
  {
    hide Sound, ReadAllowed;
    HeldCells(w, 0, 4, map[gone := 2, current := 4], Some(current));
    ControlNames(w, gone);
  }

  function Both(gone: Id, current: Id): seq<ChangeKey> {
    [ChangeKey(ENV, 2, gone), ChangeKey(ENV, 4, current)]
  }

  /** A table of these two rows is one page. */
  lemma BothArePage(w: World, consumer: Id, gone: Id, current: Id)
    requires forall key :: key in w.changes <==> key == ChangeKey(ENV, 2, gone) || key == ChangeKey(ENV, 4, current)
    ensures IsPage(w, ENV, SnapshotAt(consumer, gone, w.now), Both(gone, current), None)
    ensures forall key :: key in Both(gone, current) ==> key in w.changes
  {
    var keys := Both(gone, current);
    assert forall key :: key in keys <==> key == keys[0] || key == keys[1];
  }
}
