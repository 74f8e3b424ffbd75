/**
 * Why grant edits must not stall: an edit resolves a secret's name before the secret is archived, and writes
 * after the name has been given to another secret, the grant has followed it, and an import has fetched it.
 */
module ImportRace {
  import opened Domain
  import opened Revisions
  import opened RevisionInvariants
  import opened ControlPlane
  import opened ControlPlaneTheorems
  import opened VersionIdentity
  import opened NameReuse
  import opened AgentSync
  import opened AgentSyncTheorems
  import opened AgentGrants
  import opened ImportController
  import opened ImportControllerTheorems
  import opened ImportRuns
  import opened ImportFetches

  const SCOPE := ScopeOf(READER)

  /** A grant for the secret, and an update of it that has resolved its name and stalls. */
  const Granting: seq<Action> := Edits(CreateGrant(1, READER)) + Edits(StallGrant(2, READER))

  /** The first pass finds nothing to import; its checkpoint is saved. */
  function FirstPass(gone: Id, current: Id): seq<Action> {
    CycleActs(None, Fresh, GrantFor(READER, gone), 0, Both(gone, current)) + [EndPass, CreateImport(IMPORT, SPEC)]
  }

  /** The second pass synchronizes; an edit moves the grant to the secret that has the name now; the pass fetches it. */
  function SecondPass(gone: Id): seq<Action> {
    CycleActs(None, FromCheckpoint, GrantFor(READER, gone), 0, [])
    + (Edits(StallGrant(3, READER)) + [EditGrants(WriteEdit(3))])
    + (FetchActs + [Record(true, true)] + [EndPass])
  }

  /** The second pass up to the moment before it reads the head. */
  function UpToRead(gone: Id): seq<Action> {
    CycleActs(None, FromCheckpoint, GrantFor(READER, gone), 0, []) + (Edits(StallGrant(3, READER)) + [EditGrants(WriteEdit(3))])
    + [Consider(IMPORT), ReadScope, Authorise]
  }

  function BeforeRead(steps: seq<Step>, gone: Id, current: Id): seq<Action> {
    Granting + Writes(steps) + FirstPass(gone, current) + UpToRead(gone)
  }

  /** The stalled edit writes, and the third pass synchronizes. */
  function ThirdPass(gone: Id): seq<Action> {
    [EditGrants(WriteEdit(2))] + CycleActs(None, FromCheckpoint, GrantFor(READER, gone), 0, [])
  }

  function BeforeThird(steps: seq<Step>, gone: Id, current: Id): seq<Action> {
    Granting + Writes(steps) + FirstPass(gone, current) + SecondPass(gone)
  }

  function RaceActions(steps: seq<Step>, gone: Id, current: Id): seq<Action> {
    BeforeThird(steps, gone, current) + ThirdPass(gone)
  }

  // ---------------------------------------------------------------- the run

  /** Between passes: the table, the records, and the checkpoint of the first snapshot. */
  ghost predicate Waits(c: Controller, v: World, policy: Policy, imports: map<Name, Import>, targets: map<Name, Target>, gone: Id) {
    c.world == v && c.policy == policy && c.pass.None? && c.imports == imports && c.targets == targets && Rests(c.saved, READER, gone, 0)
  }

  function PolicyFor(uid: Id, gone: Id): Policy {
    Policy(map[READER := GrantFor(READER, uid)], map[2 := Stalled(READER, gone)])
  }

  lemma GrantingRuns(c: Controller, gone: Id, timeout: nat)
    requires c.policy == NoPolicy && LookupName(c.world, ENV, KEY) == Some(gone)
    ensures Operate(c, Granting, timeout) == c.(policy := PolicyFor(gone, gone))
  {
    hide Operate;
    EditsRun(c, CreateGrant(1, READER), timeout);
    GrantIsCreated(NoPolicy, c.world, 1, READER, gone);
    var p := NoPolicy.(records := NoPolicy.records[READER := GrantFor(READER, gone)]);
    var d := c.(policy := p);
    EditsRun(d, StallGrant(2, READER), timeout);
    EditStalls(p, c.world, 2, READER, gone, gone);
    OperateConcat(c, Edits(CreateGrant(1, READER)), Edits(StallGrant(2, READER)), timeout);
    assert p.(edits := p.edits[2 := Stalled(READER, gone)]) == PolicyFor(gone, gone);
  }

  lemma FirstPassRuns(c: Controller, gone: Id, current: Id, timeout: nat)
    requires Reused(c.world, gone, current) && c.policy == PolicyFor(gone, gone) && c.pass.None? && c.saved == Blank(SCOPE)
    requires c.imports == map[] && c.targets == map[]
    ensures Waits(Operate(c, FirstPass(gone, current), timeout), c.world, c.policy, map[IMPORT := NewImport], map[], gone)
  {
    hide Operate, Reused, IsPage, Changes, Absorb, Rests;
    ReuseConfuses(c.world, gone, current);
    BothArePage(c.world, READER, gone, current);
    SnapshotCycle(c, None, READER, gone, Both(gone, current), timeout);
    var acts := CycleActs(None, Fresh, GrantFor(READER, gone), 0, Both(gone, current));
    var d := Operate(c, acts, timeout);
    OneMoreAct(c, acts, EndPass, timeout);
    OneMoreAct(c, acts + [EndPass], CreateImport(IMPORT, SPEC), timeout);
    assert acts + [EndPass] + [CreateImport(IMPORT, SPEC)] == FirstPass(gone, current);
    EndsClean(d, READER, gone, 0, timeout);
    Installs(Act(d, EndPass, timeout), timeout);
  }

  /** A pass with nothing left to do and no failure saves its agent. */
  lemma EndsClean(d: Controller, consumer: Id, gone: Id, taken: nat, timeout: nat)
    requires d.pass.Some? && d.pass.value.ready && d.pass.value.todo == {} && d.pass.value.work.None? && !d.pass.value.failed
    requires d.agent.completed.Some? && d.agent.cycle.None? && d.agent.pending.None? && Rests(d.agent.(completed := None), consumer, gone, taken)
    ensures Act(d, EndPass, timeout) == d.(saved := d.agent.(completed := None), pass := None)
  {
  }

  lemma Installs(d: Controller, timeout: nat)
    requires d.imports == map[]
    ensures Act(d, CreateImport(IMPORT, SPEC), timeout) == d.(imports := map[IMPORT := NewImport])
  {
    assert d.imports[IMPORT := NewImport] == map[IMPORT := NewImport];
  }

  lemma SecondPassRuns(c: Controller, gone: Id, current: Id, timeout: nat)
    requires Reused(c.world, gone, current)
    requires Waits(c, c.world, PolicyFor(gone, gone), map[IMPORT := NewImport], map[], gone)
    ensures Served(c.world, current)
    ensures Waits(Operate(c, SecondPass(gone), timeout), c.world, PolicyFor(current, gone),
                  map[IMPORT := NewImport.(status := Some(StatusFor(c.world, gone, current)))],
                  map[TARGET := CopyFor(c.world, gone, current)], gone)
  {
    hide Operate, Reused, PolicyNext;
    ReuseConfuses(c.world, gone, current);
    QuietCycle(c, READER, gone, 0, timeout);
    var cycle := CycleActs(None, FromCheckpoint, GrantFor(READER, gone), 0, []);
    var d := Operate(c, cycle, timeout);
    GrantMoves(d, gone, current, timeout);
    var move := Edits(StallGrant(3, READER)) + [EditGrants(WriteEdit(3))];
    var e := d.(policy := PolicyFor(current, gone));
    MisdirectedFetch(e, gone, current, timeout);
    OperateConcat(c, cycle, move, timeout);
    OperateConcat(c, cycle + move, FetchActs + [Record(true, true)] + [EndPass], timeout);
    OneMoreAct(e, FetchActs + [Record(true, true)], EndPass, timeout);
    EndsClean(Operate(e, FetchActs + [Record(true, true)], timeout), READER, gone, 0, timeout);
  }

  /** The grant check lets the fetch through, although the name now belongs to another secret than the selected one. */
  lemma ReadIsOvertaken(c: Controller, gone: Id, current: Id, timeout: nat)
    requires Reused(c.world, gone, current)
    requires Waits(c, c.world, PolicyFor(gone, gone), map[IMPORT := NewImport], map[], gone)
    ensures Overtaken(Operate(c, UpToRead(gone), timeout)) && !Accurate(Operate(c, UpToRead(gone), timeout))
  {
    hide Operate, Reused, PolicyNext;
    ReuseConfuses(c.world, gone, current);
    QuietCycle(c, READER, gone, 0, timeout);
    var cycle := CycleActs(None, FromCheckpoint, GrantFor(READER, gone), 0, []);
    var d := Operate(c, cycle, timeout);
    GrantMoves(d, gone, current, timeout);
    var move := Edits(StallGrant(3, READER)) + [EditGrants(WriteEdit(3))];
    var e := d.(policy := PolicyFor(current, gone));
    OperateConcat(c, cycle, move, timeout);
    OperateConcat(c, cycle + move, [Consider(IMPORT), ReadScope, Authorise], timeout);
    ReachesRead(e, gone, current, timeout);
    ReuseServes(c.world, gone, current);
    PoisedIsOvertaken(e, gone, current);
  }

  lemma ReachesRead(e: Controller, gone: Id, current: Id, timeout: nat)
    requires Poised(e, gone, current)
    ensures Operate(e, [Consider(IMPORT), ReadScope, Authorise], timeout) == AtStage(e, gone, Authorised)
  {
    hide ConsiderStep, ReadScopeStep, AuthoriseStep, Operate, LookupName, AtStage;
    FetchParts(e, gone, current);
    NoActs(e, timeout);
    OneMoreAct(e, [], Consider(IMPORT), timeout);
    OneMoreAct(e, [Consider(IMPORT)], ReadScope, timeout);
    OneMoreAct(e, [Consider(IMPORT), ReadScope], Authorise, timeout);
    assert [] + [Consider(IMPORT)] == [Consider(IMPORT)] && [Consider(IMPORT)] + [ReadScope] == [Consider(IMPORT), ReadScope]
           && [Consider(IMPORT), ReadScope] + [Authorise] == [Consider(IMPORT), ReadScope, Authorise];
  }

  lemma ReuseServes(w: World, gone: Id, current: Id)
    requires Reused(w, gone, current)
    ensures Serves(w, current, READER)
  {
    hide Sound, ReadAllowed;
  }

  lemma PoisedIsOvertaken(e: Controller, gone: Id, current: Id)
    requires Poised(e, gone, current) && Confusable(e.world, gone, current) && Serves(e.world, current, READER)
    requires e.agent.completed.value.position.through == 4
    ensures Overtaken(AtStage(e, gone, Authorised)) && !Accurate(AtStage(e, gone, Authorised))
  {
    hide ReadAllowed, Serves;
  }

  lemma GrantMoves(d: Controller, gone: Id, current: Id, timeout: nat)
    requires d.policy == PolicyFor(gone, gone) && LookupName(d.world, ENV, KEY) == Some(current)
    ensures Operate(d, Edits(StallGrant(3, READER)) + [EditGrants(WriteEdit(3))], timeout) == d.(policy := PolicyFor(current, gone))
  {
    hide Operate, PolicyNext, LookupName;
    EditsRun(d, StallGrant(3, READER), timeout);
    EditStalls(d.policy, d.world, 3, READER, gone, current);
    var p := d.policy.(edits := d.policy.edits[3 := Stalled(READER, current)]);
    EditIsWritten(p, d.world, 3, READER, gone, current);
    OneMoreAct(d, Edits(StallGrant(3, READER)), EditGrants(WriteEdit(3)), timeout);
    assert p.edits - {3} == d.policy.edits;
    assert p.records[READER := GrantFor(READER, current)] == PolicyFor(current, gone).records;
  }

  lemma ThirdPassRuns(c: Controller, gone: Id, current: Id, timeout: nat)
    requires Reused(c.world, gone, current) && Served(c.world, current)
    requires Waits(c, c.world, PolicyFor(current, gone), map[IMPORT := NewImport.(status := Some(StatusFor(c.world, gone, current)))],
                   map[TARGET := CopyFor(c.world, gone, current)], gone)
    ensures KeepsStaleCopy(Operate(c, ThirdPass(gone), timeout), gone)
  {
    hide Operate, Reused, PolicyNext, KeepsStaleCopy;
    ReuseConfuses(c.world, gone, current);
    EditIsWritten(c.policy, c.world, 2, READER, current, gone);
    var d := Act(c, EditGrants(WriteEdit(2)), timeout);
    NoActs(c, timeout);
    OneMoreAct(c, [], EditGrants(WriteEdit(2)), timeout);
    assert [] + [EditGrants(WriteEdit(2))] == [EditGrants(WriteEdit(2))];
    OperateConcat(c, [EditGrants(WriteEdit(2))], CycleActs(None, FromCheckpoint, GrantFor(READER, gone), 0, []), timeout);
    QuietCycle(d, READER, gone, 0, timeout);
    KeepsStale(Operate(c, ThirdPass(gone), timeout), READER, gone, current);
  }

  /**
   * A run of the table, of three grant edits and of a controller, after which an import is skipped although
   * its copy is another secret's: the write of the stalled edit revives the archived secret.
   */
  lemma StalledEditBreaksImports(timeout: nat) returns (before: seq<Step>, steps: seq<Step>, gone: Id, current: Id)
    ensures KeepsStaleCopy(Operate(Installed(before, SCOPE), RaceActions(steps, gone, current), timeout), gone)
    ensures var c := Operate(Installed(before, SCOPE), BeforeThird(steps, gone, current), timeout); Revives(c.world, c.policy, WriteEdit(2))
    ensures var c := Operate(Installed(before, SCOPE), BeforeRead(steps, gone, current), timeout); Overtaken(c) && !Accurate(c)
    ensures forall lag :: Allowance(timeout, lag) ==> !Orderly(Installed(before, SCOPE), RaceActions(steps, gone, current), timeout, lag)
  {
    hide Reused, Operate, Waits, KeepsStaleCopy, Run, Holds, Secret, Orderly, Revives, Overtaken, Accurate, BeforeRead;
    before, gone := OneSecret();
    RunKeepsApartFromGenesis(before);
    steps, current := Reuses(Run(Genesis, before), gone);
    HeldName(Run(Genesis, before), 0, 1, map[gone := 1], Some(gone));
    var c := Installed(before, SCOPE);
    RaceRuns(c, steps, gone, current, timeout);
    forall lag | Allowance(timeout, lag) ensures !Orderly(c, RaceActions(steps, gone, current), timeout, lag) {
      if Orderly(c, RaceActions(steps, gone, current), timeout, lag) {
        StaleIsKept(Operate(c, RaceActions(steps, gone, current), timeout), gone);
        SkippedImportsAreCurrent(before, SCOPE, RaceActions(steps, gone, current), timeout, lag, IMPORT);
        StaleIsNotCurrent(Operate(c, RaceActions(steps, gone, current), timeout), gone);
      }
    }
  }

  lemma StaleIsKept(c: Controller, gone: Id)
    requires KeepsStaleCopy(c, gone)
    ensures Reconciling(c) && IMPORT in c.pass.value.todo && IMPORT in c.pass.value.listed
    ensures Judge(IMPORT, c.pass.value.listed[IMPORT], c.targets, c.agent.completed.value) == Keep(gone)
  {
    hide Judge;
  }

  lemma StaleIsNotCurrent(c: Controller, gone: Id)
    requires KeepsStaleCopy(c, gone)
    ensures !CopyIsCurrent(c, IMPORT, gone)
  {
  }

  lemma RaceRuns(c: Controller, steps: seq<Step>, gone: Id, current: Id, timeout: nat)
    requires c.policy == NoPolicy && c.pass.None? && c.saved == Blank(SCOPE) && c.imports == map[] && c.targets == map[]
    requires LookupName(c.world, ENV, KEY) == Some(gone) && Reused(Run(c.world, steps), gone, current)
    ensures KeepsStaleCopy(Operate(c, RaceActions(steps, gone, current), timeout), gone)
    ensures var d := Operate(c, BeforeThird(steps, gone, current), timeout); Revives(d.world, d.policy, WriteEdit(2))
    ensures var d := Operate(c, BeforeRead(steps, gone, current), timeout); Overtaken(d) && !Accurate(d)
  {
    hide Reused, Operate, Waits, KeepsStaleCopy, Run, LookupName, Revives, Overtaken, Accurate, UpToRead;
    GrantingRuns(c, gone, timeout);
    var c1 := c.(policy := PolicyFor(gone, gone));
    WritesRun(c1, steps, timeout);
    var c2 := c1.(world := Run(c.world, steps));
    FirstPassRuns(c2, gone, current, timeout);
    var c3 := Operate(c2, FirstPass(gone, current), timeout);
    WaitsHere(c3, c2.world, c2.policy, map[IMPORT := NewImport], map[], gone);
    SecondPassRuns(c3, gone, current, timeout);
    ReadIsOvertaken(c3, gone, current, timeout);
    OperateConcat(c, Granting + Writes(steps) + FirstPass(gone, current), UpToRead(gone), timeout);
    var c4 := Operate(c3, SecondPass(gone), timeout);
    WaitsHere(c4, c3.world, PolicyFor(current, gone), map[IMPORT := NewImport.(status := Some(StatusFor(c3.world, gone, current)))],
              map[TARGET := CopyFor(c3.world, gone, current)], gone);
    ThirdPassRuns(c4, gone, current, timeout);
    StalledRevives(c4.world, gone, current);
    OperateConcat(c, Granting, Writes(steps), timeout);
    OperateConcat(c, Granting + Writes(steps), FirstPass(gone, current), timeout);
    OperateConcat(c, Granting + Writes(steps) + FirstPass(gone, current), SecondPass(gone), timeout);
    OperateConcat(c, Granting + Writes(steps) + FirstPass(gone, current) + SecondPass(gone), ThirdPass(gone), timeout);
  }

  lemma StalledRevives(w: World, gone: Id, current: Id)
    requires Reused(w, gone, current)
    ensures Revives(w, PolicyFor(current, gone), WriteEdit(2))
  {
    hide Reused;
    ReuseConfuses(w, gone, current);
    assert gone in Stalled(READER, gone).entries;
  }

  lemma WaitsHere(c: Controller, v: World, policy: Policy, imports: map<Name, Import>, targets: map<Name, Target>, gone: Id)
    requires Waits(c, v, policy, imports, targets, gone)
    ensures c.world == v && c.policy == policy
  {
  }
}
