/**
 * Why a replaced identity must not come back: a pass as another consumer records a secret that the first
 * consumer's grant does not name, fails to finish, and the first consumer's checkpoint is used again.
 */
module IdentityRace {
  import opened Domain
  import opened Revisions
  import opened RevisionInvariants
  import opened ControlPlane
  import opened ControlPlaneInvariants
  import opened IndexInvariants
  import opened NameInvariants
  import opened ControlPlaneTheorems
  import opened IndexBackfill
  import opened WriterProgress
  import opened NameReuse
  import opened AgentSync
  import opened AgentSyncTheorems
  import opened AgentGrants
  import opened ImportController
  import opened ImportControllerTheorems
  import opened ImportRuns
  import opened ImportRace

  const FORMER: Id := 6
  const HOME := ScopeOf(FORMER)
  const DAY: nat := 24 * 60 * 60 * 1000

  /** Both consumers are granted the secret. */
  const Granted2: seq<Action> := Edits(CreateGrant(1, FORMER)) + Edits(CreateGrant(2, READER))

  /** Five days after the archive the first consumer's pass takes a snapshot and saves its checkpoint. */
  function HomePass(gone: Id, current: Id): seq<Action> {
    CycleActs(None, Fresh, GrantFor(FORMER, gone), 5 * DAY, Both(gone, current)) + [EndPass, CreateImport(IMPORT, SPEC)]
  }

  /** Nine days after it the archived row has expired. */
  function Waiting(gone: Id): seq<Action> {
    Writes([Tick(4 * DAY), Expire(ChangeKey(ENV, 2, gone))])
  }

  /** As the other consumer: a snapshot without the row, an edit of its grant, the fetch, and a failure. */
  function OtherPass(gone: Id, current: Id): seq<Action> {
    CycleActs(Some(SCOPE), Fresh, GrantFor(READER, gone), 9 * DAY, [ChangeKey(ENV, 4, current)])
    + (Edits(StallGrant(3, READER)) + [EditGrants(WriteEdit(3))])
    + (FetchActs + [Record(true, true)] + [AbortPass])
  }

  function HomeAgain(gone: Id): seq<Action> {
    CycleActs(None, FromCheckpoint, GrantFor(FORMER, gone), 9 * DAY, [])
  }

  function BeforeHome(steps: seq<Step>, gone: Id, current: Id): seq<Action> {
    Granted2 + Writes(steps) + Writes([Tick(5 * DAY)]) + HomePass(gone, current) + Waiting(gone) + OtherPass(gone, current)
  }

  function RestoreActions(steps: seq<Step>, gone: Id, current: Id): seq<Action> {
    BeforeHome(steps, gone, current) + HomeAgain(gone)
  }

  // ---------------------------------------------------------------- the table as time passes

  lemma Ticks(w: World, elapsed: nat)
    ensures Apply(w, Tick(elapsed)) == w.(now := w.now + elapsed)
  {
  }

  /** What the run needs of the table: everything but the time and the archived row stays. */
  ghost predicate Aged(v: World, w: World, gone: Id, current: Id, now: nat, present: bool) {
    && w == v.(now := now, changes := w.changes)
    && (forall key :: key in w.changes <==> (key == ChangeKey(ENV, 2, gone) && present) || key == ChangeKey(ENV, 4, current))
    && (forall key :: key in w.changes ==> key in v.changes && w.changes[key] == v.changes[key])
  }

  lemma Ages(v: World, gone: Id, current: Id)
    requires Reused(v, gone, current)
    ensures Aged(v, Run(v, [Tick(5 * DAY)]), gone, current, 5 * DAY, true)
  {
    hide Reused;
    ReuseConfuses(v, gone, current);
    Ticks(v, 5 * DAY);
    assert [Tick(5 * DAY)][1..] == [];
    assert Run(v, [Tick(5 * DAY)]) == Run(Apply(v, Tick(5 * DAY)), []);
  }

  lemma Expires(v: World, w: World, gone: Id, current: Id)
    requires Reused(v, gone, current) && Aged(v, w, gone, current, 5 * DAY, true)
    ensures Aged(v, Run(w, [Tick(4 * DAY), Expire(ChangeKey(ENV, 2, gone))]), gone, current, 9 * DAY, false)
  {
    hide Apply, Run, Reused;
    var key := ChangeKey(ENV, 2, gone);
    var x := w.(now := 9 * DAY);
    Ticks(w, 4 * DAY);
    TwoSteps(w, Tick(4 * DAY), Expire(key));
    RowIsArchived(v, gone, current);
    ExpiresRow(x, key);
  }

  lemma ExpiresRow(x: World, key: ChangeKey)
    requires key in x.changes && x.changes[key].ttl.Some? && x.changes[key].ttl.value * 1000 <= x.now
    ensures Apply(x, Expire(key)) == x.(changes := x.changes - {key})
  {
  }

  lemma RowIsArchived(v: World, gone: Id, current: Id)
    requires Reused(v, gone, current)
    ensures var key := ChangeKey(ENV, 2, gone);
            key in v.changes && v.changes[key].ttl.Some? && v.changes[key].ttl.value * 1000 <= 8 * DAY
    ensures var key := ChangeKey(ENV, 4, current);
            key in v.changes && v.changes[key].record.secretUid == current
  {
    hide Sound, Served, Confusable;
    ReuseConfuses(v, gone, current);
    HeldCells(v, 0, 4, map[gone := 2, current := 4], Some(current));
    SecretFacts(v, gone, 2, map[], Archived);
    hide Reused, Holds, Secret;
    RowFacts(v, ChangeKey(ENV, 2, gone));
    RowFacts(v, ChangeKey(ENV, 4, current));
  }

  lemma AgedFacts(v: World, w: World, gone: Id, current: Id, now: nat, present: bool)
    requires Reused(v, gone, current) && Aged(v, w, gone, current, now, present)
    ensures w.now == now && Confusable(w, gone, current) && Counted4(w) && LookupName(w, ENV, KEY) == Some(current) && Served(w, current)
    ensures StatusFor(w, gone, current) == StatusFor(w, gone, current)
  {
    ReuseConfuses(v, gone, current);
    hide Reused;
  }

  // ---------------------------------------------------------------- the run

  function Records(former: Id, reader: Id): Policy {
    Policy(map[FORMER := GrantFor(FORMER, former), READER := GrantFor(READER, reader)], map[])
  }

  lemma GrantingRuns2(c: Controller, gone: Id, timeout: nat)
    requires c.policy == NoPolicy && LookupName(c.world, ENV, KEY) == Some(gone)
    ensures Operate(c, Granted2, timeout) == c.(policy := Records(gone, gone))
  {
    hide Operate;
    EditsRun(c, CreateGrant(1, FORMER), timeout);
    GrantIsCreated(NoPolicy, c.world, 1, FORMER, gone);
    var p := NoPolicy.(records := NoPolicy.records[FORMER := GrantFor(FORMER, gone)]);
    EditsRun(c.(policy := p), CreateGrant(2, READER), timeout);
    GrantIsCreated(p, c.world, 2, READER, gone);
    OperateConcat(c, Edits(CreateGrant(1, FORMER)), Edits(CreateGrant(2, READER)), timeout);
    assert p.records[READER := GrantFor(READER, gone)] == Records(gone, gone).records;
  }

  ghost predicate AtHome(c: Controller, w: World, policy: Policy, imports: map<Name, Import>, targets: map<Name, Target>, gone: Id) {
    && c.world == w && c.policy == policy && c.pass.None? && c.imports == imports && c.targets == targets
    && Rests(c.saved, FORMER, gone, 5 * DAY)
  }

  lemma ReturnsHome(c: Controller, w: World, policy: Policy, imports: map<Name, Import>, targets: map<Name, Target>, gone: Id)
    requires AtHome(c, w, policy, imports, targets, gone) && c.agent.scope == SCOPE
    ensures Restores(c, StartPass(None))
  {
  }

  lemma HomePassRuns(v: World, c: Controller, gone: Id, current: Id, timeout: nat)
    requires Reused(v, gone, current) && Aged(v, c.world, gone, current, 5 * DAY, true)
    requires c.policy == Records(gone, gone) && c.pass.None? && c.saved == Blank(HOME) && c.imports == map[] && c.targets == map[]
    ensures AtHome(Operate(c, HomePass(gone, current), timeout), c.world, c.policy, map[IMPORT := NewImport], map[], gone)
  {
    hide Operate, Reused, IsPage, Changes, Absorb, Rests;
    AgedFacts(v, c.world, gone, current, 5 * DAY, true);
    BothArePage(c.world, FORMER, gone, current);
    SnapshotCycle(c, None, FORMER, gone, Both(gone, current), timeout);
    var acts := CycleActs(None, Fresh, GrantFor(FORMER, gone), 5 * DAY, Both(gone, current));
    OneMoreAct(c, acts, EndPass, timeout);
    OneMoreAct(c, acts + [EndPass], CreateImport(IMPORT, SPEC), timeout);
    assert acts + [EndPass] + [CreateImport(IMPORT, SPEC)] == HomePass(gone, current);
    var d := Operate(c, acts, timeout);
    EndsClean(d, FORMER, gone, 5 * DAY, timeout);
    Installs(Act(d, EndPass, timeout), timeout);
  }

  lemma OneRowPage(w: World, gone: Id, current: Id)
    requires forall key :: key in w.changes <==> key == ChangeKey(ENV, 4, current)
    ensures IsPage(w, ENV, SnapshotAt(READER, gone, w.now), [ChangeKey(ENV, 4, current)], None)
  {
    var keys := [ChangeKey(ENV, 4, current)];
    assert forall key :: key in keys <==> key == keys[0];
  }

  /** A row the grant does not name leaves the cycle empty. */
  lemma NothingSelected(w: World, gone: Id, current: Id)
    requires ChangeKey(ENV, 4, current) in w.changes && w.changes[ChangeKey(ENV, 4, current)].record.secretUid == current && current != gone
    ensures Absorb(map[], Changes(w, [ChangeKey(ENV, 4, current)], READER, DigestFor(READER, gone))) == map[]
  {
    var keys := [ChangeKey(ENV, 4, current)];
    assert keys[1..] == [];
    assert Changes(w, [], READER, DigestFor(READER, gone)) == [];
    assert Changes(w, keys, READER, DigestFor(READER, gone)) == [];
  }

  /** The other identity's cycle, and the grant edit after it, leave the fetch to be made. */
  lemma OtherCycleRuns(v: World, c: Controller, gone: Id, current: Id, timeout: nat)
    requires Reused(v, gone, current) && Aged(v, c.world, gone, current, 9 * DAY, false)
    requires AtHome(c, c.world, Records(gone, gone), map[IMPORT := NewImport], map[], gone)
    ensures var d := Operate(c, OtherCycle(gone, current), timeout);
            && d.world == c.world && d.policy == c.policy && d.imports == c.imports && d.targets == c.targets && d.saved == c.saved
            && d.agent.scope == SCOPE && LookupName(d.world, ENV, KEY) == Some(current)
            && Poised(d.(policy := Records(gone, current)), gone, current)
  {
    hide Operate, PolicyNext, IsPage, Changes, Absorb, Reused, Rests;
    var keys := [ChangeKey(ENV, 4, current)];
    AgedFacts(v, c.world, gone, current, 9 * DAY, false);
    RowIsArchived(v, gone, current);
    OneRowPage(c.world, gone, current);
    NothingSelected(c.world, gone, current);
    SnapshotCycle(c, Some(SCOPE), READER, gone, keys, timeout);
  }

  function OtherCycle(gone: Id, current: Id): seq<Action> {
    CycleActs(Some(SCOPE), Fresh, GrantFor(READER, gone), 9 * DAY, [ChangeKey(ENV, 4, current)])
  }

  lemma OtherPassRuns(v: World, c: Controller, gone: Id, current: Id, timeout: nat)
    requires Reused(v, gone, current) && Aged(v, c.world, gone, current, 9 * DAY, false)
    requires AtHome(c, c.world, Records(gone, gone), map[IMPORT := NewImport], map[], gone)
    ensures Served(c.world, current) && Operate(c, OtherPass(gone, current), timeout).agent.scope == SCOPE
    ensures AtHome(Operate(c, OtherPass(gone, current), timeout), c.world, Records(gone, current),
                   map[IMPORT := NewImport.(status := Some(StatusFor(c.world, gone, current)))],
                   map[TARGET := CopyFor(c.world, gone, current)], gone)
  {
    hide Operate, PolicyNext, Reused, Rests, Poised, CycleActs, LookupName, Served;
    AgedFacts(v, c.world, gone, current, 9 * DAY, false);
    OtherCycleRuns(v, c, gone, current, timeout);
    var d := Operate(c, OtherCycle(gone, current), timeout);
    GrantMoves2(d, gone, current, timeout);
    var e := d.(policy := Records(gone, current));
    MisdirectedFetch(e, gone, current, timeout);
    OtherPassParts(c, OtherCycle(gone, current), timeout);
    OneMoreAct(e, FetchActs + [Record(true, true)], AbortPass, timeout);
  }

  /** The pass is its cycle, then the edit, then the fetch. */
  lemma OtherPassParts(c: Controller, cycle: seq<Action>, timeout: nat)
    ensures var move := Edits(StallGrant(3, READER)) + [EditGrants(WriteEdit(3))];
            var fetch := FetchActs + [Record(true, true)] + [AbortPass];
            Operate(c, cycle + move + fetch, timeout) == Operate(Operate(Operate(c, cycle, timeout), move, timeout), fetch, timeout)
  {
    hide Operate;
    var move := Edits(StallGrant(3, READER)) + [EditGrants(WriteEdit(3))];
    OperateConcat(c, cycle, move, timeout);
    OperateConcat(c, cycle + move, FetchActs + [Record(true, true)] + [AbortPass], timeout);
  }

  lemma GrantMoves2(d: Controller, gone: Id, current: Id, timeout: nat)
    requires d.policy == Records(gone, gone) && LookupName(d.world, ENV, KEY) == Some(current)
    ensures Operate(d, Edits(StallGrant(3, READER)) + [EditGrants(WriteEdit(3))], timeout) == d.(policy := Records(gone, current))
  {
    hide Operate, PolicyNext, LookupName;
    EditsRun(d, StallGrant(3, READER), timeout);
    EditStalls(d.policy, d.world, 3, READER, gone, current);
    var p := d.policy.(edits := d.policy.edits[3 := Stalled(READER, current)]);
    EditIsWritten(p, d.world, 3, READER, gone, current);
    OneMoreAct(d, Edits(StallGrant(3, READER)), EditGrants(WriteEdit(3)), timeout);
    assert p.edits - {3} == d.policy.edits;
    assert p.records[READER := GrantFor(READER, current)] == Records(gone, current).records;
  }

  lemma HomeAgainRuns(v: World, c: Controller, gone: Id, current: Id, timeout: nat)
    requires Reused(v, gone, current) && Aged(v, c.world, gone, current, 9 * DAY, false) && Served(c.world, current)
    requires AtHome(c, c.world, Records(gone, current), map[IMPORT := NewImport.(status := Some(StatusFor(c.world, gone, current)))],
                    map[TARGET := CopyFor(c.world, gone, current)], gone)
    ensures KeepsStaleCopy(Operate(c, HomeAgain(gone), timeout), gone)
  {
    hide Operate, Reused, KeepsStaleCopy;
    AgedFacts(v, c.world, gone, current, 9 * DAY, false);
    QuietCycle(c, FORMER, gone, 5 * DAY, timeout);
    KeepsStale(Operate(c, HomeAgain(gone), timeout), FORMER, gone, current);
  }

  lemma RestoreRuns(c: Controller, steps: seq<Step>, gone: Id, current: Id, timeout: nat)
    requires c.policy == NoPolicy && c.pass.None? && c.saved == Blank(HOME) && c.imports == map[] && c.targets == map[]
    requires LookupName(c.world, ENV, KEY) == Some(gone) && Reused(Run(c.world, steps), gone, current)
    ensures KeepsStaleCopy(Operate(c, RestoreActions(steps, gone, current), timeout), gone)
    ensures Restores(Operate(c, BeforeHome(steps, gone, current), timeout), StartPass(None))
  {
    hide Reused, Operate, AtHome, KeepsStaleCopy, Run, LookupName, Aged, Restores;
    var v := Run(c.world, steps);
    GrantingRuns2(c, gone, timeout);
    var c1 := c.(policy := Records(gone, gone));
    WritesRun(c1, steps, timeout);
    var c2 := c1.(world := v);
    WritesRun(c2, [Tick(5 * DAY)], timeout);
    Ages(v, gone, current);
    var c3 := c2.(world := Run(v, [Tick(5 * DAY)]));
    HomePassRuns(v, c3, gone, current, timeout);
    var c4 := Operate(c3, HomePass(gone, current), timeout);
    HomeHere(c4, c3.world, Records(gone, gone), map[IMPORT := NewImport], map[], gone);
    Expires(v, c4.world, gone, current);
    WritesRun(c4, [Tick(4 * DAY), Expire(ChangeKey(ENV, 2, gone))], timeout);
    var c5 := Operate(c4, Waiting(gone), timeout);
    HomeWaits(c4, c5, Records(gone, gone), map[IMPORT := NewImport], map[], gone);
    OtherPassRuns(v, c5, gone, current, timeout);
    var c6 := Operate(c5, OtherPass(gone, current), timeout);
    HomeHere(c6, c5.world, Records(gone, current), map[IMPORT := NewImport.(status := Some(StatusFor(c5.world, gone, current)))],
             map[TARGET := CopyFor(c5.world, gone, current)], gone);
    ReturnsHome(c6, c5.world, Records(gone, current), map[IMPORT := NewImport.(status := Some(StatusFor(c5.world, gone, current)))],
                map[TARGET := CopyFor(c5.world, gone, current)], gone);
    HomeAgainRuns(v, c6, gone, current, timeout);
    var a, b, d, e, f := Granted2, Writes(steps), Writes([Tick(5 * DAY)]), HomePass(gone, current), Waiting(gone);
    OperateConcat(c, a, b, timeout);
    OperateConcat(c, a + b, d, timeout);
    OperateConcat(c, a + b + d, e, timeout);
    OperateConcat(c, a + b + d + e, f, timeout);
    OperateConcat(c, a + b + d + e + f, OtherPass(gone, current), timeout);
    OperateConcat(c, a + b + d + e + f + OtherPass(gone, current), HomeAgain(gone), timeout);
  }

  lemma HomeHere(c: Controller, w: World, policy: Policy, imports: map<Name, Import>, targets: map<Name, Target>, gone: Id)
    requires AtHome(c, w, policy, imports, targets, gone)
    ensures c.world == w
  {
  }

  lemma HomeWaits(c: Controller, d: Controller, policy: Policy, imports: map<Name, Import>, targets: map<Name, Target>, gone: Id)
    requires AtHome(c, c.world, policy, imports, targets, gone) && d == c.(world := d.world)
    ensures AtHome(d, d.world, policy, imports, targets, gone)
  {
  }

  /**
   * A run after which an import is skipped although its copy is another secret's: a pass returns to the first
   * consumer's checkpoint.
   */
  lemma RestoredIdentityBreaksImports(timeout: nat) returns (before: seq<Step>, steps: seq<Step>, gone: Id, current: Id)
    ensures KeepsStaleCopy(Operate(Installed(before, HOME), RestoreActions(steps, gone, current), timeout), gone)
    ensures Restores(Operate(Installed(before, HOME), BeforeHome(steps, gone, current), timeout), StartPass(None))
    ensures forall lag :: Allowance(timeout, lag) ==> !Orderly(Installed(before, HOME), RestoreActions(steps, gone, current), timeout, lag)
  {
    hide Reused, Operate, KeepsStaleCopy, Run, Holds, Secret, Orderly, Restores;
    before, gone := OneSecret();
    RunKeepsApartFromGenesis(before);
    steps, current := Reuses(Run(Genesis, before), gone);
    HeldName(Run(Genesis, before), 0, 1, map[gone := 1], Some(gone));
    var c := Installed(before, HOME);
    RestoreRuns(c, steps, gone, current, timeout);
    forall lag | Allowance(timeout, lag) ensures !Orderly(c, RestoreActions(steps, gone, current), timeout, lag) {
      if Orderly(c, RestoreActions(steps, gone, current), timeout, lag) {
        StaleIsKept(Operate(c, RestoreActions(steps, gone, current), timeout), gone);
        SkippedImportsAreCurrent(before, HOME, RestoreActions(steps, gone, current), timeout, lag, IMPORT);
        StaleIsNotCurrent(Operate(c, RestoreActions(steps, gone, current), timeout), gone);
      }
    }
  }
}
