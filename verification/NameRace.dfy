/**
 * Where names stop being identities, and where reads stop following the ACL: one run, twice. An archive is
 * under way. A first update, whose If-Match names the archive's own revision, resolves the name before the
 * archive commits and reads the head after it; it then gives the archived secret an ACL. The id is no
 * secret: the revision history lists PREPARED revisions (src/repositories/dynamo.ts:1357-1380,
 * src/handlers/admin.ts:795-815). A second update does the same one revision later. Its If-Match has to name
 * the first update's revision before that id is issued; then it replaces the ACL without finding the first
 * reader's row.
 */
module NameRace {
  import opened Domain
  import opened Revisions
  import opened RevisionInvariants
  import opened ControlPlane
  import opened ControlPlaneInvariants
  import opened IndexInvariants
  import opened NameInvariants
  import opened ControlPlaneTheorems
  import opened NameIdentity
  import opened AclDiscipline
  import opened AclReads
  import opened CallerRules
  import opened RaceRun

  lemma {:induction false} KeepsFrom(second: Request, k: nat, end: nat)
    requires k <= end <= |Race(second)|
    requires forall j :: k <= j < end ==> Keeps(Moment(second, j), Race(second)[j], Issued)
    ensures RunKeeps(Moment(second, k), Race(second)[k..end], Issued)
    decreases end - k
  {
    hide Apply, Race, Keeps;
    if k < end {
      assert Race(second)[k..end][0] == Race(second)[k] && Race(second)[k..end][1..] == Race(second)[k + 1..end];
      KeepsFrom(second, k + 1, end);
    }
  }

  /** Every If-Match of the run up to the first update's commit names an id that has been issued. */
  lemma FirstRaceIsIssued()
    ensures RunKeeps(Genesis, Opening(Remove) + Middle, Issued)
  {
    hide Apply, Moment;
    var steps := Race(Remove);
    forall j | 0 <= j < 21 ensures Keeps(Moment(Remove, j), steps[j], Issued) {
      if steps[j].StartByName? {
        assert j == 6 || j == 12 || j == 13;
        Created(Remove);
        ArchiveStored(Remove);
        BothResolved(Remove);
      }
    }
    KeepsFrom(Remove, 0, 21);
    assert steps[0..21] == Opening(Remove) + Middle;
    StartsEmpty(Remove);
  }

  /**
   * A run whose requests all name issued ids, after which a secret's current ACL names a reader although
   * its name resolves to nothing.
   */
  lemma RaceBreaksNames()
    ensures var steps := Opening(Remove) + Middle;
            var w := Run(Genesis, steps);
            && RunKeeps(Genesis, steps, Issued)
            && 0 in w.cells && |w.cells[0].log| > 0 && CurrentControl(w.cells[0]).acl == map[READER := true]
            && NameKey(w.cells[0]) !in w.names && !Identity(w)
  {
    hide Apply, Moment;
    FirstRaceIsIssued();
    Granted(Remove);
    MomentIsRun(Remove, 0, 21);
    assert Race(Remove)[0..21] == Opening(Remove) + Middle;
    StartsEmpty(Remove);
    hide Race, Opening, RunKeeps;
    var w := Moment(Remove, 21);
    assert READER in CurrentControl(w.cells[0]).acl;
    assert !Identified(w, 0);
  }

  /**
   * The name is resolved while it still names the secret, and the reader is let in afterwards although the
   * current ACL names only another consumer: the second update named a revision before its id was issued.
   */
  lemma ForeseenReplacementBreaksReads()
    ensures var before, between := Opening(Replace), Middle + Ending;
            var resolved := LookupName(Run(Genesis, before), "env", "key");
            var w := Run(Run(Genesis, before), between);
            && ReadAllowed(w, resolved, READER, "env", "key")
            && resolved == Some(0) && 0 in w.cells && |w.cells[0].log| > 0 && CurrentControl(w.cells[0]).acl == map[OTHER := true]
            && !ReadAgrees(w, resolved, READER, "env", "key") && !NeverStrands(Run(Genesis, before), between, 0)
            && !(RunKeeps(Genesis, before, Issued) && RunKeeps(Run(Genesis, before), between, Issued))
  {
    var before, between := Opening(Replace), Middle + Ending;
    hide Apply, Moment, Run, RunKeeps, NeverStrands;
    assert Race(Replace)[0..14] == before && Race(Replace)[14..29] == between;
    MomentIsRun(Replace, 0, 14);
    MomentIsRun(Replace, 14, 29);
    StartsEmpty(Replace);
    BothResolved(Replace);
    NextIdOf(Moment(Replace, 14), T14(Replace));
    Replaced();
    hide Race, Opening;
    assert LookupName(Moment(Replace, 14), "env", "key") == Some(0);
    assert READER !in Readers(CurrentControl(Moment(Replace, 29).cells[0]).acl);
    if NeverStrands(Run(Genesis, before), between, 0) { ReadFollowsTheAcl(before, between, READER, "env", "key"); }
    if RunKeeps(Genesis, before, Issued) && RunKeeps(Run(Genesis, before), between, Issued) {
      ReadsFollowTheAcl(before, between, READER, "env", "key");
    }
  }
}
