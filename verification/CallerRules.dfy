/** What callers get who keep one of the two rules: reads that follow the ACL, and names that are identities. */
module CallerRules {
  import opened Domain
  import opened Revisions
  import opened RevisionInvariants
  import opened AccessInvariants
  import opened ControlPlane
  import opened ControlPlaneInvariants
  import opened IndexInvariants
  import opened NameInvariants
  import opened ControlPlaneTheorems
  import opened NameIdentity
  import opened SyncIndex
  import opened AclDiscipline
  import opened AclReads

  /**
   * If no request that changes an ACL names a revision before its id is issued, a read is authorised exactly
   * when the current ACL of the secret that the name resolved to grants it.
   */
  lemma ReadsFollowTheAcl(before: seq<Step>, between: seq<Step>, consumer: Id, environment: Name, secretId: Name)
    requires RunKeeps(Genesis, before, Issued) && RunKeeps(Run(Genesis, before), between, Issued)
    ensures ReadAgrees(Run(Run(Genesis, before), between), LookupName(Run(Genesis, before), environment, secretId),
                       consumer, environment, secretId)
  {
    GenesisDisciplined(Issued);
    GenesisSound();
    hide CellsOk, NamesOk, IndexInv, NamedAll, DisciplinedAll, RunKeeps, Run, NeverRewritesUnnamed, NeverStrands, ReadAgrees, AccessOk, Agrees;
    DisciplineFrom(Genesis, before, Issued);
    RunIsNamed(Genesis, before);
    var u := Run(Genesis, before);
    DisciplineFrom(u, between, Issued);
    if LookupName(u, environment, secretId).Some? {
      LookupIsCell(u, environment, secretId);
      ResolvedAgrees(u, LookupName(u, environment, secretId).value);
      AccountsFrom(u, between, LookupName(u, environment, secretId).value);
    }
    ReadFollowsTheAcl(before, between, consumer, environment, secretId);
  }

  /** If every request that replaces an ACL names a committed revision, names are identities. */
  lemma NamesStayIdentities(steps: seq<Step>, name: (Name, Name), uid: Id)
    requires RunKeeps(Genesis, steps, CommittedRevision)
    ensures NamesIdentify(Run(Genesis, steps), name, uid)
  {
    hide RunKeeps, Run, NeverGrantsUnnamed, NamesIdentify;
    DisciplineSuffices(steps, CommittedRevision);
    NamesAreIdentities(steps, name, uid);
  }
}
