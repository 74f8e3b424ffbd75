/** What the table looks like to the reconciliation of an agent's access: its secrets, ACLs and names. */
module TableAccess {
  import opened Domain
  import opened Revisions
  import opened RevisionInvariants
  import opened AccessInvariants
  import opened ControlPlane
  import opened ControlPlaneInvariants
  import opened IndexInvariants
  import opened NameInvariants
  import opened ControlPlaneTheorems
  import opened NameIdentity
  import opened AclDiscipline
  import opened AclReads
  import AgentAccess

  /** The committed secrets of one environment, with their current ACLs. */
  function Secrets(w: World, environment: Name): map<Id, AgentAccess.Secret> {
    map uid | uid in w.cells && w.cells[uid].environment == environment && |w.cells[uid].log| > 0 ::
      AgentAccess.Secret(w.cells[uid].secretId, CurrentControl(w.cells[uid]).state == Archived, CurrentControl(w.cells[uid]).acl)
  }

  /** The names that resolve to a committed secret. */
  function Names(w: World, environment: Name): map<Name, Id> {
    var known := set key | key in w.names :: key.1;
    map name | name in known && (environment, name) in w.names && w.names[(environment, name)] in Secrets(w, environment) ::
      w.names[(environment, name)]
  }

  /** The secrets with a readable access row of the consumer, as the consumer's rows are listed. */
  function Rows(w: World, environment: Name, consumer: Id): set<Id> {
    set uid | uid in w.cells && w.cells[uid].environment == environment && |w.cells[uid].log| > 0
              && consumer in w.cells[uid].access && Readable(w.cells[uid].access[consumer])
  }

  /** Every ACL entry grants read, as the parsers require of a grant. */
  predicate GrantsRead(w: World) {
    forall uid, k :: uid in w.cells && |w.cells[uid].log| > 0 && k in CurrentControl(w.cells[uid]).acl ==> CurrentControl(w.cells[uid]).acl[k]
  }

  /**
   * The table after any run whose ACL replacements name committed revisions is a valid starting point, and
   * the consumer's readable rows are the secrets whose ACL lets it read.
   */
  lemma ReconcileMayStart(steps: seq<Step>, environment: Name, consumer: Id)
    requires RunKeeps(Genesis, steps, CommittedRevision) && GrantsRead(Run(Genesis, steps))
    ensures var w := Run(Genesis, steps);
            && AgentAccess.WellNamed(Secrets(w, environment), Names(w, environment))
            && Rows(w, environment, consumer) == AgentAccess.ReadableSecrets(Secrets(w, environment), consumer)
  {
    GenesisSound();
    hide CellsOk, NamesOk, IndexInv, NamedAll, AllFollow, Identity, RunKeeps, Run, NeverGrantsUnnamed, NeverRewritesUnnamed;
    DisciplineSuffices(steps, CommittedRevision);
    GenesisDisciplined(CommittedRevision);
    IdentityForbidsRewritesIn(Genesis, steps);
    RunIsNamed(Genesis, steps);
    NothingToFollow();
    FollowFrom(Genesis, steps);
    SecretsAreWellNamed(Run(Genesis, steps), environment);
    RowsAreReaders(Run(Genesis, steps), environment, consumer);
  }

  lemma NothingToFollow()
    ensures AllFollow(Genesis)
  {
  }

  lemma SecretsAreWellNamed(w: World, environment: Name)
    requires CellsOk(w) && NamesOk(w) && NamedAll(w) && Identity(w) && GrantsRead(w)
    ensures AgentAccess.WellNamed(Secrets(w, environment), Names(w, environment))
  {
    hide CellInv, NamedInv, CellsOk, NamedAll;
    forall name | name in Names(w, environment) ensures !Secrets(w, environment)[Names(w, environment)[name]].archived {
      NamedIsLive(w, Names(w, environment)[name]);
    }
    forall uid | uid in Secrets(w, environment) && Secrets(w, environment)[uid].acl != map[]
      ensures AgentAccess.Names(Secrets(w, environment), Names(w, environment), uid)
    {
      assert Identified(w, uid);
      assert NameKey(w.cells[uid]) in w.names && w.cells[uid].secretId == NameKey(w.cells[uid]).1;
    }
  }

  lemma NamedIsLive(w: World, uid: Id)
    requires NamedAll(w) && uid in w.cells && Resolves(w, uid) && |w.cells[uid].log| > 0
    ensures CurrentControl(w.cells[uid]).state != Archived
  {
    NamedFacts(w, uid);
  }

  lemma RowsAreReaders(w: World, environment: Name, consumer: Id)
    requires AllFollow(w)
    ensures Rows(w, environment, consumer) == AgentAccess.ReadableSecrets(Secrets(w, environment), consumer)
  {
    hide AccessOk;
    forall uid ensures uid in Rows(w, environment, consumer) <==> uid in AgentAccess.ReadableSecrets(Secrets(w, environment), consumer) {
      if uid in w.cells { CellReaders(w, uid, consumer); }
    }
  }

  lemma CellReaders(w: World, uid: Id, consumer: Id)
    requires AllFollow(w) && uid in w.cells
    ensures var c := w.cells[uid];
            |c.log| > 0 ==> (consumer in c.access && Readable(c.access[consumer])
                             <==> consumer in CurrentControl(c).acl && CurrentControl(c).acl[consumer])
  {
    var c := w.cells[uid];
    assert consumer in ReadableBy(c.access) <==> consumer in c.access && Readable(c.access[consumer]);
  }
}
