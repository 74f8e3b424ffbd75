/**
 * What recovery can take back: the head of a create that never committed, and nothing of a secret that has a
 * revision. An update that expires with the lease keeps it until the next writer takes it over.
 */
module LeaseRecovery {
  import opened Domain
  import opened Revisions
  import opened RevisionInvariants
  import opened ControlPlane
  import opened ControlPlaneInvariants
  import opened IndexInvariants
  import opened NameInvariants
  import opened ControlPlaneTheorems
  import opened NameIdentity
  import opened SyncIndex
  import opened ControlTable
  import opened IndexBackfill
  import opened AclReads

  /** The operation is a create that has not committed and still holds the lease of the HEAD it prepared. */
  predicate HoldsOwnCreate(c: Cell, o: Id) {
    && o in c.ops && !c.ops[o].Committed? && MutationPrepared(c.ops[o]).Some? && MutationPrepared(c.ops[o]).value.base.None?
    && c.head.Some? && c.head.value.control == MutationPrepared(c.ops[o]).value.control.version
    && c.head.value.lease.Some? && c.head.value.lease.value.owner == o
  }

  /** An abort changes the table exactly for a marked create that still holds its own HEAD and LOOKUP. */
  lemma AbortIsExact(w: World, uid: Id, o: Id)
    requires Sound(w) && uid in w.cells
    ensures AbortStep(w, uid, o) != w <==> HasRetryable(w.cells[uid], o) && HoldsOwnCreate(w.cells[uid], o) && Resolves(w, uid)
  {
    hide CellInv, IndexInv, NamesOk, HasRetryable;
    CellFacts(w, uid);
    HolderIsCreate(w.cells[uid], o, w.nextId);
    var c := w.cells[uid];
    if AbortAllowed(c, o, Resolves(w, uid)) {
      assert AbortStep(w, uid, o).cells[uid].head.None? && c.head.Some?;
    }
  }

  lemma HolderIsCreate(c: Cell, o: Id, n: Id)
    requires CellInv(c, n)
    ensures c.head.Some? && !c.head.value.ready && c.head.value.lease.Some? && c.head.value.lease.value.owner == o <==> HoldsOwnCreate(c, o)
  {
  }

  /** The secret has a revision. */
  ghost predicate HasRevision(w: World, uid: Id) {
    uid in w.cells && |w.cells[uid].log| > 0
  }

  lemma PresentWithRevision(w: World, uid: Id)
    requires HasRevision(w, uid)
    ensures uid in w.cells
  {
  }

  /** An update's abort is refused: the secret keeps its HEAD, whoever holds the lease. */
  lemma UpdateIsNeverAborted(w: World, uid: Id, o: Id)
    requires Sound(w) && HasRevision(w, uid)
    ensures AbortStep(w, uid, o) == w && !AbortAllowed(w.cells[uid], o, Resolves(w, uid)) && w.cells[uid].head.Some?
  {
    hide CellInv, IndexInv, NamesOk, HasRetryable;
    CellFacts(w, uid);
    LogFacts(w.cells[uid], w.nextId);
  }

  lemma StepKeepsRevision(w: World, step: Step, uid: Id)
    requires Sound(w) && HasRevision(w, uid)
    ensures HasRevision(Apply(w, step), uid)
  {
    hide Sound, Apply, Commits;
    if Revises(w, step, uid) { RevisedCell(w, uid, step.op, step.lag); } else { UnrevisedCell(w, step, uid); }
  }

  lemma {:induction false} RunKeepsRevision(w: World, steps: seq<Step>, uid: Id)
    requires Sound(w) && HasRevision(w, uid)
    ensures Sound(Run(w, steps)) && HasRevision(Run(w, steps), uid)
    decreases |steps|
  {
    hide Sound, Apply, HasRevision;
    if steps != [] {
      StepIsSound(w, steps[0]);
      StepKeepsRevision(w, steps[0], uid);
      RunKeepsRevision(Apply(w, steps[0]), steps[1..], uid);
    }
  }

  /** Whatever has run since, the abort is refused. */
  lemma LaterAbortIsRefused(w: World, v: World, uid: Id, o: Id)
    requires Sound(w) && Reaches(w, v) && HasRevision(w, uid)
    ensures Sound(v) && HasRevision(v, uid) && v.cells[uid].head.Some?
    ensures AbortStep(v, uid, o) == v && !AbortAllowed(v.cells[uid], o, Resolves(v, uid))
  {
    hide Sound, Run, HasRevision, AbortStep, AbortAllowed;
    var steps :| Run(w, steps) == v;
    RunKeepsRevision(w, steps, uid);
    UpdateIsNeverAborted(v, uid, o);
  }

  /** Marking rows leaves every HEAD alone. */
  lemma MarkingKeepsHeads(w: World, uid: Id, key: Key)
    ensures var v := Apply(w, Retry(uid, key));
            && v.cells.Keys == w.cells.Keys && (forall u :: u in w.cells ==> v.cells[u].head == w.cells[u].head)
            && (!Markable(w, uid, key) ==> v == w.(nextId := w.nextId + 1))
  {
    hide CommitStep, PrepareStep, PublishBackfillStep, AbortStep, StartStep, StartCreateStep, StartByNameStep;
    if uid in w.cells && !Markable(w, uid, key) { assert w.cells[uid := w.cells[uid]] == w.cells; }
  }
}
