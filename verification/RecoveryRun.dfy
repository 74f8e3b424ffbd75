/** An update or archive that stops with the lease, and the recovery that runs after the lease has expired. */
module RecoveryRun {
  import opened Domain
  import opened Revisions
  import opened RevisionInvariants
  import opened ControlPlane
  import opened ControlPlaneInvariants
  import opened IndexInvariants
  import opened ControlPlaneTheorems
  import opened SyncIndex
  import opened ControlTable
  import opened LeaseRecovery
  import NameReuse
  import IndexBackfill
  import TablePrograms
  import WriterProgress

  /** The table once the request has taken the lease and the lease has expired. */
  function Stalled(w: World, uid: Id, request: Request, order: seq<Id>, elapsed: nat): World
    requires WriterProgress.Reaching(w, uid, request) && |w.cells[uid].log| > 0
  {
    WriterProgress.Acquired(w, uid, request, order).(now := w.now + elapsed)
  }

  /** The revision's row is PREPARED and expired. */
  lemma StalledIsMarkable(w: World, uid: Id, request: Request, order: seq<Id>, elapsed: nat)
    requires WriterProgress.Reaching(w, uid, request) && |w.cells[uid].log| > 0 && elapsed > LEASE_MILLISECONDS
    ensures var s := Stalled(w, uid, request, order, elapsed);
            && Markable(s, uid, ControlKey(w.nextId + 2 + 2 * |order|)) && HasRevision(s, uid)
            && s.cells[uid].head == Some(w.cells[uid].head.value.(lease := Some(Lease(w.nextId, w.now + LEASE_MILLISECONDS))))
  {
    var m := WriterProgress.MutationFor(w, uid, request, order);
    WriterProgress.MutationParts(w, uid, request, order);
    hide WriterProgress.MutationFor;
    WriterProgress.NextKeys(request, CurrentControl(w.cells[uid]), w.nextId + 2 + 2 * |order|);
    hide NextControl;
    assert m.control.version == w.nextId + 2 + 2 * |order|;
  }

  lemma StallIsReached(w: World, uid: Id, request: Request, order: seq<Id>, elapsed: nat)
    requires Sound(w) && WriterProgress.Reaching(w, uid, request) && |w.cells[uid].log| > 0 && WriterProgress.Idle(w.cells[uid], w.now)
    requires forall k :: k in order <==> k in CurrentControl(w.cells[uid]).acl
    ensures Run(w, WriterProgress.AcquireSteps(w, uid, request, order) + [Tick(elapsed)]) == Stalled(w, uid, request, order, elapsed)
    ensures Sound(Stalled(w, uid, request, order, elapsed))
  {
    hide Sound, Run, WriterProgress.AcquireSteps, WriterProgress.Acquired;
    WriterProgress.LeaseIsTaken(w, uid, request, order);
    var path := WriterProgress.AcquireSteps(w, uid, request, order);
    IndexBackfill.RunConcat(w, path, [Tick(elapsed)]);
    IndexBackfill.OneStep(Run(w, path), Tick(elapsed));
    RunIsSound(w, path + [Tick(elapsed)]);
    AcquiredNow(w, uid, request, order);
  }

  lemma AcquiredNow(w: World, uid: Id, request: Request, order: seq<Id>)
    requires WriterProgress.Reaching(w, uid, request) && |w.cells[uid].log| > 0
    ensures WriterProgress.Acquired(w, uid, request, order).now == w.now
  {
  }

  /**
   * From any table in which an update or archive takes the lease of the current revision and then stops: once
   * the lease has expired, recovery that is left alone throws, and HEAD still carries the expired lease.
   */
  method ExpiredUpdateKeepsItsLease(w: World, uid: Id, request: Request, order: seq<Id>, elapsed: nat)
      returns (t: Table, result: TablePrograms.Recovery)
    requires Sound(w) && WriterProgress.Reaching(w, uid, request) && |w.cells[uid].log| > 0 && WriterProgress.Idle(w.cells[uid], w.now)
    requires forall k :: k in order <==> k in CurrentControl(w.cells[uid]).acl
    requires elapsed > LEASE_MILLISECONDS
    ensures result == TablePrograms.Thrown && IndexBackfill.Reaches(w, t.State())
    ensures uid in t.cells
    ensures t.cells[uid].head == Some(w.cells[uid].head.value.(lease := Some(Lease(w.nextId, w.now + LEASE_MILLISECONDS))))
  {
    hide Run, Sound, HasRevision, Markable, Stalled, WriterProgress.AcquireSteps, TablePrograms.Alone, IndexBackfill.Reaches;
    t := new Table.Existing(w);
    var steps := WriterProgress.AcquireSteps(w, uid, request, order) + [Tick(elapsed)];
    IndexBackfill.NoSteps(w);
    IndexBackfill.Turn(t, steps, w);
    StallIsReached(w, uid, request, order, elapsed);
    StalledIsMarkable(w, uid, request, order, elapsed);
    ghost var stalled := t.State();
    var group := [TablePrograms.Expired(uid, ControlKey(w.nextId + 2 + 2 * |order|), w.nextId)];
    assert Markable(stalled, group[0].uid, group[0].key);
    var others: IndexBackfill.Schedule := _ => [];
    NobodyElse(others);
    var next;
    result, next := TablePrograms.RecoverOperation(t, w.nextId, group, others, 0);
    IndexBackfill.ReachesAgain(w, stalled, t.State());
    PresentWithRevision(stalled, uid);
  }

  /** Such a table is reached from an empty one; there the marked update's abort is refused and the lease stays. */
  lemma RefusedAbort() returns (steps: seq<Step>, uid: Id, key: Key, o: Id)
    ensures var w := Run(Genesis, steps);
            var v := Apply(w, Retry(uid, key));
            && Markable(w, uid, key) && HasRevision(v, uid) && AbortStep(v, uid, o) == v
            && v.cells[uid].head.Some? && v.cells[uid].head.value.lease.Some?
            && v.cells[uid].head.value.lease.value.owner == o && v.cells[uid].head.value.lease.value.expires < v.now
  {
    hide Sound, Run, HasRevision, Markable, Stalled, AbortStep, NameReuse.Holds, WriterProgress.AcquireSteps;
    var created;
    created, uid := NameReuse.OneSecret();
    var x := Run(Genesis, created);
    NameReuse.HeldCells(x, 0, 1, map[uid := 1], Some(uid));
    NameReuse.HeldName(x, 0, 1, map[uid := 1], Some(uid));
    var request := UpdateByName(NameReuse.ENV, NameReuse.KEY, x.cells[uid].head.value.control, Some("note"), None, false);
    var elapsed := LEASE_MILLISECONDS + 1;
    StallIsReached(x, uid, request, [], elapsed);
    StalledIsMarkable(x, uid, request, [], elapsed);
    var w := Stalled(x, uid, request, [], elapsed);
    StalledNow(x, uid, request, [], elapsed);
    var path := WriterProgress.AcquireSteps(x, uid, request, []) + [Tick(elapsed)];
    steps, key, o := created + path, ControlKey(x.nextId + 2), x.nextId;
    IndexBackfill.RunConcat(Genesis, created, path);
    var v := Apply(w, Retry(uid, key));
    StepIsSound(w, Retry(uid, key));
    StepKeepsRevision(w, Retry(uid, key), uid);
    UpdateIsNeverAborted(v, uid, o);
    MarkingKeepsHeads(w, uid, key);
    PresentWithRevision(w, uid);
    SameClock(w, uid, key);
  }

  lemma StalledNow(w: World, uid: Id, request: Request, order: seq<Id>, elapsed: nat)
    requires WriterProgress.Reaching(w, uid, request) && |w.cells[uid].log| > 0
    ensures Stalled(w, uid, request, order, elapsed).now == w.now + elapsed
  {
  }

  lemma SameClock(w: World, uid: Id, key: Key)
    ensures Apply(w, Retry(uid, key)).now == w.now
  {
    hide MarkRetryable;
  }

  lemma NobodyElse(others: IndexBackfill.Schedule)
    requires forall n :: others(n) == []
    ensures TablePrograms.Alone(others)
  {
  }
}
