/** The script that fills the index from existing heads, and the publish loop it shares with the services. */
module IndexBackfill {
  import opened Domain
  import opened Revisions
  import opened RevisionInvariants
  import opened ControlPlane
  import opened ControlPlaneInvariants
  import opened IndexInvariants
  import opened NameInvariants
  import opened ControlPlaneTheorems
  import opened SyncIndex
  import opened NameIdentity
  import opened ControlTable

  const ATTEMPTS: nat := 8

  /** The steps other clients take before the n-th request of this one. */
  type Schedule = nat -> seq<Step>

  ghost predicate Reaches(w: World, v: World) {
    exists steps :: Run(w, steps) == v
  }

  lemma {:induction false} RunConcat(w: World, a: seq<Step>, b: seq<Step>)
    ensures Run(w, a + b) == Run(Run(w, a), b)
    decreases |a|
  {
    hide Apply;
    if a == [] {
      assert a + b == b;
    } else {
      assert (a + b)[0] == a[0] && (a + b)[1..] == a[1..] + b;
      RunConcat(Apply(w, a[0]), a[1..], b);
    }
  }

  lemma ReachesAgain(w: World, v: World, x: World)
    requires Reaches(w, v) && Reaches(v, x)
    ensures Reaches(w, x)
  {
    hide Run;
    var a :| Run(w, a) == v;
    var b :| Run(v, b) == x;
    RunConcat(w, a, b);
  }

  lemma ReachesByStep(w: World, v: World, step: Step)
    requires Reaches(w, v)
    ensures Reaches(w, Apply(v, step))
  {
    hide Apply;
    assert Run(v, [step]) == Apply(v, step) by { OneStep(v, step); }
    ReachesAgain(w, v, Apply(v, step));
  }

  lemma OneStep(w: World, step: Step)
    ensures Run(w, [step]) == Apply(w, step)
  {
    hide Apply;
    assert [step][1..] == [];
    assert Run(Apply(w, step), []) == Apply(w, step);
  }

  // ---------------------------------------------------------------- what stays published

  /** Every READY head of the environment is in the index. */
  ghost predicate IndexComplete(w: World, environment: Name) {
    forall uid :: uid in w.cells && w.cells[uid].environment == environment && IsReady(w.cells[uid]) ==> SequenceOf(w.cells[uid]).Some?
  }

  ghost predicate Unpublished(w: World, uid: Id) {
    uid in w.cells && IsReady(w.cells[uid]) && SequenceOf(w.cells[uid]).None?
  }

  /** A head outside the index was there, outside the index, all along. */
  ghost predicate OnlyOldUnpublished(w: World, v: World) {
    forall uid :: Unpublished(v, uid) ==> Unpublished(w, uid) && v.cells[uid].environment == w.cells[uid].environment
  }

  lemma StepOnlyOld(w: World, step: Step, uid: Id)
    requires Sound(w) && Unpublished(Apply(w, step), uid)
    ensures Unpublished(w, uid) && Apply(w, step).cells[uid].environment == w.cells[uid].environment
  {
    hide CellInv, IndexInv, NamesOk, Apply, Commits, Evolves;
    var v := Apply(w, step);
    StepIsSound(w, step);
    NextIdIsNew(w);
    ReadyMeansCommitted(v, uid);
    if step.CommitOp? && Commits(w, step.uid, step.op) {
      CommitIsPublished(w, step, uid);
    } else {
      QuietLog(w, step, uid);
    }
    ReadyMeansCommitted(w, uid);
    StepEvolves(w, step, w.cells[uid].environment, StepLag(step));
    SequencesStay(w, v, w.cells[uid].environment, StepLag(step), uid);
  }

  lemma ReadyMeansCommitted(w: World, uid: Id)
    requires CellsOk(w)
    ensures uid in w.cells ==> (IsReady(w.cells[uid]) <==> |w.cells[uid].log| > 0)
  {
    if uid in w.cells {
      CellFacts(w, uid);
      LogFacts(w.cells[uid], w.nextId);
      hide CellsOk, CellInv;
    }
  }

  lemma SequencesStay(w: World, v: World, environment: Name, lag: nat, uid: Id)
    requires Evolves(w, v, environment, lag) && uid in w.cells
    ensures uid in v.cells && v.cells[uid].environment == w.cells[uid].environment
    ensures SequenceOf(w.cells[uid]).Some? ==> SequenceOf(v.cells[uid]).Some?
  {
    hide RowsEvolve, CounterEvolves;
    assert uid in v.cells;
    assert SecretEvolves(w, v, environment, lag, uid);
  }

  /** A commit that changes this secret's log publishes it. */
  lemma CommitIsPublished(w: World, step: Step, uid: Id)
    requires CellsOk(w) && step.CommitOp? && Commits(w, step.uid, step.op)
    requires uid in Apply(w, step).cells && SequenceOf(Apply(w, step).cells[uid]).None?
    ensures uid in w.cells && Apply(w, step).cells[uid] == w.cells[uid]
  {
    hide CellInv, CommitMutation, CommitAllowed, PublishRows, RowFree, CounterHolds;
    var c, o := w.cells[step.uid], step.op;
    var m, stage := c.ops[o].mutation, c.ops[o].stage;
    PublishRowsFrame(w, step.uid, m.control, stage.state, stage.previous, step.lag);
    CommitEffect(c, o, m, Resolves(w, step.uid), stage.previous, NextSequence(stage.state), w.now + RETENTION_MILLISECONDS);
  }

  lemma {:induction false} RunOnlyOld(w: World, steps: seq<Step>)
    requires Sound(w)
    ensures Sound(Run(w, steps)) && OnlyOldUnpublished(w, Run(w, steps))
    decreases |steps|
  {
    hide Sound, Apply, IsReady, SequenceOf;
    if steps != [] {
      var v := Apply(w, steps[0]);
      StepIsSound(w, steps[0]);
      RunOnlyOld(v, steps[1..]);
      forall uid | Unpublished(Run(w, steps), uid)
        ensures Unpublished(w, uid) && Run(w, steps).cells[uid].environment == w.cells[uid].environment
      {
        StepOnlyOld(w, steps[0], uid);
      }
    }
  }

  /** What any later moment keeps. */
  lemma ReachKeeps(w: World, v: World)
    requires Sound(w) && Reaches(w, v)
    ensures Sound(v) && OnlyOldUnpublished(w, v)
    ensures forall uid :: uid in w.cells ==> uid in v.cells && (SequenceOf(w.cells[uid]).Some? ==> SequenceOf(v.cells[uid]).Some?)
    ensures forall e :: e in w.sync && w.sync[e].ready ==> e in v.sync && v.sync[e].ready
  {
    hide Sound, OnlyOldUnpublished, Run, Evolves;
    var steps :| Run(w, steps) == v;
    RunOnlyOld(w, steps);
    forall uid | uid in w.cells ensures uid in v.cells && (SequenceOf(w.cells[uid]).Some? ==> SequenceOf(v.cells[uid]).Some?) {
      RunEvolves(w, steps, w.cells[uid].environment, MaxLag(steps));
      SequencesStay(w, v, w.cells[uid].environment, MaxLag(steps), uid);
    }
    forall e | e in w.sync && w.sync[e].ready ensures e in v.sync && v.sync[e].ready {
      RunEvolves(w, steps, e, MaxLag(steps));
      ReadinessStays(w, v, e, MaxLag(steps));
    }
  }

  lemma ReadinessStays(w: World, v: World, environment: Name, lag: nat)
    requires Evolves(w, v, environment, lag) && environment in w.sync && w.sync[environment].ready
    ensures environment in v.sync && v.sync[environment].ready
  {
    hide RowsEvolve, SecretsEvolve;
  }

  /** Once complete, the index stays complete whatever runs. */
  lemma CompleteForever(w: World, steps: seq<Step>, environment: Name)
    requires Sound(w) && IndexComplete(w, environment)
    ensures IndexComplete(Run(w, steps), environment)
  {
    hide Sound, Run;
    RunOnlyOld(w, steps);
    assert forall uid :: Unpublished(Run(w, steps), uid) ==> Unpublished(w, uid);
  }

  // ---------------------------------------------------------------- one publication

  /** A publication that was reported is in the head. */
  lemma PublishedHasSequence(w: World, uid: Id, o: Id, lag: nat)
    requires BackfillOutcome(w, uid, o) == Published
    ensures var v := PublishBackfillStep(w, uid, o, lag);
            uid in v.cells && SequenceOf(v.cells[uid]).Some?
  {
    hide PublishRows, RowFree, CounterHolds;
    var stage := w.cells[uid].ops[o].backfillStage;
    PublishRowsFrame(w, uid, w.cells[uid].ops[o].record, stage.state, stage.previous, lag);
  }

  /** `publish`: read STATE, read the head's sequence, commit; only counter contention is retried, eight times. */
  method PublishHead(t: Table, uid: Id, o: Id, lag: nat, others: Schedule, at: nat) returns (outcome: Outcome, next: nat)
    modifies t
    ensures Reaches(old(t.State()), t.State())
    ensures outcome == Published ==> uid in t.cells && SequenceOf(t.cells[uid]).Some?
  {
    hide Apply, Run, PublishBackfillStep, BackfillOutcome, Reaches;
    ghost var start := t.State();
    NoSteps(start);
    next := at;
    var attempt := 0;
    while attempt < ATTEMPTS
      invariant attempt <= ATTEMPTS && Reaches(start, t.State())
    {
      Turn(t, others(next), start);
      Send(t, CountOp(uid, o), start);
      Turn(t, others(next + 1), start);
      Send(t, PrimeOp(uid, o), start);
      Turn(t, others(next + 2), start);
      next := next + 3;
      ghost var before := t.State();
      outcome := t.CompleteBackfill(uid, o, lag);
      BackfillIsStep(before, uid, o, lag);
      ReachesByStep(start, before, PublishBackfill(uid, o, lag));
      if outcome == Published { PublishedHasSequence(before, uid, o, lag); }
      if outcome != Contended { return; }
      attempt := attempt + 1;
    }
    outcome := Contended;
  }

  lemma NoSteps(w: World)
    ensures Reaches(w, w)
  {
    assert Run(w, []) == w;
  }

  lemma BackfillIsStep(w: World, uid: Id, o: Id, lag: nat)
    ensures Apply(w, PublishBackfill(uid, o, lag)) == PublishBackfillStep(w, uid, o, lag)
  {
    hide PublishBackfillStep;
  }

  /** Other clients take their steps. */
  method Turn(t: Table, steps: seq<Step>, ghost start: World)
    requires Reaches(start, t.State())
    modifies t
    ensures t.State() == Run(old(t.State()), steps)
    ensures Reaches(start, t.State()) && Reaches(old(t.State()), t.State())
  {
    hide Apply, Run;
    ghost var before := t.State();
    t.Others(steps);
    assert Reaches(before, t.State());
    ReachesAgain(start, before, t.State());
  }

  /** One request of this client. */
  method Send(t: Table, step: Step, ghost start: World)
    requires Reaches(start, t.State())
    modifies t
    ensures t.State() == Apply(old(t.State()), step)
    ensures Reaches(start, t.State()) && Reaches(old(t.State()), t.State())
  {
    hide Apply, Run, Reaches;
    ghost var before := t.State();
    t.Perform(step);
    NoSteps(before);
    ReachesByStep(before, before, step);
    ReachesByStep(start, before, step);
  }

  // ---------------------------------------------------------------- the script

  datatype Result = Completed(heads: nat, environments: nat) | Failed

  /** Rereads the head after each lost race; any other failure ends the script. */
  method BackfillCandidate(t: Table, uid: Id, lag: nat, others: Schedule, at: nat) returns (published: bool, next: nat)
    modifies t
    ensures Reaches(old(t.State()), t.State())
    ensures published ==> uid in t.cells && SequenceOf(t.cells[uid]).Some?
  {
    hide Apply, Run, Reaches, ReadBackfillControl, BeginBackfill;
    ghost var start := t.State();
    NoSteps(start);
    published, next := false, at;
    var attempt := 0;
    while attempt < ATTEMPTS
      invariant attempt <= ATTEMPTS && Reaches(start, t.State()) && !published
    {
      Turn(t, others(next), start);
      if uid !in t.cells || t.cells[uid].head.None? { return; }
      var o := t.nextId;
      Send(t, StartBackfill(uid), start);
      Turn(t, others(next + 1), start);
      Send(t, ReadBackfill(uid, o), start);
      if uid !in t.cells || o !in t.cells[uid].ops || !t.cells[uid].ops[o].Backfilling? { return; }
      ghost var before := t.State();
      var outcome;
      outcome, next := PublishHead(t, uid, o, lag, others, next + 2);
      ReachesAgain(start, before, t.State());
      if outcome == Published { published := true; return; }
      if outcome != Rejected(true) { return; }
      attempt := attempt + 1;
    }
  }

  /** `markReady`: an empty environment gets a ready STATE, any other has readiness set. */
  method MarkEnvironmentReady(t: Table, environment: Name, others: Schedule, at: nat) returns (ready: bool, next: nat)
    modifies t
    ensures Reaches(old(t.State()), t.State())
    ensures ready ==> environment in t.sync && t.sync[environment].ready
  {
    hide Run, Reaches, Apply;
    ghost var start := t.State();
    NoSteps(start);
    next := at + 2;
    Turn(t, others(at), start);
    if environment !in t.sync {
      Turn(t, others(at + 1), start);
      var created := environment !in t.sync;
      ReadySteps(t.State(), environment);
      Send(t, CreateState(environment), start);
      if created { return true, next; }
    }
    Turn(t, others(at + 1), start);
    ReadySteps(t.State(), environment);
    Send(t, MarkReady(environment), start);
    ready := environment in t.sync;
  }

  lemma ReadySteps(w: World, environment: Name)
    ensures var v := Apply(w, CreateState(environment));
            environment !in w.sync ==> environment in v.sync && v.sync[environment].ready
    ensures var v := Apply(w, MarkReady(environment));
            environment in v.sync ==> v.sync[environment].ready
  {
    hide IsCellStep, CommitStep, PublishBackfillStep, PrepareStep, AbortStep, StartCreateStep, StartByNameStep, StartStep;
    assert !IsCellStep(CreateState(environment)) && !IsCellStep(MarkReady(environment)) by { NotCellSteps(environment); }
  }

  lemma NotCellSteps(environment: Name)
    ensures !IsCellStep(CreateState(environment)) && !IsCellStep(MarkReady(environment))
  {
  }

  ghost predicate Scanned(w: World, uids: seq<Id>) {
    forall i :: 0 <= i < |uids| ==> uids[i] in w.cells && SequenceOf(w.cells[uids[i]]).Some?
  }

  lemma ScannedStays(w: World, v: World, uids: seq<Id>)
    requires Sound(w) && Reaches(w, v) && Scanned(w, uids)
    ensures Scanned(v, uids)
  {
    hide Sound, Reaches;
    ReachKeeps(w, v);
  }

  function Flatten(pages: seq<seq<Id>>): (uids: seq<Id>)
  {
    if pages == [] then [] else Flatten(pages[..|pages| - 1]) + pages[|pages| - 1]
  }

  /** One page of the scan: every candidate on it is published before the next page is read. */
  method BackfillPage(t: Table, page: seq<Id>, known: set<Name>, apply: bool, lag: nat, others: Schedule, at: nat)
    returns (done: bool, next: nat)
    requires Sound(t.State())
    modifies t
    ensures Reaches(old(t.State()), t.State())
    ensures done && apply ==> Scanned(t.State(), page)
    ensures !apply ==> t.State() == old(t.State())
    ensures done ==> forall i :: 0 <= i < |page| ==> page[i] in old(t.cells) ==> old(t.cells)[page[i]].environment in known
  {
    hide Reaches, Sound, SequenceOf, Apply, Run;
    ghost var start := t.State();
    NoSteps(start);
    next := at;
    var i := 0;
    while i < |page|
      invariant 0 <= i <= |page| && Reaches(start, t.State())
      invariant apply ==> Scanned(t.State(), page[..i])
      invariant !apply ==> t.State() == start
      invariant forall j :: 0 <= j < i ==> page[j] in start.cells ==> start.cells[page[j]].environment in known
    {
      ReachKeeps(start, t.State());
      EnvironmentStays(start, t.State(), page[i]);
      if page[i] !in t.cells || t.cells[page[i]].environment !in known { return false, next; }
      if apply {
        ghost var before := t.State();
        var published;
        published, next := BackfillCandidate(t, page[i], lag, others, next);
        ReachesAgain(start, before, t.State());
        if !published { return false, next; }
        ScannedStays(before, t.State(), page[..i]);
        assert page[..i + 1] == page[..i] + [page[i]];
      }
      i := i + 1;
    }
    assert page[..i] == page;
    done := true;
  }

  lemma EnvironmentStays(w: World, v: World, uid: Id)
    requires Sound(w) && Reaches(w, v)
    ensures uid in w.cells ==> uid in v.cells && v.cells[uid].environment == w.cells[uid].environment
  {
    hide Run, Sound, Evolves;
    if uid in w.cells {
      var steps :| Run(w, steps) == v;
      RunEvolves(w, steps, w.cells[uid].environment, MaxLag(steps));
      SequencesStay(w, v, w.cells[uid].environment, MaxLag(steps), uid);
    }
  }

  /** With every head of the start published, the index holds every READY head there is. */
  lemma ScanCompletes(w: World, v: World, uids: seq<Id>, environment: Name)
    requires Sound(w) && Reaches(w, v) && Scanned(v, uids)
    requires forall uid :: uid in w.cells && IsReady(w.cells[uid]) ==> uid in uids
    ensures IndexComplete(v, environment)
  {
    hide Sound, Reaches;
    ReachKeeps(w, v);
    assert forall uid :: uid in uids ==> uid in v.cells && SequenceOf(v.cells[uid]).Some?;
    assert forall uid :: Unpublished(v, uid) ==> Unpublished(w, uid);
  }

  lemma CompleteStays(w: World, v: World, environment: Name)
    requires Sound(w) && Reaches(w, v) && IndexComplete(w, environment)
    ensures IndexComplete(v, environment)
  {
    hide Sound, Reaches;
    ReachKeeps(w, v);
    assert forall uid :: Unpublished(v, uid) ==> Unpublished(w, uid);
  }

  /**
   * `backfillAgentSync`. `pages` is what the strongly consistent scan returns: at least every head that was
   * READY when it began. Whatever other clients do between its requests, a run that reports completion has
   * set readiness only after every READY head, old or new, was in the index.
   */
  method BackfillAgentSync(t: Table, environments: seq<Name>, pages: seq<seq<Id>>, apply: bool, lag: nat, others: Schedule)
    returns (result: Result)
    requires Sound(t.State())
    requires forall uid :: uid in t.cells && IsReady(t.cells[uid]) ==> uid in Flatten(pages)
    modifies t
    ensures Reaches(old(t.State()), t.State()) && Sound(t.State())
    ensures !apply ==> t.State() == old(t.State())
    ensures result.Completed? ==> result == Completed(|Flatten(pages)|, |environments|)
    ensures result.Completed? && apply ==>
              forall i :: 0 <= i < |environments| ==>
                && environments[i] in t.sync && t.sync[environments[i]].ready
                && IndexComplete(t.State(), environments[i])
  {
    hide Reaches, Sound, SequenceOf, Apply, Run, IsReady, IndexComplete;
    ghost var start := t.State();
    NoSteps(start);
    ReachKeeps(start, start);
    var known := set e | e in environments;
    var heads, next, p := 0, 0, 0;
    while p < |pages|
      invariant 0 <= p <= |pages| && Reaches(start, t.State()) && Sound(t.State())
      invariant heads == |Flatten(pages[..p])|
      invariant apply ==> Scanned(t.State(), Flatten(pages[..p]))
      invariant !apply ==> t.State() == start
    {
      ghost var before := t.State();
      var done;
      done, next := BackfillPage(t, pages[p], known, apply, lag, others, next);
      ReachesAgain(start, before, t.State());
      ReachKeeps(start, t.State());
      if !done { return Failed; }
      heads := heads + |pages[p]|;
      assert pages[..p + 1][..p] == pages[..p] && pages[..p + 1][p] == pages[p];
      assert Flatten(pages[..p + 1]) == Flatten(pages[..p]) + pages[p];
      if apply {
        ScannedStays(before, t.State(), Flatten(pages[..p]));
      }
      p := p + 1;
    }
    assert pages[..p] == pages;
    if apply {
      forall e ensures IndexComplete(t.State(), e) { ScanCompletes(start, t.State(), Flatten(pages), e); }
      var i := 0;
      while i < |environments|
        invariant 0 <= i <= |environments| && Reaches(start, t.State()) && Sound(t.State())
        invariant forall e :: IndexComplete(t.State(), e)
        invariant forall j :: 0 <= j < i ==> environments[j] in t.sync && t.sync[environments[j]].ready
      {
        ghost var before := t.State();
        var ready;
        ready, next := MarkEnvironmentReady(t, environments[i], others, next);
        ReachesAgain(start, before, t.State());
        ReachKeeps(before, t.State());
        if !ready { return Failed; }
        forall e ensures IndexComplete(t.State(), e) { CompleteStays(before, t.State(), e); }
        i := i + 1;
      }
    }
    result := Completed(heads, |environments|);
  }
}
