/**
 * The DynamoDB control table as an object: maps for the secrets' items, the LOOKUP items, the STATE items
 * and the CHANGE rows. Each method is one request; a conditional transaction either writes all of its
 * items or none. The methods are proved equal to the steps that the run-wide results quantify over.
 */
module ControlTable {
  import opened Domain
  import opened Revisions
  import opened ControlPlane
  import opened ControlPlaneInvariants

  /** How a publishing transaction ends: committed, cancelled on the counter alone, or cancelled otherwise. */
  datatype Outcome = Published | Contended | Rejected(race: bool) | Idle

  predicate Primed(w: World, uid: Id, o: Id) {
    uid in w.cells && o in w.cells[uid].ops && (w.cells[uid].ops[o].Stored? || w.cells[uid].ops[o].Backfilling?)
    && StageOf(w.cells[uid].ops[o]).Primed?
  }

  /** `race` says that the head's own condition failed. */
  function CommitOutcome(w: World, uid: Id, o: Id): Outcome {
    if !Primed(w, uid, o) || !w.cells[uid].ops[o].Stored? then Idle
    else
      var c, m, stage := w.cells[uid], w.cells[uid].ops[o].mutation, w.cells[uid].ops[o].stage;
      var allowed := CommitAllowed(c, o, m, Resolves(w, uid), stage.previous);
      if !allowed || !RowFree(w, uid, m.control, stage.state) then Rejected(!allowed)
      else if CounterHolds(w, m.control.environment, stage.state) then Published else Contended
  }

  function BackfillOutcome(w: World, uid: Id, o: Id): Outcome {
    if !Primed(w, uid, o) || !w.cells[uid].ops[o].Backfilling? then Idle
    else
      var c, record, stage := w.cells[uid], w.cells[uid].ops[o].record, w.cells[uid].ops[o].backfillStage;
      var allowed := BackfillAllowed(c, record);
      if !allowed || !RowFree(w, uid, record, stage.state) then Rejected(!allowed)
      else if CounterHolds(w, record.environment, stage.state) then Published else Contended
  }

  /** The row is PREPARED and expired. */
  predicate Markable(w: World, uid: Id, key: Key) {
    uid in w.cells && HasRow(w.cells[uid], key, Prepared) && w.cells[uid].rows[key].expires < w.now
  }

  class Table {
    var now: nat
    var nextId: Id
    var cells: map<Id, Cell>
    var names: map<(Name, Name), Id>
    var sync: map<Name, SyncState>
    var changes: map<ChangeKey, ChangeRow>

    function State(): World
      reads this
    {
      World(now, nextId, cells, names, sync, changes)
    }

    constructor ()
      ensures State() == Genesis
    {
      now, nextId, cells, names, sync, changes := 0, 0, map[], map[], map[], map[];
    }

    /** A table that already holds items, as the backfill finds it. */
    constructor Existing(w: World)
      ensures State() == w
    {
      now, nextId, cells, names, sync, changes := w.now, w.nextId, w.cells, w.names, w.sync, w.changes;
    }

    /** The counter and the projection, written with the caller's items. */
    method PutPublication(uid: Id, control: Control, state: Option<SyncState>, previous: Option<nat>, lag: nat)
      modifies this`nextId, this`sync, this`changes
      ensures State() == PublishRows(old(State()), uid, control, state, previous, lag)
    {
      var environment, sequence := control.environment, NextSequence(state);
      var counter := NextState(State(), environment, state);
      var row := ChangeRow(SyncRecordOf(uid, control), ChangeTtl(State(), control, lag));
      changes := changes[ChangeKey(environment, sequence, uid) := row];
      if previous.Some? {
        changes := changes - {ChangeKey(environment, previous.value, uid)};
      }
      sync := sync[environment := counter];
      nextId := nextId + 1;
    }

    /** `completeMutation` as the last request of one publish attempt. */
    method CompleteMutation(uid: Id, o: Id, lag: nat) returns (outcome: Outcome)
      modifies this
      ensures outcome == CommitOutcome(old(State()), uid, o)
      ensures State() == CommitStep(old(State()), uid, o, lag)
    {
      if uid !in cells || o !in cells[uid].ops || !cells[uid].ops[o].Stored? || !cells[uid].ops[o].stage.Primed? {
        return Idle;
      }
      var c := cells[uid];
      var m, stage := c.ops[o].mutation, c.ops[o].stage;
      var counter := CounterHolds(State(), m.control.environment, stage.state);
      var allowed := CommitAllowed(c, o, m, Resolves(State(), uid), stage.previous);
      var rest := allowed && RowFree(State(), uid, m.control, stage.state);
      if !counter || !rest {
        cells := cells[uid := AfterFailure(c, o, rest)];
        return if rest then Contended else Rejected(!allowed);
      }
      PutPublication(uid, m.control, stage.state, stage.previous, lag);
      cells := cells[uid := CommitMutation(c, o, m, NextSequence(stage.state), now + RETENTION_MILLISECONDS)];
      if m.archive {
        names := names - {NameKey(c)};
      }
      outcome := Published;
    }

    /** `backfillHead`'s last request. */
    method CompleteBackfill(uid: Id, o: Id, lag: nat) returns (outcome: Outcome)
      modifies this
      ensures outcome == BackfillOutcome(old(State()), uid, o)
      ensures State() == PublishBackfillStep(old(State()), uid, o, lag)
    {
      if uid !in cells || o !in cells[uid].ops || !cells[uid].ops[o].Backfilling? || !cells[uid].ops[o].backfillStage.Primed? {
        return Idle;
      }
      var c := cells[uid];
      var record, stage := c.ops[o].record, c.ops[o].backfillStage;
      var counter := CounterHolds(State(), record.environment, stage.state);
      var allowed := BackfillAllowed(c, record);
      var rest := allowed && RowFree(State(), uid, record, stage.state);
      if !counter || !rest {
        cells := cells[uid := AfterFailure(c, o, rest)];
        return if rest then Contended else Rejected(!allowed);
      }
      PutPublication(uid, record, stage.state, stage.previous, lag);
      cells := cells[uid := CommitBackfill(c, o, NextSequence(stage.state))];
      outcome := Published;
    }

    /** `prepareMutation`: the workflow rows and the lease, and for a create the LOOKUP. */
    method PrepareMutation(uid: Id, o: Id, lag: nat)
      modifies this
      ensures State() == PrepareStep(old(State()), uid, o, lag)
    {
      hide Prepare, NameKey;
      if uid !in cells {
        return;
      }
      var c := cells[uid];
      var expires := now - (if lag <= now then lag else now) + LEASE_MILLISECONDS;
      var d := Prepare(c, o, nextId, nextId + 1, NameKey(c) !in names, now, expires);
      if c.head.None? && d.head.Some? {
        names := names[NameKey(c) := uid];
      }
      cells := cells[uid := d];
      nextId := nextId + 2;
    }

    /** `abortPreparedCreate`: HEAD and LOOKUP go together. */
    method AbortPreparedCreate(uid: Id, o: Id) returns (aborted: bool)
      modifies this
      ensures State() == AbortStep(old(State()), uid, o)
      ensures aborted <==> old(uid in cells && AbortAllowed(cells[uid], o, Resolves(State(), uid)))
    {
      aborted := uid in cells && AbortAllowed(cells[uid], o, Resolves(State(), uid));
      if aborted {
        names := names - {NameKey(cells[uid])};
        cells := cells[uid := cells[uid].(head := None)];
      }
    }

    /** `markRetryable` on one expired row. */
    method MarkRowRetryable(uid: Id, key: Key) returns (marked: bool)
      modifies this
      ensures State() == Apply(old(State()), Retry(uid, key))
      ensures marked <==> Markable(old(State()), uid, key)
    {
      marked := uid in cells && HasRow(cells[uid], key, Prepared) && cells[uid].rows[key].expires < now;
      if marked {
        var c := cells[uid];
        cells := cells[uid := c.(rows := c.rows[key := c.rows[key].(workflow := Retryable)])];
      } else if uid in cells {
        cells := cells[uid := cells[uid]];
      }
      nextId := nextId + 1;
    }

    /** `releaseLease`, by an operation whose rows recovery has marked. */
    method ReleaseLeaseOf(uid: Id, o: Id)
      modifies this
      ensures State() == Apply(old(State()), Release(uid, o))
    {
      if uid in cells {
        cells := cells[uid := ReleaseLease(cells[uid], o)];
      }
      nextId := nextId + 1;
    }

    method Write(step: Step)
      requires step.CommitOp? || step.PublishBackfill? || step.PrepareOp? || step.Abort? || step.Retry? || step.Release?
      modifies this
      ensures State() == Apply(old(State()), step)
    {
      hide Apply, CommitOutcome, BackfillOutcome;
      StepIs(State(), step);
      match step
      case CommitOp(uid, o, lag) => var _ := CompleteMutation(uid, o, lag);
      case PublishBackfill(uid, o, lag) => var _ := CompleteBackfill(uid, o, lag);
      case PrepareOp(uid, o, lag) => PrepareMutation(uid, o, lag);
      case Abort(uid, o) => var _ := AbortPreparedCreate(uid, o);
      case Retry(uid, key) => var _ := MarkRowRetryable(uid, key);
      case Release(uid, o) => ReleaseLeaseOf(uid, o);
    }

    /** Any single request of any client. */
    method Perform(step: Step)
      modifies this
      ensures State() == Apply(old(State()), step)
    {
      hide Apply;
      if step.CommitOp? || step.PublishBackfill? || step.PrepareOp? || step.Abort? || step.Retry? || step.Release? {
        Write(step);
      } else {
        var w := Apply(State(), step);
        now, nextId, cells, names, sync, changes := w.now, w.nextId, w.cells, w.names, w.sync, w.changes;
      }
    }

    /** Whatever the other clients do before the caller's next request. */
    method Others(steps: seq<Step>)
      modifies this
      ensures State() == Run(old(State()), steps)
    {
      var i := 0;
      while i < |steps|
        invariant 0 <= i <= |steps|
        invariant Run(State(), steps[i..]) == Run(old(State()), steps)
      {
        assert steps[i..][0] == steps[i] && steps[i..][1..] == steps[i + 1..];
        Perform(steps[i]);
        i := i + 1;
      }
    }
  }
}
