/** The sync endpoint and the controller's `synchronize` as programs over the shared table. */
module SyncRequests {
  import opened Domain
  import opened Revisions
  import opened RevisionInvariants
  import opened ControlPlane
  import opened ControlPlaneInvariants
  import opened IndexInvariants
  import opened ControlPlaneTheorems
  import opened SyncIndex
  import opened AgentSync
  import opened AgentSyncTheorems
  import opened ControlTable

  // ---------------------------------------------------------------- the page query

  /** The row with the lowest sequence of a set of rows. */
  method LowestKey(keys: set<ChangeKey>) returns (lowest: ChangeKey)
    requires keys != {}
    ensures lowest in keys && forall key :: key in keys ==> lowest.sequence <= key.sequence
  {
    lowest :| lowest in keys;
    var rest := keys - {lowest};
    while rest != {}
      invariant rest <= keys && lowest in keys
      invariant forall key :: key in keys && key !in rest ==> lowest.sequence <= key.sequence
      decreases |rest|
    {
      var key :| key in rest;
      if key.sequence < lowest.sequence { lowest := key; }
      rest := rest - {key};
    }
  }

  ghost predicate Ascending(keys: seq<ChangeKey>) {
    forall i, j :: 0 <= i < j < |keys| ==> keys[i].sequence < keys[j].sequence
  }

  /** The lowest rows of a set in ascending order, up to the limit, and the rows left over. */
  method TakeLowest(all: set<ChangeKey>, limit: nat) returns (keys: seq<ChangeKey>, rest: set<ChangeKey>)
    requires forall j, k :: j in all && k in all && j.sequence == k.sequence ==> j == k
    ensures |keys| <= limit && Ascending(keys) && (|keys| == limit || rest == {})
    ensures (forall key :: key in keys ==> key in all && key !in rest) && (forall key :: key in all ==> key in keys || key in rest)
    ensures rest <= all && forall key, other :: key in keys && other in rest ==> key.sequence < other.sequence
  {
    keys, rest := [], all;
    while rest != {} && |keys| < limit
      invariant |keys| <= limit && rest <= all && Ascending(keys)
      invariant forall key :: key in keys ==> key in all && key !in rest
      invariant forall key :: key in all ==> key in keys || key in rest
      invariant forall key, other :: key in keys && other in rest ==> key.sequence < other.sequence
      decreases |rest|
    {
      var key := LowestKey(rest);
      var more := keys + [key];
      assert forall k :: k in more <==> k in keys || k == key;
      assert Ascending(more) by {
        forall i, j | 0 <= i < j < |more| ensures more[i].sequence < more[j].sequence {
          if j == |keys| { assert more[i] in keys; }
        }
      }
      keys, rest := more, rest - {key};
    }
  }

  /** A strongly consistent range query in key order; it may stop early, at the limit or at the page size. */
  method QueryPage(t: Table, environment: Name, position: Position, limit: nat)
    returns (keys: seq<ChangeKey>, last: Option<nat>)
    requires 1 <= limit <= PAGE_LIMIT && position.after <= Progress(position) <= position.through
    requires DistinctRows(t.State())
    ensures IsPage(t.State(), environment, position, keys, last)
  {
    keys, last := [], None;
    if position.after == position.through { return; }
    hide IsPage;
    var low := Progress(position);
    var all := set key | key in t.changes && key.environment == environment && low < key.sequence <= position.through;
    var rest;
    keys, rest := TakeLowest(all, limit);
    assert all == Rows(t.State(), environment, position);
    TakenIsPage(t.State(), environment, position, limit, keys, rest);
    if |keys| == limit {
      last := Some(keys[|keys| - 1].sequence);
    }
  }

  lemma LastIsHighest(keys: seq<ChangeKey>)
    requires |keys| > 0 && Ascending(keys)
    ensures keys[|keys| - 1] in keys && forall key :: key in keys ==> key.sequence <= keys[|keys| - 1].sequence
  {
    forall key | key in keys ensures key.sequence <= keys[|keys| - 1].sequence {
      var i :| 0 <= i < |keys| && keys[i] == key;
      assert i < |keys| - 1 ==> keys[i].sequence < keys[|keys| - 1].sequence;
    }
  }

  ghost predicate Taken(all: set<ChangeKey>, keys: seq<ChangeKey>, rest: set<ChangeKey>, limit: nat) {
    && |keys| <= limit && Ascending(keys) && (|keys| == limit || rest == {})
    && (forall key :: key in keys ==> key in all && key !in rest) && (forall key :: key in all ==> key in keys || key in rest)
    && (forall key, other :: key in keys && other in rest ==> key.sequence < other.sequence)
  }

  function Rows(w: World, environment: Name, position: Position): set<ChangeKey> {
    set key | key in w.changes && key.environment == environment && Progress(position) < key.sequence <= position.through
  }

  /** The keys taken are all the keys up to the last one taken. */
  lemma TakenIsPage(w: World, environment: Name, position: Position, limit: nat, keys: seq<ChangeKey>, rest: set<ChangeKey>)
    requires 1 <= limit <= PAGE_LIMIT && position.after <= Progress(position) <= position.through && position.after != position.through
    requires Taken(Rows(w, environment, position), keys, rest, limit)
    ensures IsPage(w, environment, position, keys, if |keys| == limit then Some(keys[|keys| - 1].sequence) else None)
  {
    if |keys| == limit { LastIsHighest(keys); }
    hide Ascending;
    var end := if |keys| == limit then keys[|keys| - 1].sequence else position.through;
    forall key | key in Rows(w, environment, position) && key.sequence <= end ensures key in keys {
      assert key in keys || key in rest;
    }
    PageOrder(keys);
  }

  lemma PageOrder(keys: seq<ChangeKey>)
    requires Ascending(keys)
    ensures forall i, j :: 0 <= i < j < |keys| ==> keys[i].sequence < keys[j].sequence
  {
  }

  /** No two rows of an environment share a sequence. */
  ghost predicate DistinctRows(w: World) {
    forall j, k :: j in w.changes && k in w.changes && j.environment == k.environment && j.sequence == k.sequence ==> j == k
  }

  lemma SoundRowsAreDistinct(w: World)
    requires Sound(w)
    ensures DistinctRows(w)
  {
    hide CellInv;
    forall j, k | j in w.changes && k in w.changes && j.environment == k.environment && j.sequence == k.sequence ensures j == k {
      assert RowOk(w, j, w.changes[j]) && RowOk(w, k, w.changes[k]);
      assert j.uid != k.uid ==> Apart(w.cells[j.uid], w.cells[k.uid]);
    }
  }

  // ---------------------------------------------------------------- requests

  /** What the n-th request meets: other clients' steps, the grant read, whether the token's item still exists, the page size. */
  datatype Conditions = Conditions(
    others: nat -> seq<Step>,
    grant: nat -> AgentGrant,
    stored: nat -> bool,
    limit: nat -> nat)

  ghost predicate Fair(conditions: Conditions, lag: nat) {
    && (forall n :: MaxLag(conditions.others(n)) <= lag)
    && (forall n :: 1 <= conditions.limit(n) <= PAGE_LIMIT)
  }

  datatype PageResult = Page(response: Response) | Error(failure: Failure) | TimedOut

  datatype SyncResult = Synced(entries: map<Id, Entry>, snapshot: bool, checkpoint: Cursor) | NotSynced

  lemma {:induction false} TurnKeeps(w: World, steps: seq<Step>, agent: Agent, timeout: nat, lag: nat)
    requires SyncInv(System(w, agent), timeout, lag) && MaxLag(steps) <= lag
    ensures SyncInv(System(Run(w, steps), agent), timeout, lag)
    decreases |steps|
  {
    hide SyncInv, Apply;
    if steps != [] {
      MoveKeeps(System(w, agent), steps[0], timeout, lag);
      TurnKeeps(Apply(w, steps[0]), steps[1..], agent, timeout, lag);
    }
  }

  /** The token matches what the agent holds. */
  ghost predicate OwnToken(agent: Agent, source: Source, query: Query) {
    match source
    case Fresh => query.syncCursor.None? && query.cursor.None?
    case FromCheckpoint => query.syncCursor.Some? && query.syncCursor == agent.checkpoint && query.cursor.None?
    case NextPage => query.syncCursor.None? && query.cursor.Some? && agent.cycle.Some? && query.cursor == agent.cycle.value.next
  }

  /** The entries of the cycle a request continues. */
  ghost function Collected(agent: Agent, source: Source): map<Id, Entry> {
    if source == NextPage && agent.cycle.Some? then agent.cycle.value.entries else map[]
  }

  /** An agent process: it holds its tokens, and the table is shared with every other client. */
  class Client {
    const table: Table
    const scope: Scope
    const timeout: nat
    ghost const lag: nat
    ghost var agent: Agent

    constructor (table: Table, scope: Scope, timeout: nat, ghost lag: nat)
      requires Sound(table.State())
      ensures this.table == table && this.scope == scope && this.timeout == timeout && this.lag == lag
      ensures agent == Agent(scope, None, map[], Genesis, None, None, None) && Valid()
    {
      this.table, this.scope, this.timeout, this.lag := table, scope, timeout, lag;
      agent := Agent(scope, None, map[], Genesis, None, None, None);
      new;
      hide Sound;
      assert CheckpointOk(table.State(), agent, timeout, lag);
    }

    ghost predicate Valid()
      reads this, table
    {
      agent.scope == scope && SyncInv(System(table.State(), agent), timeout, lag)
    }

    method Turn(steps: seq<Step>)
      requires Valid() && MaxLag(steps) <= lag
      modifies table
      ensures Valid() && table.State() == Run(old(table.State()), steps)
    {
      hide SyncInv, Run;
      TurnKeeps(table.State(), steps, agent, timeout, lag);
      table.Others(steps);
    }

    /** The agent's own protocol step, kept for the specification. */
    ghost method Note(event: Event)
      requires Valid() && Allowance(timeout, lag) && !event.Move?
      modifies this`agent
      ensures Valid() && agent == Next(System(table.State(), old(agent)), event, timeout).agent
    {
      hide SyncInv, Next, Allowance;
      EventKeeps(System(table.State(), agent), event, timeout, lag);
      NoteWorld(System(table.State(), agent), event, timeout);
      agent := Next(System(table.State(), agent), event, timeout).agent;
    }

    /** One call of the sync endpoint: STATE, the token check, the page query. */
    method RequestPage(source: Source, query: Query, conditions: Conditions, n: nat) returns (result: PageResult)
      requires Valid() && Allowance(timeout, lag) && Fair(conditions, lag)
      requires OwnToken(agent, source, query) && query.stored == conditions.stored(n)
      modifies this, table
      ensures Valid()
      ensures result.Page? ==>
                var response := result.response;
                var entries := Absorb(Collected(old(agent), source), response.changes);
                if response.nextCursor.Some? then
                  agent.cycle.Some? && agent.cycle.value.next == response.nextCursor && agent.cycle.value.entries == entries
                else
                  && agent.completed.Some? && agent.completed.value.entries == entries
                  && agent.completed.value.position.snapshot == response.snapshot
                  && response.syncCursor.Some? && agent.checkpoint == response.syncCursor
      ensures result == Error(ResetRequired) ==> agent.checkpoint.None?
    {
      hide SyncInv, Allowance, Run, Next, Decide, IsPage, Respond;
      ghost var before := agent;
      Turn(conditions.others(3 * n));
      var state, asked := StateOf(table.State(), scope.environment), table.now;
      Note(Ask(source, conditions.grant(n), query.stored));
      AskEffect(System(table.State(), before), source, query, conditions.grant(n), timeout);
      Turn(conditions.others(3 * n + 1));
      var now := table.now;
      if now > asked + timeout || now < asked { return TimedOut; }
      var decision := Decide(state, query, conditions.grant(n), scope, now, now);
      ghost var waiting := agent;
      Note(AgentSync.Event.Check(now));
      CheckEffect(System(table.State(), waiting), now, timeout);
      if decision.Refused? { return Error(decision.failure); }
      Turn(conditions.others(3 * n + 2));
      if table.now > asked + timeout { return TimedOut; }
      PositionFacts(table.State(), agent, timeout, lag);
      var keys, last := QueryPage(table, scope.environment, decision.position, conditions.limit(n));
      PageIsPresent(table.State(), scope.environment, decision.position, keys, last);
      var response := Respond(table.State(), scope, query, decision.position, keys, last);
      ghost var reading := agent;
      Note(Answer(keys, last));
      AnswerEffect(System(table.State(), reading), keys, last, timeout);
      result := PageResult.Page(response);
    }

    /**
     * `synchronize`: pages until the cycle completes; a 410 restarts it once from a snapshot. What it
     * returns is a completed cycle: every returned entry whose secret is at or below the new checkpoint
     * carries that secret's current revision.
     */
    method Synchronize(cursor: Option<Cursor>, conditions: Conditions) returns (result: SyncResult)
      requires Valid() && Allowance(timeout, lag) && Fair(conditions, lag) && cursor == agent.checkpoint
      modifies this, table
      ensures Valid()
      ensures result.Synced? ==>
                && agent.completed.Some? && agent.completed.value.entries == result.entries
                && agent.completed.value.position.snapshot == result.snapshot
                && agent.checkpoint == Some(result.checkpoint)
                && EntriesCurrent(table.State(), scope, result.checkpoint.position, result.entries)
    {
      hide SyncInv, Allowance, Run, Absorb;
      var syncCursor, n, reset := cursor, 0, 0;
      while reset < 2
        invariant Valid() && syncCursor == agent.checkpoint
      {
        var entries: map<Id, Entry> := map[];
        var pageCursor: Option<Cursor> := None;
        var pageNumber, restart := 0, false;
        while pageNumber < 1000 && !restart
          invariant Valid() && (restart ==> agent.checkpoint.None? && reset == 0)
          invariant pageCursor.None? && !restart ==> entries == map[] && syncCursor == agent.checkpoint
          invariant pageCursor.Some? ==> agent.cycle.Some? && agent.cycle.value.next == pageCursor && agent.cycle.value.entries == entries
          decreases 1000 - pageNumber, !restart
        {
          var source := if pageCursor.Some? then NextPage else if syncCursor.Some? then FromCheckpoint else Fresh;
          var query := Query(if pageCursor.None? then syncCursor else None, pageCursor, conditions.stored(n));
          var page := RequestPage(source, query, conditions, n);
          n := n + 1;
          if page == Error(ResetRequired) && reset == 0 {
            restart := true;
            pageCursor := None;
          } else if !page.Page? {
            return NotSynced;
          } else {
            entries := Absorb(entries, page.response.changes);
            if page.response.nextCursor.None? {
              CompletedIsCurrent(table.State(), agent, timeout, lag);
              return Synced(entries, page.response.snapshot, page.response.syncCursor.value);
            }
            pageCursor := page.response.nextCursor;
            pageNumber := pageNumber + 1;
          }
        }
        if !restart { return NotSynced; }
        syncCursor := None;
        reset := reset + 1;
      }
      result := NotSynced;
    }
  }

  ghost predicate EntriesCurrent(w: World, scope: Scope, position: Position, entries: map<Id, Entry>) {
    forall uid :: uid in entries && AgentSyncTheorems.Published(w, uid, scope.environment, position.digest) && Sequence(w, uid) <= position.through ==>
      entries[uid] == CurrentEntry(w, uid, scope, position.digest)
  }

  lemma CompletedIsCurrent(w: World, a: Agent, timeout: nat, lag: nat)
    requires SyncInv(System(w, a), timeout, lag) && a.completed.Some? && a.checkpoint.Some?
    ensures EntriesCurrent(w, a.scope, a.checkpoint.value.position, a.completed.value.entries)
  {
    hide Sound, Converged, Frontier, Distinct, CycleOk, PendingOk, CheckpointOk, Selected, VisibleEntry;
  }

  lemma NoteWorld(s: System, event: Event, timeout: nat)
    requires !event.Move?
    ensures Next(s, event, timeout).world == s.world && Next(s, event, timeout).agent.scope == s.agent.scope
  {
    hide Decide, IsPage, Respond;
  }

  lemma AskEffect(s: System, source: Source, query: Query, grant: AgentGrant, timeout: nat)
    requires OwnToken(s.agent, source, query)
    ensures var a := Next(s, Ask(source, grant, query.stored), timeout).agent;
            && a.pending == Some(Asked(query, grant, StateOf(s.world, s.agent.scope.environment), s.world.now, s.world))
            && (source == NextPage ==> a.cycle == s.agent.cycle)
  {
  }

  lemma CheckEffect(s: System, clock: nat, timeout: nat)
    requires s.agent.pending.Some? && s.agent.pending.value.Asked?
    requires s.agent.pending.value.asked <= clock <= s.world.now <= s.agent.pending.value.asked + timeout
    requires s.agent.pending.value.query.cursor.Some? ==> s.agent.cycle.Some?
    ensures var a := Next(s, AgentSync.Event.Check(clock), timeout).agent;
            var request := s.agent.pending.value;
            match Decide(request.state, request.query, request.grant, s.agent.scope, clock, s.world.now)
            case Refused(failure) => failure == ResetRequired ==> a.checkpoint.None?
            case Accepted(position) =>
              && a.pending == Some(Querying(request.asked)) && a.cycle.Some?
              && a.cycle.value.position == position && a.cycle.value.query == request.query
              && a.cycle.value.entries == if request.query.cursor.Some? then s.agent.cycle.value.entries else map[]
  {
    hide Decide;
  }

  lemma PositionFacts(w: World, a: Agent, timeout: nat, lag: nat)
    requires SyncInv(System(w, a), timeout, lag) && a.cycle.Some?
    ensures a.cycle.value.position.after <= Progress(a.cycle.value.position) <= a.cycle.value.position.through
    ensures DistinctRows(w)
  {
    hide Sound, Covered, NotAhead, Converged, Frontier, Distinct;
    SoundRowsAreDistinct(w);
  }

  lemma PageIsPresent(w: World, environment: Name, position: Position, keys: seq<ChangeKey>, last: Option<nat>)
    requires IsPage(w, environment, position, keys, last)
    ensures forall key :: key in keys ==> key in w.changes
  {
  }

  lemma AnswerEffect(s: System, keys: seq<ChangeKey>, last: Option<nat>, timeout: nat)
    requires s.agent.pending.Some? && s.agent.pending.value.Querying? && s.agent.cycle.Some?
    requires s.world.now <= s.agent.pending.value.asked + timeout
    requires IsPage(s.world, s.agent.scope.environment, s.agent.cycle.value.position, keys, last)
    ensures forall key :: key in keys ==> key in s.world.changes
    ensures var a := Next(s, Answer(keys, last), timeout).agent;
            var cycle := s.agent.cycle.value;
            var response := Respond(s.world, s.agent.scope, cycle.query, cycle.position, keys, last);
            var entries := Absorb(cycle.entries, response.changes);
            if response.nextCursor.Some? then
              a.cycle.Some? && a.cycle.value.next == response.nextCursor && a.cycle.value.entries == entries
            else
              && a.completed.Some? && a.completed.value.entries == entries
              && a.completed.value.position.snapshot == response.snapshot
              && response.syncCursor.Some? && a.checkpoint == response.syncCursor
  {
    PageIsPresent(s.world, s.agent.scope.environment, s.agent.cycle.value.position, keys, last);
    hide IsPage, Changes;
  }
}
