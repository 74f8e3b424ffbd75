/** A run in which a name is created, archived, created again for another secret, and granted to a reader. */
module NameReuse {
  import opened Domain
  import opened Revisions
  import opened RevisionInvariants
  import opened ControlPlane
  import opened ControlPlaneInvariants
  import opened IndexInvariants
  import opened NameInvariants
  import opened ControlPlaneTheorems
  import opened VersionIdentity
  import opened SyncIndex
  import opened IndexBackfill
  import opened WriterProgress

  const ENV: Name := "env"
  const KEY: Name := "key"
  const READER: Id := 7

  lemma QuietSize(m: Mutation, previous: Option<nat>)
    requires m.control.acl == map[] && m.prior == map[]
    ensures !AccessProjectionChanged(m.control, m.prior) && TransactionSize(m, previous) <= 100
  {
    assert Readers(m.control.acl) == {} && ReadableBy(m.prior) == {};
  }

  lemma GrantSize(m: Mutation, previous: Option<nat>)
    requires m.control.acl == map[READER := true] && m.prior == map[]
    ensures AccessProjectionChanged(m.control, m.prior) && TransactionSize(m, previous) <= 100
    ensures AccessItems(m.control, m.prior).Keys == {READER}
  {
    var items := AccessItems(m.control, m.prior);
    assert items.Keys == {READER};
    assert |items| == |items.Keys|;
    assert READER in Readers(m.control.acl) && ReadableBy(m.prior) == {};
  }

  /** What the table holds between the writes: nothing but these secrets' rows. */
  ghost predicate Holds(w: World, epoch: Id, sequence: nat, rows: map<Id, nat>, named: Option<Id>) {
    && Sound(w) && w.now == 0 && w.sync == map[ENV := SyncState(epoch, sequence, true)]
    && (forall key :: key in w.changes <==> key.environment == ENV && key.uid in rows && key.sequence == rows[key.uid])
    && LookupName(w, ENV, KEY) == named && ShortLived(w)
  }

  /** Rows that expire do so within the lifetime of an archive. */
  ghost predicate ShortLived(w: World) {
    forall key :: key in w.changes && w.changes[key].ttl.Some? ==> w.changes[key].ttl.value <= ARCHIVE_LIFETIME_SECONDS
  }

  /** A READY secret under the name, with its single grant if any, and no lease. */
  ghost predicate Secret(w: World, uid: Id, sequence: nat, acl: Acl, state: SecretState) {
    && uid in w.cells && NameKey(w.cells[uid]) == (ENV, KEY) && IsReady(w.cells[uid]) && w.cells[uid].head.value.lease.None?
    && SequenceOf(w.cells[uid]) == Some(sequence) && |w.cells[uid].log| > 0
    && CurrentControl(w.cells[uid]).acl == acl && CurrentControl(w.cells[uid]).state == state
    && w.cells[uid].head.value.state == state
  }

  lemma Begins() returns (steps: seq<Step>)
    ensures Holds(Run(Genesis, steps), 0, 0, map[], None)
  {
    steps := [CreateState(ENV)];
    GenesisSound();
    OneStep(Genesis, CreateState(ENV));
    StepIsSound(Genesis, CreateState(ENV));
    hide Sound;
  }

  /** Everything about the rows and the names that a commit changes. */
  lemma CommitHolds(p: World, v: World, uid: Id, m: Mutation, epoch: Id, sequence: nat, rows: map<Id, nat>)
    requires Sound(v) && uid in p.cells && CommittedTo(p, v, uid, m) && NameKey(p.cells[uid]) == (ENV, KEY)
    requires p.now == 0 && p.sync == map[ENV := SyncState(epoch, sequence, true)]
    requires forall key :: key in p.changes <==> key.environment == ENV && key.uid in rows && key.sequence == rows[key.uid]
    requires SequenceOf(p.cells[uid]) == if uid in rows then Some(rows[uid]) else None
    requires forall u :: u in rows ==> rows[u] <= sequence
    requires LookupName(p, ENV, KEY) == Some(uid) && ShortLived(p)
    ensures Holds(v, epoch, sequence + 1, rows[uid := sequence + 1], if m.archive then None else Some(uid))
  {
    hide Sound, CommittedCell, SyncRecordOf, NextChanges, CommittedTo;
    CommitChanges(p, v, uid, m, sequence, rows);
    CommitCounter(p, v, uid, m, epoch, sequence);
    CommitLives(p, v, uid, m);
  }

  lemma CommitLives(p: World, v: World, uid: Id, m: Mutation)
    requires uid in p.cells && CommittedTo(p, v, uid, m) && p.now == 0 && ShortLived(p)
    ensures ShortLived(v)
  {
    hide CommittedCell, SyncRecordOf;
  }

  lemma CommitCounter(p: World, v: World, uid: Id, m: Mutation, epoch: Id, sequence: nat)
    requires uid in p.cells && CommittedTo(p, v, uid, m) && NameKey(p.cells[uid]) == (ENV, KEY)
    requires p.sync == map[ENV := SyncState(epoch, sequence, true)] && LookupName(p, ENV, KEY) == Some(uid)
    ensures v.now == p.now && v.sync == map[ENV := SyncState(epoch, sequence + 1, true)]
    ensures LookupName(v, ENV, KEY) == if m.archive then None else Some(uid)
  {
    hide CommittedCell, NextChanges, OthersSame;
    SameMoment(p, v, uid);
  }

  lemma SameMoment(p: World, v: World, uid: Id)
    requires uid in p.cells && OthersSame(p, v, uid)
    ensures v.now == p.now
  {
  }

  lemma CommitChanges(p: World, v: World, uid: Id, m: Mutation, sequence: nat, rows: map<Id, nat>)
    requires uid in p.cells && CommittedTo(p, v, uid, m) && NameKey(p.cells[uid]) == (ENV, KEY) && NextSequence(StateOf(p, ENV)) == sequence + 1
    requires forall key :: key in p.changes <==> key.environment == ENV && key.uid in rows && key.sequence == rows[key.uid]
    requires SequenceOf(p.cells[uid]) == if uid in rows then Some(rows[uid]) else None
    requires forall u :: u in rows ==> rows[u] <= sequence
    ensures forall key :: key in v.changes <==>
              key.environment == ENV && key.uid in rows[uid := sequence + 1] && key.sequence == rows[uid := sequence + 1][key.uid]
  {
    hide CommittedCell, SyncRecordOf, ChangeTtl;
    assert v.changes == NextChanges(p, uid, m.control, sequence + 1);
  }

  lemma CommitSecret(p: World, v: World, uid: Id, m: Mutation, sequence: nat)
    requires uid in p.cells && CommittedTo(p, v, uid, m) && NameKey(p.cells[uid]) == (ENV, KEY)
    requires NextSequence(StateOf(p, ENV)) == sequence
    ensures Secret(v, uid, sequence, m.control.acl, m.control.state)
    ensures v.cells[uid].head.value.control == m.control.version && CurrentControl(v.cells[uid]) == m.control
  {
    hide AccessProjectionChanged, AccessItems, NextChanges;
  }

  lemma Creates(w: World, epoch: Id, sequence: nat, rows: map<Id, nat>) returns (steps: seq<Step>, uid: Id)
    requires Holds(w, epoch, sequence, rows, None) && sequence < 100 && (forall u :: u in rows ==> rows[u] <= sequence && u in w.cells)
    ensures uid !in w.cells && uid in Run(w, steps).cells && (forall u :: u in w.cells ==> u in Run(w, steps).cells && Run(w, steps).cells[u] == w.cells[u])
    ensures Holds(Run(w, steps), epoch, sequence + 1, rows[uid := sequence + 1], Some(uid))
    ensures Secret(Run(w, steps), uid, sequence + 1, map[], PendingValue) && Run(w, steps).cells[uid].access == map[]
  {
    hide CellsOk, NamesOk, IndexInv, CommittedTo, Run, TransactionSize, Secret;
    var request := CreateRequest(ENV, KEY, "", map[]);
    uid := w.nextId;
    NextIdIsNew(w);
    var p, m := CreateTaken(w, request), CreateMutation(w, request);
    QuietSize(m, None);
    CreateCommits(w, request);
    steps := [StartCreate(request)] + CreateSteps(w);
    RunIsSound(w, steps);
    CommitHolds(p, Run(w, steps), uid, m, epoch, sequence, rows);
    CommitSecret(p, Run(w, steps), uid, m, sequence + 1);
    EmptyAccess(p, Run(w, steps), uid, m);
    OthersStay(p, Run(w, steps), uid, m);
  }

  lemma EmptyAccess(p: World, v: World, uid: Id, m: Mutation)
    requires uid in p.cells && CommittedTo(p, v, uid, m) && !AccessProjectionChanged(m.control, m.prior)
    ensures uid in v.cells && v.cells[uid].access == p.cells[uid].access
  {
    hide NextChanges, AccessProjectionChanged, AccessItems;
  }

  lemma OthersStay(p: World, v: World, uid: Id, m: Mutation)
    requires uid in p.cells && CommittedTo(p, v, uid, m)
    ensures forall u :: u in p.cells && u != uid ==> u in v.cells && v.cells[u] == p.cells[u]
  {
    hide NextChanges, AccessProjectionChanged, AccessItems, CommittedCell;
  }

  /** An archive of the current revision, or an update of it that stores a payload and grants the reader. */
  predicate Wanted(w: World, uid: Id, request: Request) {
    uid in w.cells && w.cells[uid].head.Some?
    && (request == ArchiveRequest(ENV, KEY, w.cells[uid].head.value.control)
        || request == UpdateByName(ENV, KEY, w.cells[uid].head.value.control, None, Some(map[READER := true]), true))
  }

  /** The request has been committed, and nothing else has changed. */
  ghost predicate Updated(w: World, v: World, uid: Id, request: Request, m: Mutation, epoch: Id, sequence: nat, rows: map<Id, nat>) {
    && uid in w.cells && uid in v.cells && (forall u :: u in w.cells && u != uid ==> u in v.cells && v.cells[u] == w.cells[u])
    && Holds(v, epoch, sequence + 1, rows[uid := sequence + 1], if request.ArchiveRequest? then None else Some(uid))
    && !request.CreateRequest? && |w.cells[uid].log| > 0
    && m.control == NextControl(request, CurrentControl(w.cells[uid]), m.control.version, m.control.version + 1)
    && m.prior == map[] && m.newPayload == request.UpdateByName? && CommittedTo(w, v, uid, m)
    && Secret(v, uid, sequence + 1, m.control.acl, m.control.state)
  }

  lemma Updates(w: World, uid: Id, request: Request, epoch: Id, sequence: nat, rows: map<Id, nat>, state: SecretState)
      returns (steps: seq<Step>, m: Mutation)
    requires Holds(w, epoch, sequence, rows, Some(uid)) && Secret(w, uid, sequence, map[], state) && sequence < 100
    requires uid in rows && rows[uid] == sequence && (forall u :: u in rows ==> rows[u] <= sequence)
    requires Wanted(w, uid, request)
    ensures Updated(w, Run(w, steps), uid, request, m, epoch, sequence, rows)
  {
    hide CellsOk, NamesOk, IndexInv, CommittedTo, Run, TransactionSize, UpdateSteps;
    m := MutationFor(w, uid, request, []);
    if request.ArchiveRequest? { QuietSize(m, SequenceOf(w.cells[uid])); } else { GrantSize(m, SequenceOf(w.cells[uid])); }
    UpdateCommits(w, uid, request, []);
    steps := UpdateSteps(w, uid, request, []);
    RunIsSound(w, steps);
    CommitHolds(w, Run(w, steps), uid, m, epoch, sequence, rows);
    CommitSecret(w, Run(w, steps), uid, m, sequence + 1);
    OthersStay(w, Run(w, steps), uid, m);
  }

  /** An archived secret, and the live one that has its name now. */
  ghost predicate Reused(w: World, gone: Id, current: Id) {
    && gone != current && Holds(w, 0, 4, map[gone := 2, current := 4], Some(current))
    && Secret(w, gone, 2, map[], Archived) && Secret(w, current, 4, map[READER := true], Active)
    && Served(w, current) && w.cells[current].head.value.control != CurrentControl(w.cells[gone]).version
  }

  /** The reader is served the secret's payload. */
  predicate Served(w: World, uid: Id) {
    && uid in w.cells && w.cells[uid].head.Some? && w.cells[uid].head.value.payload.Some?
    && ReadAllowed(w, Some(uid), READER, ENV, KEY)
  }

  lemma GrantServes(w: World, v: World, uid: Id, m: Mutation)
    requires uid in w.cells && CommittedTo(w, v, uid, m) && w.cells[uid].access == map[] && NameKey(w.cells[uid]) == (ENV, KEY)
    requires m.control.acl == map[READER := true] && m.prior == map[] && m.newPayload && m.control.payload.Some?
    requires m.control.state == Active && m.control.environment == ENV && m.control.secretId == KEY
    ensures Served(v, uid)
  {
    GrantSize(m, None);
    var items := AccessItems(m.control, m.prior);
    assert items[READER] == AccessRow(ENV, KEY, true, m.control.version, m.control.payload, Active);
    hide AccessProjectionChanged, AccessItems, NextChanges;
    assert v.cells[uid].access == map[] + items;
  }

  /** A revision carries its secret's name. */
  lemma ControlNames(w: World, uid: Id)
    requires Sound(w) && uid in w.cells && IsReady(w.cells[uid])
    ensures |w.cells[uid].log| > 0 && CurrentControl(w.cells[uid]).environment == w.cells[uid].environment
    ensures CurrentControl(w.cells[uid]).secretId == w.cells[uid].secretId
  {
    CellFacts(w, uid);
    HeadIsRead(w.cells[uid], w.nextId);
    hide Sound;
  }

  lemma OneSecret() returns (steps: seq<Step>, gone: Id)
    ensures Holds(Run(Genesis, steps), 0, 1, map[gone := 1], Some(gone)) && Secret(Run(Genesis, steps), gone, 1, map[], PendingValue)
  {
    hide Sound, Run, Secret, Holds;
    var a := Begins();
    var b;
    b, gone := Creates(Run(Genesis, a), 0, 0, map[]);
    steps := a + b;
    RunConcat(Genesis, a, b);
    assert map[][gone := 1] == map[gone := 1];
  }

  lemma Archives(x: World, gone: Id) returns (steps: seq<Step>)
    requires Holds(x, 0, 1, map[gone := 1], Some(gone)) && Secret(x, gone, 1, map[], PendingValue)
    ensures Holds(Run(x, steps), 0, 2, map[gone := 2], None) && Secret(Run(x, steps), gone, 2, map[], Archived)
  {
    hide Sound, Run, Secret, Holds, CommittedTo;
    SecretFacts(x, gone, 1, map[], PendingValue);
    var m;
    steps, m := Updates(x, gone, ArchiveRequest(ENV, KEY, x.cells[gone].head.value.control), 0, 1, map[gone := 1], PendingValue);
    assert map[gone := 1][gone := 2] == map[gone := 2];
  }

  /** Another secret has the name and serves the reader; the archived one is as it was. */
  ghost predicate Granted(z: World, v: World, gone: Id, current: Id) {
    && gone != current && gone in z.cells && gone in v.cells && v.cells[gone] == z.cells[gone]
    && Holds(v, 0, 4, map[gone := 2, current := 4], Some(current))
    && Secret(v, current, 4, map[READER := true], Active) && Served(v, current)
  }

  lemma Grants(z: World, gone: Id, current: Id) returns (steps: seq<Step>)
    requires gone != current && Holds(z, 0, 3, map[gone := 2, current := 3], Some(current)) && gone in z.cells
    requires Secret(z, current, 3, map[], PendingValue) && z.cells[current].access == map[]
    ensures Granted(z, Run(z, steps), gone, current)
  {
    hide Sound, Run, Secret, Holds, CommittedTo, Served, IsReady, Updated, Granted;
    var rows := map[gone := 2, current := 3];
    SecretFacts(z, current, 3, map[], PendingValue);
    var request := UpdateByName(ENV, KEY, z.cells[current].head.value.control, None, Some(map[READER := true]), true);
    var m;
    steps, m := Updates(z, current, request, 0, 3, rows, PendingValue);
    HeldCells(z, 0, 3, rows, Some(current));
    SecretNames(z, current, 3, map[], PendingValue);
    ControlNames(z, current);
    GrantSettles(z, Run(z, steps), gone, current, request, m);
  }

  lemma GrantSettles(z: World, v: World, gone: Id, current: Id, request: Request, m: Mutation)
    requires gone != current && gone in z.cells && Updated(z, v, current, request, m, 0, 3, map[gone := 2, current := 3])
    requires request.UpdateByName? && request.environment == ENV && request.secretId == KEY && request.newAcl == Some(map[READER := true])
             && request.withPayload
    requires z.cells[current].access == map[] && NameKey(z.cells[current]) == (ENV, KEY) && CurrentControl(z.cells[current]).environment == ENV
    ensures Granted(z, v, gone, current)
  {
    hide Sound, Secret, Holds, CommittedTo, Served;
    GrantServes(z, v, current, m);
    assert map[gone := 2, current := 3][current := 4] == map[gone := 2, current := 4];
  }

  lemma GrantIsReachable(y: World, gone: Id) returns (steps: seq<Step>, current: Id)
    requires Holds(y, 0, 2, map[gone := 2], None) && gone in y.cells
    ensures Granted(y, Run(y, steps), gone, current)
  {
    hide Sound, Run, Secret, Holds, Served;
    var d;
    d, current := Creates(y, 0, 2, map[gone := 2]);
    assert map[gone := 2][current := 3] == map[gone := 2, current := 3];
    var e := Grants(Run(y, d), gone, current);
    steps := d + e;
    RunConcat(y, d, e);
  }

  /** The secret is archived, and another gets its name and serves the reader. */
  lemma Reuses(x: World, gone: Id) returns (steps: seq<Step>, current: Id)
    requires KeysApart(x) && Holds(x, 0, 1, map[gone := 1], Some(gone)) && Secret(x, gone, 1, map[], PendingValue)
    ensures Reused(Run(x, steps), gone, current)
  {
    hide Sound, Run, Secret, Holds, Served, CellsOk, KeysApart;
    var a := Archives(x, gone);
    var y := Run(x, a);
    SecretFacts(y, gone, 2, map[], Archived);
    var b;
    b, current := GrantIsReachable(y, gone);
    var v := Run(y, b);
    SecretStays(y, v, gone, 2, map[], Archived);
    steps := a + b;
    RunConcat(x, a, b);
    HeldCells(x, 0, 1, map[gone := 1], Some(gone));
    RunKeepsApart(x, steps);
    SecretFacts(v, gone, 2, map[], Archived);
    SecretFacts(v, current, 4, map[READER := true], Active);
    HeldCells(v, 0, 4, map[gone := 2, current := 4], Some(current));
    ReadyVersion(v, current);
    CurrentVersionsApart(v, current, gone);
  }

  lemma ReadyVersion(w: World, uid: Id)
    requires CellsOk(w) && uid in w.cells && w.cells[uid].head.Some? && w.cells[uid].head.value.state == Active
    ensures |w.cells[uid].log| > 0 && w.cells[uid].head.value.control == CurrentControl(w.cells[uid]).version
  {
    CellFacts(w, uid);
    hide CellsOk;
  }

  lemma SecretFacts(w: World, uid: Id, sequence: nat, acl: Acl, state: SecretState)
    requires Secret(w, uid, sequence, acl, state)
    ensures uid in w.cells && w.cells[uid].head.Some? && |w.cells[uid].log| > 0 && CurrentControl(w.cells[uid]).state == state
    ensures w.cells[uid].head.value.state == state && CurrentControl(w.cells[uid]).acl == acl
  {
  }

  lemma SecretNames(w: World, uid: Id, sequence: nat, acl: Acl, state: SecretState)
    requires Secret(w, uid, sequence, acl, state)
    ensures uid in w.cells && NameKey(w.cells[uid]) == (ENV, KEY) && IsReady(w.cells[uid])
  {
  }

  lemma SecretStays(w: World, v: World, uid: Id, sequence: nat, acl: Acl, state: SecretState)
    requires Secret(w, uid, sequence, acl, state) && uid in v.cells && v.cells[uid] == w.cells[uid]
    ensures Secret(v, uid, sequence, acl, state)
  {
  }

  lemma HeldCells(w: World, epoch: Id, sequence: nat, rows: map<Id, nat>, named: Option<Id>)
    requires Holds(w, epoch, sequence, rows, named)
    ensures CellsOk(w) && Sound(w)
  {
    hide CellsOk, NamesOk, IndexInv;
  }

  lemma HeldName(w: World, epoch: Id, sequence: nat, rows: map<Id, nat>, named: Option<Id>)
    requires Holds(w, epoch, sequence, rows, named)
    ensures LookupName(w, ENV, KEY) == named
  {
    hide Sound;
  }

  lemma RunKeepsApartFromGenesis(steps: seq<Step>)
    ensures KeysApart(Run(Genesis, steps))
  {
    GenesisSound();
    NoKeys();
    RunKeepsApart(Genesis, steps);
  }
}
