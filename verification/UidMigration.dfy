/**
 * The migration from name-keyed to UID-keyed rows: a plan computed from one scan of a quiesced table, and
 * its writes, each atomic, which a crash may cut off anywhere.
 */
module UidMigration {
  import opened Domain

  /** A UID derived from a name by hashing, taken to be injective, or one drawn when a secret was created. */
  datatype Uid = Derived(environment: string, secretId: string) | Drawn(text: string)

  datatype SecretName = SecretName(environment: string, secretId: string)

  datatype Part = ById(secretId: string) | ByUid(uid: Uid)

  datatype Sk = HeadRow | ControlRow(version: string) | PayloadRow(version: string) | OtherRow(text: string)

  /** Table keys. A legacy access row and a migrated one have the same form of sort key. */
  datatype Key =
    | LegacySecret(name: SecretName, sk: Sk)
    | Secret(uid: Uid, sk: Sk)
    | Access(consumer: string, environment: string, part: Part)
    | Lookup(name: SecretName)
    | Grant(id: string)
    | Unrelated(text: string)

  datatype Permission = ReadPermission | WritePermission

  datatype Scope = Scope(uid: Uid, permissions: set<Permission>)

  /** The fields of an AgentGrant profile: its exact grants, and the older scope fields. */
  datatype GrantFields = GrantFields(
    environment: Option<string>,
    capabilities: set<Permission>,
    secretGrants: Option<map<string, Scope>>,
    readIds: Option<set<string>>,
    writeIds: Option<set<string>>,
    hasUids: bool,
    readPrefixes: Option<set<string>>,
    writePrefixes: Option<set<string>>,
    readPaths: bool,
    writePaths: bool)

  datatype Serialized = Serialized(uid: Option<Uid>, body: string)

  datatype Item = Item(
    secretUid: Option<Uid>,
    environment: Option<string>,
    secretId: Option<string>,
    archived: bool,
    prepared: bool,
    controlVersion: Option<string>,
    controlObjectVersion: Option<string>,
    controlObjectKey: Option<string>,
    payloadVersion: Option<string>,
    payloadObjectVersion: Option<string>,
    payloadObjectKey: Option<string>,
    serialized: Option<Serialized>,
    revisionUid: Option<Uid>,
    grant: Option<GrantFields>,
    rest: string)

  type Rows = map<Key, Item>

  type Identities = map<SecretName, Uid>

  // ---------------------------------------------------------------- identities

  predicate IsHead(key: Key) {
    (key.LegacySecret? || key.Secret?) && key.sk == HeadRow
  }

  /** A live head that names itself. */
  predicate Identifies(key: Key, item: Item) {
    IsHead(key) && !item.archived && item.environment.Some? && item.secretId.Some?
  }

  function NameOf(item: Item): SecretName
    requires item.environment.Some? && item.secretId.Some?
  {
    SecretName(item.environment.value, item.secretId.value)
  }

  function UidOf(item: Item): Uid
    requires item.environment.Some? && item.secretId.Some?
  {
    if item.secretUid.Some? then item.secretUid.value else Derived(item.environment.value, item.secretId.value)
  }

  /** The heads agree with their keys, and no name has two UIDs: otherwise planning stops. */
  ghost predicate HeadsAgree(rows: Rows) {
    && (forall key :: key in rows && Identifies(key, rows[key]) && key.LegacySecret? ==> key.name == NameOf(rows[key]))
    && (forall j, k :: j in rows && k in rows && Identifies(j, rows[j]) && Identifies(k, rows[k]) ==>
          (NameOf(rows[j]) == NameOf(rows[k]) ==> UidOf(rows[j]) == UidOf(rows[k])))
  }

  /** The map is what the live heads say. */
  ghost predicate AreIdentities(rows: Rows, ids: Identities) {
    && (forall key :: key in rows && Identifies(key, rows[key]) ==> NameOf(rows[key]) in ids && ids[NameOf(rows[key])] == UidOf(rows[key]))
    && (forall name :: name in ids ==> exists key :: key in rows && Identifies(key, rows[key]) && NameOf(rows[key]) == name)
  }

  /** `collectSecretIdentities`: one pass over the scan, stopping at a head that disagrees. */
  method CollectIdentities(rows: Rows, scan: seq<Key>) returns (ids: Option<Identities>)
    requires forall key :: key in scan <==> key in rows
    ensures ids.Some? <==> HeadsAgree(rows)
    ensures ids.Some? ==> AreIdentities(rows, ids.value)
  {
    var found: Identities := map[];
    var i := 0;
    while i < |scan|
      invariant 0 <= i <= |scan|
      invariant forall k :: 0 <= k < i && Identifies(scan[k], rows[scan[k]]) ==>
                  (scan[k].LegacySecret? ==> scan[k].name == NameOf(rows[scan[k]]))
                  && NameOf(rows[scan[k]]) in found && found[NameOf(rows[scan[k]])] == UidOf(rows[scan[k]])
      invariant forall name :: name in found ==>
                  exists k :: 0 <= k < i && Identifies(scan[k], rows[scan[k]]) && NameOf(rows[scan[k]]) == name
    {
      var key, item := scan[i], rows[scan[i]];
      if Identifies(key, item) {
        if key.LegacySecret? && key.name != NameOf(item) {
          return None;
        }
        var name, uid := NameOf(item), UidOf(item);
        if name in found && found[name] != uid {
          return None;
        }
        found := found[name := uid];
      }
      i := i + 1;
    }
    forall j, k | j in rows && k in rows && Identifies(j, rows[j]) && Identifies(k, rows[k]) && NameOf(rows[j]) == NameOf(rows[k])
      ensures UidOf(rows[j]) == UidOf(rows[k])
    {
      assert j in scan && k in scan;
    }
    forall key | key in rows && Identifies(key, rows[key])
      ensures (key.LegacySecret? ==> key.name == NameOf(rows[key])) && NameOf(rows[key]) in found && found[NameOf(rows[key])] == UidOf(rows[key])
    {
      assert key in scan;
    }
    forall name | name in found ensures exists key :: key in rows && Identifies(key, rows[key]) && NameOf(rows[key]) == name {
      var k :| 0 <= k < |scan| && Identifies(scan[k], rows[scan[k]]) && NameOf(rows[scan[k]]) == name;
      assert scan[k] in rows;
    }
    ids := Some(found);
  }

  // ---------------------------------------------------------------- what is planned for one row

  function LegacyObjectKey(name: SecretName, kind: string, version: string): string {
    "secrets/" + name.environment + "/" + name.secretId + "/" + kind + "/" + version + ".json"
  }

  /** A migrated head keeps naming its old immutable objects; `None` where the script throws. */
  function WithObjectKeys(item: Item, name: SecretName): Option<Item> {
    if item.controlVersion.None? then None
    else if item.controlObjectVersion.None? then if item.prepared then Some(item) else None
    else
      var control := item.(controlObjectKey :=
        if item.controlObjectKey.Some? then item.controlObjectKey
        else Some(LegacyObjectKey(name, "control", item.controlVersion.value)));
      if item.payloadVersion.None? && item.payloadObjectVersion.None? then Some(control)
      else if item.payloadVersion.None? || item.payloadObjectVersion.None? then None
      else
        Some(control.(payloadObjectKey :=
          if item.payloadObjectKey.Some? then item.payloadObjectKey
          else Some(LegacyObjectKey(name, "payload", item.payloadVersion.value))))
  }

  function WithUid(serialized: Option<Serialized>, uid: Uid): Option<Serialized> {
    if serialized.Some? then Some(serialized.value.(uid := Some(uid))) else None
  }

  function MigratedSecret(sk: Sk, item: Item, name: SecretName, uid: Uid): Option<Item> {
    var base := item.(secretUid := Some(uid));
    match sk
    case HeadRow => WithObjectKeys(base, name)
    case ControlRow(_) => Some(base.(revisionUid := Some(uid), serialized := WithUid(item.serialized, uid)))
    case PayloadRow(_) => Some(base.(serialized := WithUid(item.serialized, uid)))
    case OtherRow(_) => Some(base)
  }

  /** A row without a UID under a name-shaped key. */
  predicate Moves(key: Key, item: Item) {
    item.secretUid.None? && (key.LegacySecret? || key.Access?)
  }

  /** The name a moving row is filed under; a UID in its place names no secret. */
  function FiledUnder(key: Key): Option<SecretName> {
    match key
    case LegacySecret(name, _) => Some(name)
    case Access(_, environment, ById(secretId)) => Some(SecretName(environment, secretId))
    case _ => None
  }

  function TargetKey(key: Key, ids: Identities): Key {
    match key
    case LegacySecret(name, sk) => if name in ids then Secret(ids[name], sk) else key
    case Access(consumer, environment, ById(secretId)) =>
      if SecretName(environment, secretId) in ids
      then Access(consumer, environment, ByUid(ids[SecretName(environment, secretId)])) else key
    case _ => key
  }

  function TargetItem(key: Key, item: Item, ids: Identities): Option<Item> {
    if FiledUnder(key).None? || FiledUnder(key).value !in ids then None
    else
      var uid := ids[FiledUnder(key).value];
      if key.LegacySecret? then MigratedSecret(key.sk, item, key.name, uid) else Some(item.(secretUid := Some(uid)))
  }

  function LookupItem(name: SecretName, uid: Uid): Item {
    Item(Some(uid), Some(name.environment), Some(name.secretId), false, false, None, None, None, None, None, None, None, None, None, "")
  }

  // ---------------------------------------------------------------- grants

  predicate HasOldScopes(grant: GrantFields) {
    grant.readIds.Some? || grant.writeIds.Some? || grant.hasUids
    || grant.readPrefixes.Some? || grant.writePrefixes.Some? || grant.readPaths || grant.writePaths
  }

  predicate NeedsUpdate(key: Key, item: Item) {
    key.Grant? && item.grant.Some? && (item.grant.value.secretGrants.None? || HasOldScopes(item.grant.value))
  }

  predicate Below(secretId: string, prefix: string) {
    secretId == prefix || prefix + "/" <= secretId
  }

  /** The secrets a capability names: an explicit list, or what its prefixes cover today. */
  ghost function ScopeIds(listed: Option<set<string>>, enabled: bool, paths: bool, prefixes: Option<set<string>>,
                          environment: string, ids: Identities): Option<set<string>>
  {
    if listed.Some? then listed
    else if !enabled then Some({})
    else if paths || prefixes.None? || prefixes.value == {} then None
    else
      Some(set name | name in ids && name.environment == environment
                      && (exists prefix :: prefix in prefixes.value && Below(name.secretId, prefix)) :: name.secretId)
  }

  ghost function MigratedGrants(grant: GrantFields, environment: string, ids: Identities): Option<map<string, Scope>> {
    var read := ScopeIds(grant.readIds, ReadPermission in grant.capabilities, grant.readPaths, grant.readPrefixes, environment, ids);
    var write := ScopeIds(grant.writeIds, WritePermission in grant.capabilities, grant.writePaths, grant.writePrefixes, environment, ids);
    if read.None? || write.None? then None
    else if exists id :: id in read.value + write.value && SecretName(environment, id) !in ids then None
    else
      Some(map id | id in read.value + write.value ::
        Scope(ids[SecretName(environment, id)],
              (if id in read.value then {ReadPermission} else {}) + (if id in write.value then {WritePermission} else {})))
  }

  /** The rewritten profile, or `None` where the plan records an issue. */
  ghost function UpdatedGrant(item: Item, ids: Identities): Option<Item>
    requires item.grant.Some?
  {
    var grant := item.grant.value;
    if grant.environment.None? then None
    else
      var grants := if grant.secretGrants.Some? then grant.secretGrants else MigratedGrants(grant, grant.environment.value, ids);
      if grants.None? then None
      else Some(item.(grant := Some(GrantFields(grant.environment, grant.capabilities, grants, None, None, false, None, None, false, false))))
  }

  // ---------------------------------------------------------------- the plan

  datatype Write = MoveRow(source: Key) | PutLookup(name: SecretName) | PutGrant(key: Key)

  ghost predicate Planned(rows: Rows, ids: Identities, write: Write) {
    match write
    case MoveRow(key) => key in rows && Moves(key, rows[key])
    case PutLookup(name) => name in ids
    case PutGrant(key) => key in rows && NeedsUpdate(key, rows[key])
  }

  /** Planning neither throws nor records an issue, UIDs are distinct, and no target exists yet. */
  ghost predicate Plannable(rows: Rows, ids: Identities) {
    && HeadsAgree(rows) && AreIdentities(rows, ids)
    && (forall a, b :: a in ids && b in ids && ids[a] == ids[b] ==> a == b)
    && (forall key :: key in rows && Moves(key, rows[key]) ==>
          TargetItem(key, rows[key], ids).Some? && TargetKey(key, ids) !in rows)
    && (forall key :: key in rows && NeedsUpdate(key, rows[key]) ==> UpdatedGrant(rows[key], ids).Some?)
  }

  /** What the plan hands to the table. */
  datatype Action = Move(source: Key, target: Key, item: Item) | Put(key: Key, item: Item)

  ghost function ActionOf(origin: Rows, ids: Identities, write: Write): Action
    requires Plannable(origin, ids) && Planned(origin, ids, write)
  {
    match write
    case MoveRow(key) => Move(key, TargetKey(key, ids), TargetItem(key, origin[key], ids).value)
    case PutLookup(name) => Put(Lookup(name), LookupItem(name, ids[name]))
    case PutGrant(key) => Put(key, UpdatedGrant(origin[key], ids).value)
  }

  /** One write of a plan made from `origin`: a move is one transaction, the rest are single puts. */
  ghost function Perform(rows: Rows, origin: Rows, ids: Identities, write: Write): Rows
    requires Plannable(origin, ids) && Planned(origin, ids, write)
  {
    match write
    case MoveRow(key) => (rows - {key})[TargetKey(key, ids) := TargetItem(key, origin[key], ids).value]
    case PutLookup(name) => rows[Lookup(name) := LookupItem(name, ids[name])]
    case PutGrant(key) => rows[key := UpdatedGrant(origin[key], ids).value]
  }

  // ---------------------------------------------------------------- partly migrated tables

  ghost predicate IsTarget(origin: Rows, ids: Identities, done: iset<Write>, key: Key, source: Key) {
    MoveRow(source) in done && source in origin && TargetKey(source, ids) == key
  }

  /** The row under a key once the given writes of the plan have been made. */
  ghost predicate RowIs(origin: Rows, ids: Identities, done: iset<Write>, rows: Rows, key: Key) {
    if MoveRow(key) in done then key !in rows
    else if exists source :: IsTarget(origin, ids, done, key, source) then
      key in rows && forall source :: IsTarget(origin, ids, done, key, source) ==> Some(rows[key]) == TargetItem(source, origin[source], ids)
    else if key.Lookup? && PutLookup(key.name) in done then
      key in rows && key.name in ids && rows[key] == LookupItem(key.name, ids[key.name])
    else if PutGrant(key) in done then
      key in rows && key in origin && origin[key].grant.Some? && Some(rows[key]) == UpdatedGrant(origin[key], ids)
    else (key in rows <==> key in origin) && (key in rows ==> rows[key] == origin[key])
  }

  ghost predicate Partial(origin: Rows, ids: Identities, done: iset<Write>, rows: Rows) {
    (forall write :: write in done ==> Planned(origin, ids, write)) && (forall key :: RowIs(origin, ids, done, rows, key))
  }

  lemma NothingDone(origin: Rows, ids: Identities)
    ensures Partial(origin, ids, iset{}, origin)
  {
  }

  /** Sources stay name-shaped, targets never are, and distinct sources have distinct targets. */
  lemma TargetsApart(origin: Rows, ids: Identities, j: Key, k: Key)
    requires Plannable(origin, ids) && Planned(origin, ids, MoveRow(j)) && Planned(origin, ids, MoveRow(k))
    ensures TargetKey(j, ids) == TargetKey(k, ids) ==> j == k
    ensures TargetKey(j, ids) != k && !TargetKey(j, ids).Lookup? && !TargetKey(j, ids).Grant?
  {
    assert TargetItem(j, origin[j], ids).Some? && TargetItem(k, origin[k], ids).Some?;
  }

  lemma TargetHasUid(key: Key, item: Item, ids: Identities)
    requires TargetItem(key, item, ids).Some?
    ensures var target := TargetItem(key, item, ids).value;
            && FiledUnder(key).Some? && FiledUnder(key).value in ids && target.secretUid == Some(ids[FiledUnder(key).value])
            && target.environment == item.environment && target.secretId == item.secretId && target.archived == item.archived
            && target.grant == item.grant
  {
  }

  lemma SourceOf(origin: Rows, ids: Identities, done: iset<Write>, rows: Rows, key: Key, source: Key)
    requires Plannable(origin, ids) && Partial(origin, ids, done, rows) && MoveRow(source) in done && TargetKey(source, ids) == key
    ensures source in origin && IsTarget(origin, ids, done, key, source) && MoveRow(key) !in done
    ensures key in rows && Some(rows[key]) == TargetItem(source, origin[source], ids)
  {
    hide Plannable, TargetKey, TargetItem;
    assert Planned(origin, ids, MoveRow(source));
    assert IsTarget(origin, ids, done, key, source);
    if MoveRow(key) in done { TargetsApart(origin, ids, source, key); }
    assert RowIs(origin, ids, done, rows, key);
  }

  /** Making one more write of the plan advances a partly migrated table. */
  lemma PerformAdvances(origin: Rows, ids: Identities, done: iset<Write>, rows: Rows, write: Write)
    requires Plannable(origin, ids) && Partial(origin, ids, done, rows) && Planned(origin, ids, write)
    ensures Partial(origin, ids, done + iset{write}, Perform(rows, origin, ids, write))
  {
    forall key ensures RowIs(origin, ids, done + iset{write}, Perform(rows, origin, ids, write), key) {
      if write.MoveRow? { MoveAdvances(origin, ids, done, rows, write.source, key); }
      else { PutAdvances(origin, ids, done, rows, write, key); }
    }
  }

  lemma MoveAdvances(origin: Rows, ids: Identities, done: iset<Write>, rows: Rows, source: Key, key: Key)
    requires Plannable(origin, ids) && Partial(origin, ids, done, rows) && Planned(origin, ids, MoveRow(source))
    ensures RowIs(origin, ids, done + iset{MoveRow(source)}, Perform(rows, origin, ids, MoveRow(source)), key)
  {
    var after := done + iset{MoveRow(source)};
    var target := TargetKey(source, ids);
    TargetsApart(origin, ids, source, source);
    assert RowIs(origin, ids, done, rows, key);
    forall s | MoveRow(s) in done ensures s in origin && Planned(origin, ids, MoveRow(s)) {}
    hide Plannable, Partial, TargetKey, TargetItem, UpdatedGrant, LookupItem, NeedsUpdate, Moves;
    if key == target {
      OneTarget(origin, ids, after, source, key);
      if MoveRow(key) in done { TargetsApart(origin, ids, source, key); }
    } else if key != source {
      MoveLeavesRow(origin, ids, done, rows, source, key);
    }
  }

  /** A move leaves the rows that are neither its source nor its target. */
  lemma MoveLeavesRow(origin: Rows, ids: Identities, done: iset<Write>, rows: Rows, source: Key, key: Key)
    requires Plannable(origin, ids) && Planned(origin, ids, MoveRow(source)) && RowIs(origin, ids, done, rows, key)
    requires forall write :: write in done ==> Planned(origin, ids, write)
    requires key != source && key != TargetKey(source, ids)
    ensures RowIs(origin, ids, done + iset{MoveRow(source)}, Perform(rows, origin, ids, MoveRow(source)), key)
  {
    hide TargetKey, TargetItem, UpdatedGrant, LookupItem, NeedsUpdate, Moves;
    var after := done + iset{MoveRow(source)};
    assert forall s :: IsTarget(origin, ids, after, key, s) <==> IsTarget(origin, ids, done, key, s);
  }

  /** A moved row is the only source of its target. */
  lemma OneTarget(origin: Rows, ids: Identities, done: iset<Write>, source: Key, key: Key)
    requires Plannable(origin, ids) && Planned(origin, ids, MoveRow(source)) && MoveRow(source) in done && key == TargetKey(source, ids)
    requires forall s :: MoveRow(s) in done ==> s in origin && Planned(origin, ids, MoveRow(s))
    ensures IsTarget(origin, ids, done, key, source)
    ensures forall s :: IsTarget(origin, ids, done, key, s) ==> s == source
  {
    hide Plannable, TargetItem;
    forall s | IsTarget(origin, ids, done, key, s) ensures s == source { TargetsApart(origin, ids, s, source); }
  }

  lemma PutAdvances(origin: Rows, ids: Identities, done: iset<Write>, rows: Rows, write: Write, key: Key)
    requires Plannable(origin, ids) && Partial(origin, ids, done, rows) && Planned(origin, ids, write) && !write.MoveRow?
    ensures RowIs(origin, ids, done + iset{write}, Perform(rows, origin, ids, write), key)
  {
    hide UpdatedGrant, TargetItem, HeadsAgree, AreIdentities;
    var after := done + iset{write};
    assert RowIs(origin, ids, done, rows, key);
    assert forall s :: IsTarget(origin, ids, after, key, s) <==> IsTarget(origin, ids, done, key, s);
    forall s | IsTarget(origin, ids, done, key, s) ensures !key.Lookup? && !key.Grant? {
      assert Planned(origin, ids, MoveRow(s));
      TargetsApart(origin, ids, s, s);
    }
    assert MoveRow(key) in done ==> Planned(origin, ids, MoveRow(key));
    hide Plannable, TargetKey, TargetItem, UpdatedGrant;
  }

  /** The same writes always leave the same table. */
  lemma PartialIsUnique(origin: Rows, ids: Identities, done: iset<Write>, a: Rows, b: Rows)
    requires Plannable(origin, ids) && Partial(origin, ids, done, a) && Partial(origin, ids, done, b)
    ensures a == b
  {
    forall key ensures (key in a <==> key in b) && (key in a ==> a[key] == b[key]) {
      assert RowIs(origin, ids, done, a, key) && RowIs(origin, ids, done, b, key);
    }
  }

  // ---------------------------------------------------------------- replanning

  /** A row that still moves is untouched. */
  lemma StillMoves(origin: Rows, ids: Identities, done: iset<Write>, rows: Rows, key: Key)
    requires Plannable(origin, ids) && Partial(origin, ids, done, rows)
    ensures key in rows && Moves(key, rows[key]) <==>
              (key in origin && Moves(key, origin[key]) && MoveRow(key) !in done)
    ensures key in rows && Moves(key, rows[key]) ==> rows[key] == origin[key]
  {
    assert RowIs(origin, ids, done, rows, key);
    hide Plannable, TargetKey, TargetItem, UpdatedGrant;
    if source :| IsTarget(origin, ids, done, key, source) {
      assert Planned(origin, ids, MoveRow(source));
      TargetIsMigrated(origin, ids, source);
    }
  }

  lemma TargetIsMigrated(origin: Rows, ids: Identities, source: Key)
    requires Plannable(origin, ids) && Planned(origin, ids, MoveRow(source))
    ensures TargetKey(source, ids) !in origin && !TargetKey(source, ids).Grant? && !TargetKey(source, ids).Lookup?
    ensures TargetItem(source, origin[source], ids).Some? && TargetItem(source, origin[source], ids).value.secretUid.Some?
  {
    TargetHasUid(source, origin[source], ids);
  }

  lemma StillUpdates(origin: Rows, ids: Identities, done: iset<Write>, rows: Rows, key: Key)
    requires Plannable(origin, ids) && Partial(origin, ids, done, rows)
    ensures key in rows && NeedsUpdate(key, rows[key]) <==>
              (key in origin && NeedsUpdate(key, origin[key]) && PutGrant(key) !in done)
    ensures key in rows && NeedsUpdate(key, rows[key]) ==> rows[key] == origin[key]
  {
    assert RowIs(origin, ids, done, rows, key);
    hide Plannable, TargetKey, TargetItem;
    if source :| IsTarget(origin, ids, done, key, source) {
      assert Planned(origin, ids, MoveRow(source));
      TargetIsMigrated(origin, ids, source);
    }
  }

  /** Every live head of a partly migrated table comes from one of the original heads, under the same identity. */
  lemma HeadComesFrom(origin: Rows, ids: Identities, done: iset<Write>, rows: Rows, key: Key) returns (from: Key)
    requires Plannable(origin, ids) && Partial(origin, ids, done, rows) && key in rows && Identifies(key, rows[key])
    ensures from in origin && Identifies(from, origin[from]) && NameOf(origin[from]) == NameOf(rows[key])
    ensures NameOf(rows[key]) in ids && UidOf(rows[key]) == ids[NameOf(rows[key])]
    ensures key.LegacySecret? ==> key.name == NameOf(rows[key])
  {
    assert RowIs(origin, ids, done, rows, key);
    if source :| IsTarget(origin, ids, done, key, source) {
      assert Planned(origin, ids, MoveRow(source));
      TargetHasUid(source, origin[source], ids);
      from := source;
    } else {
      from := key;
    }
  }

  /** And every original live head is still there, moved or not. */
  lemma HeadStays(origin: Rows, ids: Identities, done: iset<Write>, rows: Rows, key: Key) returns (to: Key)
    requires Plannable(origin, ids) && Partial(origin, ids, done, rows) && key in origin && Identifies(key, origin[key])
    ensures to in rows && Identifies(to, rows[to]) && NameOf(rows[to]) == NameOf(origin[key])
  {
    assert RowIs(origin, ids, done, rows, key);
    if MoveRow(key) in done {
      assert Planned(origin, ids, MoveRow(key));
      to := TargetKey(key, ids);
      SourceOf(origin, ids, done, rows, to, key);
      TargetHasUid(key, origin[key], ids);
    } else {
      to := key;
      if source :| IsTarget(origin, ids, done, key, source) {
        assert Planned(origin, ids, MoveRow(source));
        TargetIsMigrated(origin, ids, source);
      }
    }
  }

  /** Planning again on a partly migrated table finds the same identities. */
  lemma SameIdentities(origin: Rows, ids: Identities, done: iset<Write>, rows: Rows)
    requires Plannable(origin, ids) && Partial(origin, ids, done, rows)
    ensures HeadsAgree(rows) && AreIdentities(rows, ids)
  {
    hide Plannable, Partial, UidOf, TargetKey, TargetItem;
    forall key | key in rows && Identifies(key, rows[key])
      ensures (key.LegacySecret? ==> key.name == NameOf(rows[key]))
      ensures NameOf(rows[key]) in ids && ids[NameOf(rows[key])] == UidOf(rows[key])
    {
      var _ := HeadComesFrom(origin, ids, done, rows, key);
    }
    forall name | name in ids ensures exists key :: key in rows && Identifies(key, rows[key]) && NameOf(rows[key]) == name {
      var key := IdentityHead(origin, ids, name);
      var _ := HeadStays(origin, ids, done, rows, key);
    }
  }

  lemma IdentityHead(origin: Rows, ids: Identities, name: SecretName) returns (key: Key)
    requires Plannable(origin, ids) && name in ids
    ensures key in origin && Identifies(key, origin[key]) && NameOf(origin[key]) == name
  {
    assert AreIdentities(origin, ids);
    key :| key in origin && Identifies(key, origin[key]) && NameOf(origin[key]) == name;
  }

  /** One write is planned again exactly when it is missing, or puts a LOOKUP; and then it is the same write. */
  lemma ReplanWrite(origin: Rows, ids: Identities, done: iset<Write>, rows: Rows, write: Write)
    requires Plannable(origin, ids) && Partial(origin, ids, done, rows)
    ensures Planned(rows, ids, write) <==> Planned(origin, ids, write) && (write in done ==> write.PutLookup?)
    ensures Planned(rows, ids, write) ==>
              match write
              case MoveRow(key) => rows[key] == origin[key] && TargetItem(key, rows[key], ids).Some? && TargetKey(key, ids) !in rows
              case PutLookup(_) => true
              case PutGrant(key) => rows[key] == origin[key] && UpdatedGrant(rows[key], ids).Some?
  {
    match write
    case MoveRow(key) =>
      StillMoves(origin, ids, done, rows, key);
      if Planned(rows, ids, write) { TargetStillFree(origin, ids, done, rows, key); }
    case PutLookup(_) =>
    case PutGrant(key) => StillUpdates(origin, ids, done, rows, key);
  }

  /** Replanning plans exactly the moves and grant updates that are missing, and every LOOKUP again. */
  lemma ReplanIsRest(origin: Rows, ids: Identities, done: iset<Write>, rows: Rows)
    requires Plannable(origin, ids) && Partial(origin, ids, done, rows)
    ensures Plannable(rows, ids)
    ensures forall write :: Planned(rows, ids, write) <==> Planned(origin, ids, write) && (write in done ==> write.PutLookup?)
    ensures forall write :: Planned(rows, ids, write) ==> ActionOf(rows, ids, write) == ActionOf(origin, ids, write)
  {
    ReplanIsPlannable(origin, ids, done, rows);
    hide Plannable, Partial, TargetItem, TargetKey, UpdatedGrant, Planned;
    forall write
      ensures Planned(rows, ids, write) <==> Planned(origin, ids, write) && (write in done ==> write.PutLookup?)
      ensures Planned(rows, ids, write) ==> ActionOf(rows, ids, write) == ActionOf(origin, ids, write)
    {
      ReplanWrite(origin, ids, done, rows, write);
    }
  }

  lemma ReplanIsPlannable(origin: Rows, ids: Identities, done: iset<Write>, rows: Rows)
    requires Plannable(origin, ids) && Partial(origin, ids, done, rows)
    ensures Plannable(rows, ids)
  {
    SameIdentities(origin, ids, done, rows);
    hide HeadsAgree, AreIdentities, TargetItem, TargetKey, UpdatedGrant, Moves, NeedsUpdate, Partial;
    forall key | key in rows && Moves(key, rows[key])
      ensures TargetItem(key, rows[key], ids).Some? && TargetKey(key, ids) !in rows
    {
      ReplanWrite(origin, ids, done, rows, MoveRow(key));
    }
    forall key | key in rows && NeedsUpdate(key, rows[key]) ensures UpdatedGrant(rows[key], ids).Some? {
      ReplanWrite(origin, ids, done, rows, PutGrant(key));
    }
  }

  lemma TargetStillFree(origin: Rows, ids: Identities, done: iset<Write>, rows: Rows, key: Key)
    requires Plannable(origin, ids) && Partial(origin, ids, done, rows)
    requires key in origin && Moves(key, origin[key]) && MoveRow(key) !in done
    ensures TargetKey(key, ids) !in rows
  {
    var target := TargetKey(key, ids);
    assert Planned(origin, ids, MoveRow(key));
    TargetIsMigrated(origin, ids, key);
    assert RowIs(origin, ids, done, rows, target);
    hide Plannable, TargetKey, TargetItem, UpdatedGrant;
    if source :| IsTarget(origin, ids, done, target, source) {
      assert Planned(origin, ids, MoveRow(source));
      TargetsApart(origin, ids, source, key);
    }
    assert PutGrant(target) in done ==> Planned(origin, ids, PutGrant(target));
  }

  // ---------------------------------------------------------------- running the plan

  /** Every write of the plan made from a table. */
  ghost function Whole(rows: Rows, ids: Identities): iset<Write> {
    iset write | Planned(rows, ids, write)
  }

  /** Two partial applications in a row are one. */
  lemma Compose(origin: Rows, ids: Identities, done: iset<Write>, mid: Rows, more: iset<Write>, rows: Rows)
    requires Plannable(origin, ids) && Partial(origin, ids, done, mid) && Partial(mid, ids, more, rows)
    ensures Partial(origin, ids, done + more, rows)
  {
    ReplanIsRest(origin, ids, done, mid);
    forall key ensures RowIs(origin, ids, done + more, rows, key) {
      ComposeRow(origin, ids, done, mid, more, rows, key);
    }
  }

  lemma ComposeRow(origin: Rows, ids: Identities, done: iset<Write>, mid: Rows, more: iset<Write>, rows: Rows, key: Key)
    requires Plannable(origin, ids) && Partial(origin, ids, done, mid) && Plannable(mid, ids) && Partial(mid, ids, more, rows)
    requires forall write :: Planned(mid, ids, write) <==> Planned(origin, ids, write) && (write in done ==> write.PutLookup?)
    ensures RowIs(origin, ids, done + more, rows, key)
  {
    hide TargetKey, TargetItem, UpdatedGrant;
    assert RowIs(origin, ids, done, mid, key) && RowIs(mid, ids, more, rows, key);
    assert MoveRow(key) in more ==> Planned(mid, ids, MoveRow(key));
    assert MoveRow(key) in done ==> Planned(origin, ids, MoveRow(key));
    assert PutGrant(key) in more ==> Planned(mid, ids, PutGrant(key));
    assert PutGrant(key) in done ==> Planned(origin, ids, PutGrant(key));
    StillUpdates(origin, ids, done, mid, key);
    forall source
      ensures IsTarget(origin, ids, done + more, key, source) <==> IsTarget(origin, ids, done, key, source) || IsTarget(mid, ids, more, key, source)
      ensures IsTarget(mid, ids, more, key, source) ==> source in origin && mid[source] == origin[source]
      ensures IsTarget(origin, ids, done, key, source) || IsTarget(mid, ids, more, key, source) ==>
                Planned(origin, ids, MoveRow(source)) && TargetKey(source, ids) == key
                && MoveRow(key) !in done && MoveRow(key) !in more && !key.Lookup? && !key.Grant?
    {
      ComposeTarget(origin, ids, done, mid, more, rows, key, source);
    }
    forall a, b | (IsTarget(origin, ids, done, key, a) || IsTarget(mid, ids, more, key, a))
                  && (IsTarget(origin, ids, done, key, b) || IsTarget(mid, ids, more, key, b))
      ensures a == b
    {
      TargetsApart(origin, ids, a, b);
    }
    hide Plannable, Planned, IsTarget, Moves, Partial, RowIs;
    ComposeCases(origin, ids, done, mid, more, rows, key);
  }

  lemma ComposeTarget(origin: Rows, ids: Identities, done: iset<Write>, mid: Rows, more: iset<Write>, rows: Rows, key: Key, source: Key)
    requires Plannable(origin, ids) && Partial(origin, ids, done, mid) && Plannable(mid, ids) && Partial(mid, ids, more, rows)
    requires forall write :: Planned(mid, ids, write) <==> Planned(origin, ids, write) && (write in done ==> write.PutLookup?)
    ensures IsTarget(origin, ids, done + more, key, source) <==> IsTarget(origin, ids, done, key, source) || IsTarget(mid, ids, more, key, source)
    ensures IsTarget(mid, ids, more, key, source) ==> source in origin && mid[source] == origin[source]
    ensures IsTarget(origin, ids, done, key, source) || IsTarget(mid, ids, more, key, source) ==>
              Planned(origin, ids, MoveRow(source)) && TargetKey(source, ids) == key
              && MoveRow(key) !in done && MoveRow(key) !in more && !key.Lookup? && !key.Grant?
  {
    hide Plannable, RowIs, TargetKey, TargetItem, UpdatedGrant;
    assert MoveRow(source) in more ==> Planned(mid, ids, MoveRow(source));
    assert MoveRow(key) in more ==> Planned(mid, ids, MoveRow(key));
    assert MoveRow(key) in done ==> Planned(origin, ids, MoveRow(key));
    StillMoves(origin, ids, done, mid, source);
    if IsTarget(origin, ids, done, key, source) || IsTarget(mid, ids, more, key, source) {
      TargetsApart(origin, ids, source, source);
      if MoveRow(key) in done || MoveRow(key) in more { TargetsApart(origin, ids, source, key); }
    }
  }

  lemma ComposeCases(origin: Rows, ids: Identities, done: iset<Write>, mid: Rows, more: iset<Write>, rows: Rows, key: Key)
    requires RowIs(origin, ids, done, mid, key) && RowIs(mid, ids, more, rows, key)
    requires PutGrant(key) in more ==> key in mid && key in origin && mid[key] == origin[key] && key.Grant?
    requires PutGrant(key) in done ==> key.Grant?
    requires MoveRow(key) in more ==> key in mid && !key.Grant? && !key.Lookup?
    requires MoveRow(key) in done ==> !key.Grant? && !key.Lookup?
    requires forall source :: IsTarget(origin, ids, done + more, key, source)
                              <==> IsTarget(origin, ids, done, key, source) || IsTarget(mid, ids, more, key, source)
    requires forall source :: IsTarget(mid, ids, more, key, source) ==> source in origin && mid[source] == origin[source]
    requires forall source :: IsTarget(origin, ids, done, key, source) || IsTarget(mid, ids, more, key, source) ==>
               MoveRow(key) !in done && MoveRow(key) !in more && !key.Lookup? && !key.Grant?
               && (forall other :: IsTarget(origin, ids, done, key, other) || IsTarget(mid, ids, more, key, other) ==> other == source)
    ensures RowIs(origin, ids, done + more, rows, key)
  {
  }

  /**
   * Wherever a run was cut off, planning again and applying that plan leaves the table that an
   * uninterrupted run leaves.
   */
  lemma ResumedRunAgrees(origin: Rows, ids: Identities, done: iset<Write>, mid: Rows, resumed: Rows, uninterrupted: Rows)
    requires Plannable(origin, ids) && Partial(origin, ids, done, mid)
    requires Partial(mid, ids, Whole(mid, ids), resumed) && Partial(origin, ids, Whole(origin, ids), uninterrupted)
    ensures resumed == uninterrupted
  {
    ReplanIsRest(origin, ids, done, mid);
    Compose(origin, ids, done, mid, Whole(mid, ids), resumed);
    hide Plannable, Planned, RowIs;
    assert done + Whole(mid, ids) == Whole(origin, ids);
    PartialIsUnique(origin, ids, Whole(origin, ids), resumed, uninterrupted);
  }

  /** The finished table plans no move, no grant update and no issue, and lacks no LOOKUP. */
  lemma FinishedIsFixpoint(origin: Rows, ids: Identities, rows: Rows)
    requires Plannable(origin, ids) && Partial(origin, ids, Whole(origin, ids), rows)
    ensures Plannable(rows, ids)
    ensures forall write :: Planned(rows, ids, write) ==> write.PutLookup? && Lookup(write.name) in rows
    ensures forall name :: name in ids ==> Lookup(name) in rows && rows[Lookup(name)].secretUid == Some(ids[name])
  {
    ReplanIsRest(origin, ids, Whole(origin, ids), rows);
    forall name | name in ids ensures Lookup(name) in rows && rows[Lookup(name)].secretUid == Some(ids[name]) {
      assert RowIs(origin, ids, Whole(origin, ids), rows, Lookup(name));
      assert Planned(origin, ids, PutLookup(name));
      forall source | IsTarget(origin, ids, Whole(origin, ids), Lookup(name), source) ensures false {
        TargetsApart(origin, ids, source, source);
      }
    }
  }

  /** No row is lost: it is unchanged, or it is its own target, its own updated grant, or a LOOKUP of the plan. */
  lemma NothingIsLost(origin: Rows, ids: Identities, rows: Rows, key: Key)
    requires Plannable(origin, ids) && Partial(origin, ids, Whole(origin, ids), rows) && key in origin
    ensures if Moves(key, origin[key]) then
              && key !in rows && TargetKey(key, ids) in rows
              && Some(rows[TargetKey(key, ids)]) == TargetItem(key, origin[key], ids)
            else if NeedsUpdate(key, origin[key]) then key in rows && Some(rows[key]) == UpdatedGrant(origin[key], ids)
            else if key.Lookup? && key.name in ids then key in rows
            else key in rows && rows[key] == origin[key]
  {
    assert RowIs(origin, ids, Whole(origin, ids), rows, key);
    if Moves(key, origin[key]) {
      SourceOf(origin, ids, Whole(origin, ids), rows, TargetKey(key, ids), key);
    }
    forall source | IsTarget(origin, ids, Whole(origin, ids), key, source) ensures false {
      TargetIsMigrated(origin, ids, source);
    }
  }

  ghost function Prefix(writes: seq<Write>, n: nat): iset<Write>
    requires n <= |writes|
  {
    iset write | write in writes[..n] :: write
  }

  lemma PrefixGrows(writes: seq<Write>, n: nat)
    requires n < |writes|
    ensures Prefix(writes, n + 1) == Prefix(writes, n) + iset{writes[n]}
  {
    assert writes[..n + 1] == writes[..n] + [writes[n]];
    forall write ensures write in Prefix(writes, n + 1) <==> write in Prefix(writes, n) + iset{writes[n]} {
      assert write in writes[..n + 1] <==> write in writes[..n] || write == writes[n];
    }
  }

  class Store {
    var rows: Rows

    constructor (rows: Rows)
      ensures this.rows == rows
    {
      this.rows := rows;
    }

    /** The apply loops of `run`, cut off after `budget` writes. */
    method ApplyPlan(plan: seq<Action>, budget: nat, ghost ids: Identities, ghost writes: seq<Write>) returns (made: nat)
      requires Plannable(rows, ids) && |writes| == |plan|
      requires forall i :: 0 <= i < |plan| ==> Planned(rows, ids, writes[i]) && plan[i] == ActionOf(rows, ids, writes[i])
      modifies this
      ensures made == if budget < |plan| then budget else |plan|
      ensures Partial(old(rows), ids, Prefix(writes, made), rows)
    {
      hide Plannable, Partial, Planned;
      ghost var origin := rows;
      made := 0;
      NothingDone(origin, ids);
      assert Prefix(writes, 0) == iset{};
      while made < |plan| && made < budget
        decreases |plan| - made
        invariant made <= |plan| && made <= budget
        invariant Partial(origin, ids, Prefix(writes, made), rows)
      {
        PerformAdvances(origin, ids, Prefix(writes, made), rows, writes[made]);
        PrefixGrows(writes, made);
        match plan[made] {
          case Move(source, target, item) => rows := (rows - {source})[target := item];
          case Put(key, item) => rows := rows[key := item];
        }
        made := made + 1;
      }
    }
  }
}
