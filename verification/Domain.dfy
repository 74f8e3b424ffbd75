/** The entities of the control table: identifiers, ACLs, control revisions, access rows and sync records. */
module Domain {
  datatype Option<+T> = None | Some(value: T)

  /** UUIDs. A new one is always drawn from ids never used before. */
  type Id = nat

  type Name = string

  datatype SecretState = PendingValue | Active | Revoked | Archived

  /** An ACL without duplicate consumers; the flag says whether the grant includes "read". */
  type Acl = map<Id, bool>

  function Readers(acl: Acl): set<Id> {
    set k | k in acl && acl[k]
  }

  /** The immutable control revision, stored both in the object store and in its workflow row. */
  datatype Control = Control(
    version: Id,
    environment: Name,
    secretId: Name,
    payload: Option<Id>,
    state: SecretState,
    metadata: string,
    acl: Acl)

  /** The per-environment STATE item of the sync index. */
  datatype SyncState = SyncState(epoch: Id, sequence: nat, ready: bool)

  /** One consumer's delivery row for one secret. */
  datatype AccessRow = AccessRow(
    environment: Name,
    secretId: Name,
    read: bool,
    version: Id,
    payload: Option<Id>,
    state: SecretState)

  predicate Readable(row: AccessRow) {
    row.read && row.state != Revoked
  }

  /** The consumers whose row lets them read. */
  function ReadableBy(access: map<Id, AccessRow>): set<Id> {
    set k | k in access && Readable(access[k])
  }

  /** The projection of a control revision that the sync index publishes. */
  datatype SyncRecord = SyncRecord(
    secretUid: Id,
    secretId: Name,
    control: Id,
    payload: Option<Id>,
    state: SecretState,
    metadata: string,
    readers: set<Id>)

  function SyncRecordOf(uid: Id, control: Control): SyncRecord {
    SyncRecord(uid, control.secretId, control.version, control.payload, control.state, control.metadata,
               Readers(control.acl))
  }

  /** Every consumer with a prior row or a next grant gets a row; those without read get a revocation. */
  function AccessItems(control: Control, prior: map<Id, AccessRow>): map<Id, AccessRow> {
    map k | k in prior.Keys + control.acl.Keys ::
      var read := k in control.acl && control.acl[k];
      AccessRow(control.environment, control.secretId, read, control.version, control.payload,
                if read then control.state else Revoked)
  }

  /** Whether the readable consumers differ from those of the prior rows: sizes first, then membership. */
  predicate AccessProjectionChanged(control: Control, prior: map<Id, AccessRow>) {
    var grants, active := Readers(control.acl), ReadableBy(prior);
    |grants| != |active| || exists k :: k in grants && k !in active
  }

  /** The size-then-membership test is exactly set inequality. */
  lemma ProjectionTestIsSetInequality(control: Control, prior: map<Id, AccessRow>)
    ensures AccessProjectionChanged(control, prior) <==> Readers(control.acl) != ReadableBy(prior)
  {
    var grants, active := Readers(control.acl), ReadableBy(prior);
    if |grants| == |active| && grants <= active {
      SubsetOfEqualSize(grants, active);
    }
  }

  lemma SubsetOfEqualSize<T>(a: set<T>, b: set<T>)
    requires a <= b && |a| == |b|
    ensures a == b
  {
    assert b == a + (b - a);
    assert |b - a| == 0;
  }

  /**
   * A rewrite covers every consumer whose stored row lets it read, with a prior row or a next grant; a rewrite
   * that is skipped finds exactly the new readers in place.
   */
  predicate Accounts(control: Control, prior: map<Id, AccessRow>, access: map<Id, AccessRow>) {
    if AccessProjectionChanged(control, prior) then ReadableBy(access) <= prior.Keys + control.acl.Keys
    else ReadableBy(access) == Readers(control.acl)
  }

  /** Whatever the client has read as prior rows, that is exactly when the new readers are the readable ones. */
  lemma RewriteIsExactly(control: Control, prior: map<Id, AccessRow>, access: map<Id, AccessRow>)
    requires control.state != Revoked
    ensures var next := if AccessProjectionChanged(control, prior) then access + AccessItems(control, prior) else access;
            ReadableBy(next) == Readers(control.acl) <==> Accounts(control, prior, access)
  {
    var items := AccessItems(control, prior);
    var next := access + items;
    hide AccessProjectionChanged;
    assert forall k :: k in items ==> (k in ReadableBy(next) <==> k in Readers(control.acl));
    assert forall k :: k !in items ==> (k in ReadableBy(next) <==> k in ReadableBy(access));
    if ReadableBy(next) == Readers(control.acl) {
      assert forall k :: k in ReadableBy(access) ==> k in items || k in Readers(control.acl);
    } else if ReadableBy(access) <= items.Keys {
      assert forall k :: k in ReadableBy(next) <==> k in Readers(control.acl);
    }
  }

  /**
   * Writing the access items on top of the stored rows, or skipping the write when the projection is
   * unchanged, both leave exactly the new readers readable, provided the prior rows are the stored
   * ones for the consumers of the old ACL and no other consumer was readable.
   */
  lemma AccessRewriteIsExact(control: Control, prior: map<Id, AccessRow>, access: map<Id, AccessRow>, oldAcl: Acl)
    requires control.state != Revoked
    requires prior.Keys <= oldAcl.Keys
    requires forall k :: k in oldAcl ==> (k in prior <==> k in access) && (k in prior ==> prior[k] == access[k])
    requires ReadableBy(access) == Readers(oldAcl)
    ensures var next := if AccessProjectionChanged(control, prior) then access + AccessItems(control, prior) else access;
            ReadableBy(next) == Readers(control.acl)
  {
    ProjectionTestIsSetInequality(control, prior);
    RewriteIsExactly(control, prior, access);
    hide AccessProjectionChanged;
    forall k ensures k in ReadableBy(access) <==> k in ReadableBy(prior) {
      if k in ReadableBy(access) { assert k in Readers(oldAcl); }
    }
    assert ReadableBy(access) == ReadableBy(prior) && ReadableBy(prior) <= prior.Keys;
  }

  /** A revision that keeps the ACL leaves the same readers readable, whatever its prior rows say. */
  lemma KeptAclIsExact(control: Control, prior: map<Id, AccessRow>, access: map<Id, AccessRow>)
    requires control.state != Revoked
    requires ReadableBy(access) == Readers(control.acl)
    ensures var next := if AccessProjectionChanged(control, prior) then access + AccessItems(control, prior) else access;
            ReadableBy(next) == Readers(control.acl)
  {
    RewriteIsExactly(control, prior, access);
    hide AccessProjectionChanged;
    assert Readers(control.acl) <= control.acl.Keys;
  }
}
