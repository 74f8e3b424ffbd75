/** The access rows refine the current ACL, and an archived secret has no name. */
module AccessInvariants {
  import opened Domain
  import opened Revisions
  import opened RevisionInvariants

  function StoredAccess(c: Cell, consumer: Id): Option<AccessRow> {
    if consumer in c.access then Some(c.access[consumer]) else None
  }

  ghost predicate PriorFresh(c: Cell, prior: map<Id, AccessRow>, read: set<Id>) {
    forall k :: k in read ==> (k in prior <==> k in c.access) && (k in prior ==> prior[k] == c.access[k])
  }

  ghost predicate Carries(c: Cell, version: Id) {
    c.head.Some? && c.head.value.control == version
  }

  /** Locals read outside the lease: trustworthy while the head has not moved on and the secret has its name. */
  ghost predicate NamedOp(c: Cell, uid: Id, resolves: bool, op: Op) {
    match op
    case Reading(request, base, prior, read, lookup) =>
      && prior.Keys <= read <= base.control.acl.Keys
      && (lookup.Some? ==> lookup.value.consumer in base.control.acl)
      && (Carries(c, base.head.control) && resolves ==>
            PriorFresh(c, prior, read) && (lookup.Some? ==> lookup.value.uid == Some(uid)))
    case _ => true
  }

  ghost predicate NamedOps(c: Cell, uid: Id, resolves: bool) {
    forall o :: o in c.ops ==> NamedOp(c, uid, resolves, c.ops[o])
  }

  /** What the lease holder will write is still consistent with the table. */
  ghost predicate HolderOk(c: Cell, resolves: bool) {
    c.head.Some? && c.head.value.lease.Some? && c.head.value.lease.value.owner in c.ops
    && InFlight(c.ops[c.head.value.lease.value.owner]) ==>
      var m := c.ops[c.head.value.lease.value.owner].mutation;
      && (m.base.Some? ==> m.prior.Keys <= m.base.value.control.acl.Keys
                           && (resolves ==> PriorFresh(c, m.prior, m.base.value.control.acl.Keys))
                           && (m.control.state == Archived && !m.archive ==> m.base.value.control.state == Archived))
      && (m.base.None? ==> m.prior == map[] && m.control.state == PendingValue)
  }

  /** Every row carries the secret's own name. */
  ghost predicate RowNames(c: Cell) {
    forall k :: k in c.access ==> c.access[k].environment == c.environment && c.access[k].secretId == c.secretId
  }

  /** Row by row: readable exactly when the current ACL says so. */
  ghost predicate AccessOk(c: Cell) {
    ReadableBy(c.access) == (if |c.log| > 0 then Readers(CurrentControl(c).acl) else {})
  }

  ghost predicate NameOk(c: Cell, resolves: bool) {
    && (c.head.None? ==> !resolves)
    && (c.head.Some? && !c.head.value.ready ==> resolves && c.head.value.state == PendingValue)
    && (|c.log| > 0 && CurrentControl(c).state == Archived ==> !resolves)
  }

  /** The rows follow the ACL while the secret has its name, and before it has a revision. */
  ghost predicate NamedAccessOk(c: Cell, resolves: bool) {
    RowNames(c) && (resolves || |c.log| == 0 ==> AccessOk(c))
  }

  ghost predicate NamedInv(c: Cell, uid: Id, resolves: bool) {
    NamedOps(c, uid, resolves) && HolderOk(c, resolves) && NamedAccessOk(c, resolves) && NameOk(c, resolves)
  }

  // ---------------------------------------------------------------- framing

  /** Steps that change neither the head's revision and lease, nor the access rows, nor the log. */
  ghost predicate SameNamed(c: Cell, d: Cell) {
    && d.access == c.access && d.log == c.log && d.environment == c.environment && d.secretId == c.secretId
    && c.head.Some? == d.head.Some?
    && (c.head.Some? ==> d.head.value.control == c.head.value.control && d.head.value.ready == c.head.value.ready
                         && d.head.value.state == c.head.value.state
                         && (d.head.value.lease == c.head.value.lease || d.head.value.lease.None?))
  }

  lemma NamedFramed(c: Cell, d: Cell, uid: Id, resolves: bool)
    requires NamedInv(c, uid, resolves) && SameNamed(c, d) && d.ops == c.ops
    ensures NamedInv(d, uid, resolves)
  {
    forall o | o in d.ops ensures NamedOp(d, uid, resolves, d.ops[o]) { NamedOpFramed(c, d, uid, resolves, c.ops[o]); }
  }

  lemma NamedOpFramed(c: Cell, d: Cell, uid: Id, resolves: bool, op: Op)
    requires NamedOp(c, uid, resolves, op) && d.access == c.access && d.log == c.log
    requires c.head.Some? == d.head.Some? && (c.head.Some? ==> d.head.value.control == c.head.value.control)
    ensures NamedOp(d, uid, resolves, op)
  {
  }

  lemma NamedLocal(c: Cell, o: Id, op: Op, uid: Id, resolves: bool)
    requires NamedInv(c, uid, resolves) && LeaseOk(c) && NamedOp(c, uid, resolves, op) && KeepsMutation(c, o, op)
    ensures NamedInv(c.(ops := c.ops[o := op]), uid, resolves)
  {
    var d := c.(ops := c.ops[o := op]);
    forall x | x in d.ops ensures NamedOp(d, uid, resolves, d.ops[x]) {
      NamedOpFramed(c, d, uid, resolves, d.ops[x]);
    }
  }

  // ---------------------------------------------------------------- reads

  lemma BeginNamed(c: Cell, o: Id, request: Request, uid: Id, resolves: bool)
    requires LeaseOk(c) && NamedInv(c, uid, resolves)
    ensures NamedInv(Begin(c, o, request), uid, resolves)
  {
    if o !in c.ops { NamedLocal(c, o, Resolved(request), uid, resolves); }
  }

  lemma ReadHeadNamed(c: Cell, o: Id, uid: Id, resolves: bool)
    requires LeaseOk(c) && NamedInv(c, uid, resolves)
    ensures NamedInv(ReadHead(c, o), uid, resolves)
  {
    hide LeaseOk, NamedInv, NamedOp;
    var d := ReadHead(c, o);
    if d != c {
      ReadHeadOp(c, o, uid, resolves);
      NamedLocal(c, o, d.ops[o], uid, resolves);
    }
  }

  lemma ReadHeadOp(c: Cell, o: Id, uid: Id, resolves: bool)
    requires NamedInv(c, uid, resolves) && ReadHead(c, o) != c
    ensures NamedOp(c, uid, resolves, ReadHead(c, o).ops[o])
  {
    assert NamedOp(c, uid, resolves, c.ops[o]);
  }

  /** While the secret has its name, a lookup for one of its grants can only find this secret. */
  lemma ResolveAccessNamed(c: Cell, o: Id, consumer: Id, found: Option<Id>, uid: Id, resolves: bool, n: Id)
    requires CellInv(c, n) && NamedInv(c, uid, resolves)
    requires resolves ==> found == Some(uid)
    ensures NamedInv(ResolveAccess(c, o, consumer, found), uid, resolves)
  {
    var d := ResolveAccess(c, o, consumer, found);
    if d != c {
      assert NamedOp(c, uid, resolves, c.ops[o]);
      assert OpOk(c, o, c.ops[o]);
      BaseIsCurrent(c, c.ops[o].base, n);
      NamedLocal(c, o, d.ops[o], uid, resolves);
    }
  }

  lemma BaseIsCurrent(c: Cell, base: Base, n: Id)
    requires CellInv(c, n) && BaseOk(c, base)
    ensures Carries(c, base.head.control) ==> |c.log| > 0 && base.control == CurrentControl(c)
  {
  }

  lemma FetchAccessNamed(c: Cell, o: Id, row: Option<AccessRow>, uid: Id, resolves: bool)
    requires LeaseOk(c) && NamedInv(c, uid, resolves)
    requires o in c.ops && c.ops[o].Reading? && c.ops[o].lookup.Some? && c.ops[o].lookup.value.uid == Some(uid) ==>
               row == StoredAccess(c, c.ops[o].lookup.value.consumer)
    ensures NamedInv(FetchAccess(c, o, row), uid, resolves)
  {
    var d := FetchAccess(c, o, row);
    if d != c {
      assert NamedOp(c, uid, resolves, c.ops[o]);
      NamedLocal(c, o, d.ops[o], uid, resolves);
    }
  }

  lemma PublishReadsNamed(c: Cell, o: Id, state: Option<SyncState>, uid: Id, resolves: bool)
    requires NamedInv(c, uid, resolves) && LeaseOk(c)
    ensures NamedInv(ReadCounter(c, o, state), uid, resolves)
    ensures NamedInv(ReadPrevious(c, o), uid, resolves)
  {
    var d, e := ReadCounter(c, o, state), ReadPrevious(c, o);
    if d != c { NamedLocal(c, o, d.ops[o], uid, resolves); }
    if e != c { NamedLocal(c, o, e.ops[o], uid, resolves); }
  }

  // ---------------------------------------------------------------- prepare and commit

  /** What a successful prepare makes true of the new lease holder. */
  lemma PrepareNamed(c: Cell, o: Id, version: Id, payload: Id, nameFree: bool, now: nat, expires: nat,
                     uid: Id, resolves: bool, after: bool, n: Id)
    requires CellInv(c, n) && NamedInv(c, uid, resolves)
    requires nameFree ==> !resolves
    requires var d := Prepare(c, o, version, payload, nameFree, now, expires);
             after == (resolves || (c.head.None? && d.head.Some?))
    ensures NamedInv(Prepare(c, o, version, payload, nameFree, now, expires), uid, after)
  {
    var mutation := MutationOf(c, o, version, payload, expires);
    if mutation.Some? {
      var m := mutation.value;
      assert NamedOp(c, uid, resolves, c.ops[o]);
      assert OpOk(c, o, c.ops[o]);
      if PrepareAllowed(c, m, nameFree, now) {
        if m.base.Some? { BaseIsCurrent(c, m.base.value, n); }
        PrepareNamedSucceeds(c, o, m, version, payload, nameFree, now, expires, uid, resolves, n);
      } else {
        NamedLocal(c, o, Stopped(None), uid, resolves);
      }
    }
  }

  lemma PrepareNamedSucceeds(c: Cell, o: Id, m: Mutation, version: Id, payload: Id, nameFree: bool, now: nat,
                             expires: nat, uid: Id, resolves: bool, n: Id)
    requires CellInv(c, n) && NamedInv(c, uid, resolves)
    requires MutationOf(c, o, version, payload, expires) == Some(m) && PrepareAllowed(c, m, nameFree, now)
    requires m.base.Some? ==> |c.log| > 0 && m.base.value.control == CurrentControl(c)
    ensures NamedInv(c.(head := Some(PrepareHead(c, o, m)), rows := WithRows(c, o, m), ops := c.ops[o := Leased(m)]),
                     uid, resolves || m.base.None?)
  {
    var d := c.(head := Some(PrepareHead(c, o, m)), rows := WithRows(c, o, m), ops := c.ops[o := Leased(m)]);
    PreparedClientsNamed(c, d, o, m, uid, resolves, n);
    assert OpOk(c, o, c.ops[o]);
    PreparedHolderOk(c, d, o, m, version, payload, expires, uid, resolves);
  }

  lemma PreparedClientsNamed(c: Cell, d: Cell, o: Id, m: Mutation, uid: Id, resolves: bool, n: Id)
    requires CellInv(c, n) && NamedOps(c, uid, resolves) && RowsAbsent(c, m)
    requires m.base.Some? ==> c.head.Some?
    requires d == c.(head := Some(PrepareHead(c, o, m)), rows := WithRows(c, o, m), ops := c.ops[o := Leased(m)])
    ensures NamedOps(d, uid, resolves || m.base.None?)
  {
    hide CellInv, NamedOp;
    forall x | x in d.ops ensures NamedOp(d, uid, resolves || m.base.None?, d.ops[x]) {
      if x == o { LeasedIsNamed(d, uid, resolves || m.base.None?, m); }
      else if m.base.None? { CreatedHeadIsNobodysBase(c, d, x, m, uid, resolves, n); }
      else { NamedOpFramed(c, d, uid, resolves, c.ops[x]); }
    }
  }

  lemma LeasedIsNamed(d: Cell, uid: Id, resolves: bool, m: Mutation)
    ensures NamedOp(d, uid, resolves, Leased(m))
  {
  }

  /** The new lease holder computed its mutation from locals that the lease now freezes. */
  lemma PreparedHolderOk(c: Cell, d: Cell, o: Id, m: Mutation, version: Id, payload: Id, expires: nat, uid: Id,
                         resolves: bool)
    requires MutationOf(c, o, version, payload, expires) == Some(m)
    requires o in c.ops && NamedOp(c, uid, resolves, c.ops[o]) && OpOk(c, o, c.ops[o]) && NameOk(c, resolves)
    requires m.base.Some? ==> Carries(c, m.base.value.head.control) && |c.log| > 0 && m.base.value.control == CurrentControl(c)
    requires d == c.(head := Some(PrepareHead(c, o, m)), rows := WithRows(c, o, m), ops := c.ops[o := Leased(m)])
    ensures HolderOk(d, resolves || m.base.None?)
  {
  }

  /** The head that a create prepares carries a revision no other client can have read. */
  lemma CreatedHeadIsNobodysBase(c: Cell, d: Cell, x: Id, m: Mutation, uid: Id, resolves: bool, n: Id)
    requires CellInv(c, n) && x in c.ops && NamedOp(c, uid, resolves, c.ops[x])
    requires RowsAbsent(c, m) && d.head.Some? && d.head.value.control == m.control.version
    requires d.access == c.access && d.log == c.log
    ensures NamedOp(d, uid, true, c.ops[x])
  {
    assert OpOk(c, x, c.ops[x]);
  }

  /** The mutation replaces an ACL that grants something. */
  predicate Rewrites(m: Mutation) {
    m.base.Some? && m.base.value.control.acl != map[] && m.control.acl != m.base.value.control.acl
  }

  lemma CommitNamed(c: Cell, o: Id, previous: Option<nat>, sequence: nat, due: nat, uid: Id, resolves: bool, n: Id)
    requires CellInv(c, n) && NamedInv(c, uid, resolves) && o in c.ops && c.ops[o].Stored?
    requires CommitAllowed(c, o, c.ops[o].mutation, resolves, previous)
    ensures NamedInv(CommitMutation(c, o, c.ops[o].mutation, sequence, due), uid,
                     resolves && !c.ops[o].mutation.archive)
  {
    hide CellInv, NamedInv, TransactionSize, NamedOp;
    var m := c.ops[o].mutation;
    var d := CommitMutation(c, o, m, sequence, due);
    if resolves {
      NamedRows(c, uid);
      CommitKeepsAccess(c, o, sequence, due, n, uid, resolves);
    }
    CommitKeepsRowNames(c, o, sequence, due, n, uid, resolves);
    CommitKeepsName(c, o, sequence, due, n, uid, resolves);
    assert NamedOps(d, uid, resolves && !m.archive) by {
      forall x | x in d.ops ensures NamedOp(d, uid, resolves && !m.archive, d.ops[x]) {
        if x != o { CommitNamedOther(c, o, x, sequence, due, uid, resolves, n); }
        else { CommittedIsNamed(d, uid, resolves && !m.archive, m); }
      }
    }
    NamedParts(d, uid, resolves && !m.archive);
  }

  lemma CommittedIsNamed(d: Cell, uid: Id, resolves: bool, m: Mutation)
    ensures NamedOp(d, uid, resolves, Committed(m))
  {
  }

  lemma NamedParts(d: Cell, uid: Id, resolves: bool)
    requires NamedOps(d, uid, resolves) && HolderOk(d, resolves) && NameOk(d, resolves)
    requires RowNames(d) && |d.log| > 0 && (resolves ==> AccessOk(d))
    ensures NamedInv(d, uid, resolves)
  {
  }

  lemma NamedRows(c: Cell, uid: Id)
    requires NamedInv(c, uid, true)
    ensures AccessOk(c)
  {
  }

  /** After a commit the readable rows are again exactly the current ACL's readers. */
  lemma CommitKeepsAccess(c: Cell, o: Id, sequence: nat, due: nat, n: Id, uid: Id, resolves: bool)
    requires CellInv(c, n) && NamedInv(c, uid, resolves) && o in c.ops && c.ops[o].Stored?
    requires c.head.Some? && c.head.value.lease.Some? && c.head.value.lease.value.owner == o
    requires AccessOk(c) && (Rewrites(c.ops[o].mutation) ==> resolves)
    ensures AccessOk(CommitMutation(c, o, c.ops[o].mutation, sequence, due))
  {
    hide CellInv, NamedInv;
    CommitIsExact(c, o, n, uid, resolves);
    var d := CommitMutation(c, o, c.ops[o].mutation, sequence, due);
    assert CurrentControl(d) == c.ops[o].mutation.control;
  }

  lemma CommitKeepsRowNames(c: Cell, o: Id, sequence: nat, due: nat, n: Id, uid: Id, resolves: bool)
    requires CellInv(c, n) && NamedInv(c, uid, resolves) && o in c.ops && c.ops[o].Stored? && c.head.Some?
    ensures RowNames(CommitMutation(c, o, c.ops[o].mutation, sequence, due))
    ensures |CommitMutation(c, o, c.ops[o].mutation, sequence, due).log| > 0
  {
    CommitKeepsEnvironment(c, o, n);
    hide CellInv, NamedOps, HolderOk, NameOk, AccessProjectionChanged, AccessOk;
  }

  lemma CommitKeepsEnvironment(c: Cell, o: Id, n: Id)
    requires CellInv(c, n) && o in c.ops && c.ops[o].Stored?
    ensures OpOk(c, o, c.ops[o]) && ControlShape(c, c.ops[o].mutation.control)
  {
    assert OpOk(c, o, c.ops[o]);
  }

  lemma CommitKeepsName(c: Cell, o: Id, sequence: nat, due: nat, n: Id, uid: Id, resolves: bool)
    requires CellInv(c, n) && NamedInv(c, uid, resolves) && o in c.ops && c.ops[o].Stored?
    requires c.head.Some? && c.head.value.lease.Some? && c.head.value.lease.value.owner == o
    ensures var m := c.ops[o].mutation;
            var d := CommitMutation(c, o, m, sequence, due);
            HolderOk(d, resolves && !m.archive) && NameOk(d, resolves && !m.archive)
  {
    assert OpOk(c, o, c.ops[o]);
    LeaseMeansCurrent(c, o, n);
    hide CellInv;
  }

  /** The new access rows are readable exactly by the new ACL, whether or not the rows were rewritten. */
  lemma CommitIsExact(c: Cell, o: Id, n: Id, uid: Id, resolves: bool)
    requires CellInv(c, n) && NamedInv(c, uid, resolves) && o in c.ops && c.ops[o].Stored?
    requires c.head.Some? && c.head.value.lease.Some? && c.head.value.lease.value.owner == o
    requires AccessOk(c) && (Rewrites(c.ops[o].mutation) ==> resolves)
    ensures var m := c.ops[o].mutation;
            ReadableBy(if AccessProjectionChanged(m.control, m.prior) then c.access + AccessItems(m.control, m.prior)
                       else c.access) == Readers(m.control.acl)
  {
    var m := c.ops[o].mutation;
    assert OpOk(c, o, c.ops[o]);
    LeaseMeansCurrent(c, o, n);
    hide AccessProjectionChanged, AccessItems, ReadableBy, Readers;
    if m.base.Some? && m.base.value.control.acl == m.control.acl {
      KeptAclIsExact(m.control, m.prior, c.access);
    } else {
      AccessRewriteIsExact(m.control, m.prior, c.access, if m.base.Some? then m.base.value.control.acl else map[]);
    }
  }

  /** Named or not, the rows follow the new ACL exactly when the commit accounts for every stored row. */
  lemma CommitFollowsExactly(c: Cell, o: Id, sequence: nat, due: nat, n: Id)
    requires CellInv(c, n) && o in c.ops && c.ops[o].Stored? && c.head.Some?
    ensures var m := c.ops[o].mutation;
            AccessOk(CommitMutation(c, o, m, sequence, due)) <==> Accounts(m.control, m.prior, c.access)
  {
    var m := c.ops[o].mutation;
    CommitKeepsEnvironment(c, o, n);
    RewriteIsExactly(m.control, m.prior, c.access);
    hide CellInv, AccessProjectionChanged, AccessItems, ReadableBy, Readers, Accounts, CommitHead, CommitRows;
    assert CurrentControl(CommitMutation(c, o, m, sequence, due)) == m.control;
  }

  /** Every other client's base is left behind by the commit. */
  lemma CommitNamedOther(c: Cell, o: Id, x: Id, sequence: nat, due: nat, uid: Id, resolves: bool, n: Id)
    requires CellInv(c, n) && NamedInv(c, uid, resolves) && o in c.ops && c.ops[o].Stored? && c.head.Some?
    requires x in c.ops && x != o
    ensures NamedOp(CommitMutation(c, o, c.ops[o].mutation, sequence, due), uid,
                    resolves && !c.ops[o].mutation.archive, c.ops[x])
  {
    var m := c.ops[o].mutation;
    var d := CommitMutation(c, o, m, sequence, due);
    assert OpOk(c, o, c.ops[o]) && OpOk(c, x, c.ops[x]) && NamedOp(c, uid, resolves, c.ops[x]);
  }

  lemma AbortNamed(c: Cell, o: Id, uid: Id, resolves: bool, n: Id)
    requires CellInv(c, n) && NamedInv(c, uid, resolves) && AbortAllowed(c, o, resolves)
    ensures NamedInv(AbortCreate(c, o, resolves), uid, false)
  {
    var d := AbortCreate(c, o, resolves);
    forall x | x in d.ops ensures NamedOp(d, uid, false, d.ops[x]) { assert NamedOp(c, uid, resolves, c.ops[x]); }
  }
}
