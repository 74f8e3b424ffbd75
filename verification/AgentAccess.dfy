/**
 * Keeping a consumer's place in the secrets' ACLs equal to its AgentGrant, one mutation at a time, while
 * no one else writes. Any call may fail and end the reconciliation where it stands.
 */
module AgentAccess {
  import opened Domain

  datatype Secret = Secret(secretId: Name, archived: bool, acl: Acl)

  datatype Listed = Listed(uid: Id, secretId: Name)

  /** Whether the n-th mutation goes through. */
  type Luck = nat -> bool

  /** Everything but one consumer's own entries. */
  function Without(secrets: map<Id, Secret>, consumer: Id): map<Id, Secret> {
    map uid | uid in secrets :: secrets[uid].(acl := secrets[uid].acl - {consumer})
  }

  predicate Names(secrets: map<Id, Secret>, names: map<Name, Id>, uid: Id) {
    uid in secrets && secrets[uid].secretId in names && names[secrets[uid].secretId] == uid
  }

  /** A name resolves to a live secret that carries it, and only a resolved secret has an ACL. */
  ghost predicate WellNamed(secrets: map<Id, Secret>, names: map<Name, Id>) {
    && (forall name :: name in names ==>
          names[name] in secrets && secrets[names[name]].secretId == name && !secrets[names[name]].archived)
    && (forall uid :: uid in secrets && secrets[uid].acl != map[] ==> Names(secrets, names, uid))
    && (forall uid, k :: uid in secrets && k in secrets[uid].acl ==> secrets[uid].acl[k])
  }

  function ReadableSecrets(secrets: map<Id, Secret>, consumer: Id): set<Id> {
    set uid | uid in secrets && consumer in secrets[uid].acl && secrets[uid].acl[consumer]
  }

  class Store {
    var secrets: map<Id, Secret>
    var names: map<Name, Id>
    var writes: nat

    constructor (secrets: map<Id, Secret>, names: map<Name, Id>)
      ensures this.secrets == secrets && this.names == names && writes == 0
    {
      this.secrets, this.names, writes := secrets, names, 0;
    }

    ghost predicate Valid()
      reads this
    {
      WellNamed(secrets, names)
    }

    predicate Resolves(uid: Id)
      reads this
    {
      Names(secrets, names, uid)
    }

    /** The secrets whose ACL lets the consumer read. */
    function Readable(consumer: Id): set<Id>
      reads this
    {
      ReadableSecrets(secrets, consumer)
    }

    /** One `update` of the ACL, which leaves everything else as it is. */
    method SetAcl(uid: Id, acl: Acl, luck: Luck) returns (done: bool)
      requires uid in secrets
      modifies this
      ensures names == old(names) && writes == old(writes) + 1 && done == luck(old(writes))
      ensures secrets == if done then old(secrets)[uid := old(secrets)[uid].(acl := acl)] else old(secrets)
    {
      done := luck(writes);
      writes := writes + 1;
      if done { secrets := secrets[uid := secrets[uid].(acl := acl)]; }
    }

    /** `listAllConsumerSecretGrants`: the live secrets that list the consumer as a reader. */
    method ListGrants(consumer: Id) returns (grants: seq<Listed>)
      requires Valid()
      ensures forall i, j :: 0 <= i < j < |grants| ==> grants[i].uid != grants[j].uid
      ensures forall i :: 0 <= i < |grants| ==>
                grants[i].uid in Readable(consumer) && grants[i].uid in secrets && secrets[grants[i].uid].secretId == grants[i].secretId
      ensures forall uid :: uid in Readable(consumer) ==> exists i :: 0 <= i < |grants| && grants[i].uid == uid
    {
      grants := [];
      var rest := secrets.Keys;
      while rest != {}
        invariant rest <= secrets.Keys
        invariant forall i, j :: 0 <= i < j < |grants| ==> grants[i].uid != grants[j].uid
        invariant forall i :: 0 <= i < |grants| ==> grants[i].uid in Readable(consumer) && grants[i].uid !in rest
                                                    && secrets[grants[i].uid].secretId == grants[i].secretId
        invariant forall uid :: uid in Readable(consumer) && uid !in rest ==> exists i :: 0 <= i < |grants| && grants[i].uid == uid
        decreases |rest|
      {
        var uid :| uid in rest;
        rest := rest - {uid};
        var secret := secrets[uid];
        if consumer in secret.acl && secret.acl[consumer] && !secret.archived {
          ghost var before := grants;
          grants := grants + [Listed(uid, secret.secretId)];
          assert grants[|before|].uid == uid;
          assert forall i :: 0 <= i < |before| ==> grants[i] == before[i];
        } else {
          assert secret.archived ==> secret.acl == map[];
        }
      }
    }

    /** `revokeConsumerSecretGrant`, by name. */
    method Revoke(consumer: Id, secretId: Name, luck: Luck) returns (done: bool)
      requires Valid()
      modifies this
      ensures Valid() && names == old(names) && old(writes) <= writes
      ensures Without(secrets, consumer) == old(Without(secrets, consumer)) && (writes == old(writes) ==> secrets == old(secrets))
      ensures if done then secretId in names && Readable(consumer) == old(Readable(consumer)) - {names[secretId]}
              else secrets == old(secrets) && Readable(consumer) == old(Readable(consumer))
    {
      if secretId !in names { return false; }
      var uid := names[secretId];
      var acl := secrets[uid].acl;
      if consumer !in acl { return false; }
      done := SetAcl(uid, acl - {consumer}, luck);
      assert (acl - {consumer}) - {consumer} == acl - {consumer};
    }

    /** `grantAgentConsumerReadAccess`: never follows a reused name to another secret. */
    method Grant(consumer: Id, uid: Id, secretId: Name, luck: Luck) returns (done: bool)
      requires Valid()
      modifies this
      ensures Valid() && names == old(names) && old(writes) <= writes
      ensures Without(secrets, consumer) == old(Without(secrets, consumer)) && (writes == old(writes) ==> secrets == old(secrets))
      ensures if done then
                && secretId in names
                && Readable(consumer) == old(Readable(consumer)) + (if names[secretId] == uid then {uid} else {})
                && (names[secretId] != uid ==> writes == old(writes))
              else
                && secrets == old(secrets) && Readable(consumer) == old(Readable(consumer))
                && (secretId !in names || names[secretId] != uid ==> writes == old(writes))
    {
      if secretId !in names { return false; }
      if names[secretId] != uid { return true; }
      var acl := secrets[uid].acl;
      if consumer in acl { return true; }
      done := SetAcl(uid, acl[consumer := true], luck);
      assert acl[consumer := true] - {consumer} == acl - {consumer};
    }

    ghost predicate Kept(consumer: Id, names: map<Name, Id>, others: map<Id, Secret>, writes: nat)
      reads this
    {
      this.names == names && Without(secrets, consumer) == others && writes <= this.writes
    }

    /** The first loop: every listed secret that is not desired loses the consumer. */
    method RevokeOthers(consumer: Id, current: seq<Listed>, desired: map<Id, Name>, luck: Luck) returns (done: bool)
      requires Valid()
      requires forall i, j :: 0 <= i < j < |current| ==> current[i].uid != current[j].uid
      requires forall i :: 0 <= i < |current| ==>
                 current[i].uid in Readable(consumer) && current[i].uid in secrets && secrets[current[i].uid].secretId == current[i].secretId
      requires forall uid :: uid in Readable(consumer) ==> exists i :: 0 <= i < |current| && current[i].uid == uid
      modifies this
      ensures Valid() && Kept(consumer, old(names), old(Without(secrets, consumer)), old(writes))
      ensures old(Readable(consumer)) * desired.Keys <= Readable(consumer) <= old(Readable(consumer))
      ensures done ==> Readable(consumer) == old(Readable(consumer)) * desired.Keys
      ensures old(Readable(consumer)) <= desired.Keys ==> done && writes == old(writes)
      ensures writes == old(writes) ==> secrets == old(secrets)
    {
      hide Valid, Readable, Without;
      ghost var initial := Readable(consumer);
      var i := 0;
      while i < |current|
        invariant 0 <= i <= |current| && Valid() && Kept(consumer, old(names), old(Without(secrets, consumer)), old(writes))
        invariant initial * desired.Keys <= Readable(consumer) <= initial
        invariant forall j :: 0 <= j < i && current[j].uid !in desired ==> current[j].uid !in Readable(consumer)
        invariant forall j :: i <= j < |current| ==> current[j].uid in Readable(consumer)
        invariant initial <= desired.Keys ==> writes == old(writes)
        invariant writes == old(writes) ==> secrets == old(secrets)
      {
        if current[i].uid !in desired {
          SameIds(consumer, old(secrets), current[i].uid);
          ListedResolves(consumer, current[i].uid);
          var revoked := Revoke(consumer, current[i].secretId, luck);
          if !revoked { return false; }
        }
        i := i + 1;
      }
      done := true;
    }

    lemma SameIds(consumer: Id, before: map<Id, Secret>, uid: Id)
      requires Without(secrets, consumer) == Without(before, consumer) && uid in before
      ensures uid in secrets && secrets[uid].secretId == before[uid].secretId
    {
      assert uid in Without(before, consumer) && uid in Without(secrets, consumer);
      assert Without(secrets, consumer)[uid].secretId == Without(before, consumer)[uid].secretId;
    }

    lemma ListedResolves(consumer: Id, uid: Id)
      requires Valid() && uid in Readable(consumer)
      ensures Resolves(uid)
    {
      assert secrets[uid].acl != map[];
    }

    /** The second loop: every desired secret that was not listed gains the consumer, if its name still means it. */
    method GrantMissing(consumer: Id, kept: set<Id>, desired: map<Id, Name>, order: seq<Id>, luck: Luck) returns (done: bool)
      requires Valid() && Readable(consumer) == kept && (forall uid :: uid in order <==> uid in desired)
      modifies this
      ensures Valid() && Kept(consumer, old(names), old(Without(secrets, consumer)), old(writes))
      ensures kept <= Readable(consumer) <= kept + desired.Keys
      ensures done ==> forall uid :: uid in desired && uid !in kept ==>
                desired[uid] in names && (uid in Readable(consumer) <==> names[desired[uid]] == uid)
      ensures (forall uid :: uid in desired && uid !in kept ==> desired[uid] !in names || names[desired[uid]] != uid) ==> writes == old(writes)
      ensures writes == old(writes) ==> secrets == old(secrets)
    {
      hide Valid, Readable, Without;
      var i := 0;
      while i < |order|
        invariant 0 <= i <= |order| && Valid() && Kept(consumer, old(names), old(Without(secrets, consumer)), old(writes))
        invariant kept <= Readable(consumer) <= kept + desired.Keys
        invariant forall j :: 0 <= j < i && order[j] !in kept ==>
                    desired[order[j]] in names && (order[j] in Readable(consumer) <==> names[desired[order[j]]] == order[j])
        invariant forall uid :: uid in Readable(consumer) && uid !in kept ==> uid in desired && desired[uid] in names && names[desired[uid]] == uid
        invariant (forall uid :: uid in desired && uid !in kept ==> desired[uid] !in names || names[desired[uid]] != uid) ==> writes == old(writes)
        invariant writes == old(writes) ==> secrets == old(secrets)
      {
        var uid := order[i];
        assert uid in order;
        if uid !in kept {
          var granted := Grant(consumer, uid, desired[uid], luck);
          if !granted { return false; }
        }
        i := i + 1;
      }
      done := true;
      forall uid | uid in desired && uid !in kept
        ensures desired[uid] in names && (uid in Readable(consumer) <==> names[desired[uid]] == uid)
      {
        assert uid in order;
      }
    }

    /**
     * `reconcileAgentReadAccess`. However it ends, no access has appeared beyond what there was and what is
     * desired, and nothing desired has been lost; when it returns normally the readable secrets are exactly
     * the desired ones that were readable or whose name still resolves to them. From such a state it writes
     * nothing.
     */
    method Reconcile(consumer: Id, desired: map<Id, Name>, order: seq<Id>, luck: Luck) returns (done: bool)
      requires Valid() && (forall uid :: uid in order <==> uid in desired)
      modifies this
      ensures Valid() && Kept(consumer, old(names), old(Without(secrets, consumer)), old(writes))
      ensures old(Readable(consumer)) * desired.Keys <= Readable(consumer) <= old(Readable(consumer)) + desired.Keys
      ensures done ==> Readable(consumer) <= desired.Keys
      ensures done ==> forall uid :: uid in desired ==>
                (uid in Readable(consumer) <==> (uid in old(Readable(consumer)) || (desired[uid] in names && names[desired[uid]] == uid)))
      ensures old(Settled(consumer, desired)) ==> writes == old(writes) && secrets == old(secrets)
    {
      var current := ListGrants(consumer);
      done := RevokeOthers(consumer, current, desired, luck);
      if !done { return; }
      var listed := set listed | listed in current :: listed.uid;
      var kept := listed * desired.Keys;
      ghost var initial := old(Readable(consumer));
      forall uid ensures uid in listed <==> uid in initial {
        if uid in initial { assert exists i :: 0 <= i < |current| && current[i].uid == uid; }
      }
      assert kept == Readable(consumer);
      done := GrantMissing(consumer, kept, desired, order, luck);
    }

    /** The consumer reads nothing undesired, and every desired secret it could be given. */
    ghost predicate Settled(consumer: Id, desired: map<Id, Name>)
      reads this
    {
      && Readable(consumer) <= desired.Keys
      && (forall uid :: uid in desired && uid !in Readable(consumer) ==> desired[uid] !in names || names[desired[uid]] != uid)
    }

    /** Twice in a row: if the first run returns normally, the second writes nothing. */
    method ReconcileTwice(consumer: Id, desired: map<Id, Name>, order: seq<Id>, luck: Luck) returns (first: bool, again: nat)
      requires Valid() && (forall uid :: uid in order <==> uid in desired)
      modifies this
      ensures first ==> again == 0
    {
      first := Reconcile(consumer, desired, order, luck);
      var before := writes;
      var _ := Reconcile(consumer, desired, order, luck);
      again := writes - before;
    }
  }
}
