/**
 * Consumer enrollment: an operation, its API identity, its consumer and the shared truststore state move
 * together through conditional transactions, while any number of resumptions of any operation race for
 * one lease that can expire and be taken over.
 */
module Enrollment {
  import opened Domain

  datatype Workflow = Prepared | Ready | Failed

  datatype Operation = Operation(consumer: Id, environment: Name, root: Id, fingerprint: Id, workflow: Workflow)

  datatype IdentityStatus = PendingIdentity | ActiveIdentity | RevokedIdentity | FailedIdentity

  datatype Identity = Identity(consumer: Id, environment: Name, status: IdentityStatus)

  datatype Consumer = Consumer(environment: Name, active: bool, pending: Option<Id>)

  /** A version-pinned bundle and the roots it holds. */
  datatype Bundle = Bundle(pem: Id, roots: set<Id>)

  datatype Truststore = Truststore(owner: Option<Id>, expires: Option<nat>, current: Option<Bundle>, recorded: Option<(Id, Bundle)>)

  /** One call of `resume`, with what it has read so far. */
  datatype Resume =
    | Loaded(o: Id)
    | Leased(o: Id)
    | Listed(o: Id, roots: set<Id>, current: Option<Bundle>)
    | Bundled(o: Id, bundle: Bundle)
    | Attached(o: Id, bundle: Bundle)
    | RolledBack(o: Id)
    | Done

  datatype RequestKey = RequestKey(actor: Id, key: Id)

  datatype Registry = Registry(
    now: nat,
    requests: map<RequestKey, Option<Id>>,
    operations: map<Id, Operation>,
    identities: map<Id, Identity>,
    consumers: map<Id, Consumer>,
    roots: set<Id>,
    truststore: Truststore,
    calls: map<Id, Resume>)

  const LEASE: nat := 10 * 60 * 1000
  const MAXIMUM_CERTIFICATES: nat := 1000

  const Empty := Registry(0, map[], map[], map[], map[], {}, Truststore(None, None, None, None), map[])

  // ---------------------------------------------------------------- transactions

  /** `startEnrollment`: request, identity, operation and consumer, all new. */
  function Start(s: Registry, request: RequestKey, o: Id, consumer: Id, environment: Name, root: Id, fingerprint: Id): Registry {
    if request in s.requests || fingerprint in s.identities || o in s.operations || consumer in s.consumers then s
    else
      s.(requests := s.requests[request := Some(o)],
         identities := s.identities[fingerprint := Identity(consumer, environment, PendingIdentity)],
         operations := s.operations[o := Operation(consumer, environment, root, fingerprint, Prepared)],
         consumers := s.consumers[consumer := Consumer(environment, false, Some(o))])
  }

  /** `associateEnrollmentIdempotency`, after the pending consumer's operation has been read. */
  function Associate(s: Registry, request: RequestKey, o: Id): Registry {
    if request in s.requests || o !in s.operations then s else s.(requests := s.requests[request := Some(o)])
  }

  function AcquireLease(s: Registry, o: Id, expires: nat): Option<Registry> {
    var t := s.truststore;
    if t.expires.None? || t.expires.value < s.now || t.owner == Some(o)
    then Some(s.(truststore := t.(owner := Some(o), expires := Some(expires)))) else None
  }

  function RecordBundle(s: Registry, o: Id, bundle: Bundle): Option<Registry> {
    if s.truststore.owner == Some(o) then Some(s.(truststore := s.truststore.(recorded := Some((o, bundle))))) else None
  }

  predicate IdentityIs(s: Registry, o: Operation, status: IdentityStatus) {
    o.fingerprint in s.identities && s.identities[o.fingerprint].status == status
    && s.identities[o.fingerprint].consumer == o.consumer
  }

  /** `completeEnrollment`: identity, operation, truststore and consumer, or nothing. */
  function Complete(s: Registry, o: Id, bundle: Bundle): Option<Registry> {
    if o !in s.operations then None
    else
      var operation := s.operations[o];
      if IdentityIs(s, operation, PendingIdentity) && operation.workflow == Prepared && s.truststore.owner == Some(o)
         && operation.consumer in s.consumers && !s.consumers[operation.consumer].active
         && s.consumers[operation.consumer].environment == operation.environment
      then
        Some(s.(identities := s.identities[operation.fingerprint := s.identities[operation.fingerprint].(status := ActiveIdentity)],
                operations := s.operations[o := operation.(workflow := Ready)],
                truststore := Truststore(None, None, Some(bundle), None),
                consumers := s.consumers[operation.consumer := s.consumers[operation.consumer].(active := true, pending := None)]))
      else None
  }

  /** `failEnrollment`: the same four records, the consumer deleted. */
  function Fail(s: Registry, o: Id): Option<Registry> {
    if o !in s.operations then None
    else
      var operation := s.operations[o];
      if IdentityIs(s, operation, PendingIdentity) && operation.workflow == Prepared && s.truststore.owner == Some(o)
         && operation.consumer in s.consumers && !s.consumers[operation.consumer].active
      then
        Some(s.(identities := s.identities[operation.fingerprint := s.identities[operation.fingerprint].(status := FailedIdentity)],
                operations := s.operations[o := operation.(workflow := Failed)],
                truststore := Truststore(None, None, s.truststore.current, None),
                consumers := s.consumers - {operation.consumer}))
      else None
  }

  /** `createApiIdentity`, whose caller has seen the consumer ACTIVE. */
  function CreateIdentity(s: Registry, request: RequestKey, consumer: Id, fingerprint: Id): Registry {
    if request in s.requests || fingerprint in s.identities || consumer !in s.consumers || !s.consumers[consumer].active then s
    else
      s.(requests := s.requests[request := None],
         identities := s.identities[fingerprint := Identity(consumer, s.consumers[consumer].environment, ActiveIdentity)])
  }

  function RevokeIdentity(s: Registry, request: RequestKey, consumer: Id, fingerprint: Id): Registry {
    if request in s.requests || fingerprint !in s.identities || s.identities[fingerprint].consumer != consumer
       || s.identities[fingerprint].status != ActiveIdentity then s
    else
      s.(requests := s.requests[request := None],
         identities := s.identities[fingerprint := s.identities[fingerprint].(status := RevokedIdentity)])
  }

  // ---------------------------------------------------------------- every interleaving

  datatype Step =
    | Tick(elapsed: nat)
    | AddRoot(root: Id)
    | StartStep(request: RequestKey, o: Id, consumer: Id, environment: Name, root: Id, fingerprint: Id)
    | AssociateStep(request: RequestKey, o: Id)
    | Load(call: Id, o: Id)
    | Acquire(call: Id)
    | ListRoots(call: Id)
    | MakeBundle(call: Id, pem: Id)
    | Attach(call: Id, accepted: bool)
    | CompleteStep(call: Id)
    | RollBack(call: Id)
    | FailExpired(o: Id)
    | CreateIdentityStep(request: RequestKey, consumer: Id, fingerprint: Id)
    | RevokeStep(request: RequestKey, consumer: Id, fingerprint: Id)

  function WithCall(s: Registry, call: Id, next: Resume): Registry {
    s.(calls := s.calls[call := next])
  }

  /** A transaction that fails throws: the call ends. */
  function OrThrow(s: Registry, result: Option<Registry>, call: Id, next: Resume): Registry {
    if result.Some? then WithCall(result.value, call, next) else WithCall(s, call, Done)
  }

  /** The recorded bundle is reused when it already holds exactly the listed roots. */
  function CurrentForRoots(current: Option<Bundle>, roots: set<Id>): Option<Bundle> {
    if current.Some? && current.value.roots == roots then current else None
  }

  function CallStep(s: Registry, step: Step, call: Id): Registry
    requires call in s.calls
  {
    match (s.calls[call], step)
    case (Loaded(o), Acquire(_)) =>
      OrThrow(s, AcquireLease(s, o, s.now + LEASE), call, Leased(o))
    case (Leased(o), ListRoots(_)) =>
      if o in s.operations && s.operations[o].root in s.roots && |s.roots| <= MAXIMUM_CERTIFICATES
      then WithCall(s, call, Listed(o, s.roots, s.truststore.current))
      else WithCall(s, call, Done)
    case (Listed(o, roots, current), MakeBundle(_, pem)) =>
      if CurrentForRoots(current, roots).Some? then WithCall(s, call, Bundled(o, CurrentForRoots(current, roots).value))
      else OrThrow(s, RecordBundle(s, o, Bundle(pem, roots)), call, Bundled(o, Bundle(pem, roots)))
    case (Bundled(o, bundle), Attach(_, accepted)) =>
      WithCall(s, call, if accepted then Attached(o, bundle) else RolledBack(o))
    case (Attached(o, bundle), CompleteStep(_)) => OrThrow(s, Complete(s, o, bundle), call, Done)
    case (RolledBack(o), RollBack(_)) => OrThrow(s, Fail(s, o), call, Done)
    case _ => s
  }

  function Next(s: Registry, step: Step): Registry {
    match step
    case Tick(elapsed) => s.(now := s.now + elapsed)
    case AddRoot(root) => s.(roots := s.roots + {root})
    case StartStep(request, o, consumer, environment, root, fingerprint) => Start(s, request, o, consumer, environment, root, fingerprint)
    case AssociateStep(request, o) => Associate(s, request, o)
    case Load(call, o) =>
      if call !in s.calls && o in s.operations && s.operations[o].workflow == Prepared then WithCall(s, call, Loaded(o)) else s
    case FailExpired(o) => if Fail(s, o).Some? then Fail(s, o).value else s
    case CreateIdentityStep(request, consumer, fingerprint) => CreateIdentity(s, request, consumer, fingerprint)
    case RevokeStep(request, consumer, fingerprint) => RevokeIdentity(s, request, consumer, fingerprint)
    case _ => if step.call in s.calls then CallStep(s, step, step.call) else s
  }

  function Run(s: Registry, steps: seq<Step>): Registry
    decreases |steps|
  {
    if steps == [] then s else Run(Next(s, steps[0]), steps[1..])
  }

  // ---------------------------------------------------------------- lockstep

  /** The four records of one operation. */
  ghost predicate InStep(s: Registry, o: Id)
    requires o in s.operations
  {
    var operation := s.operations[o];
    && operation.fingerprint in s.identities
    && s.identities[operation.fingerprint].consumer == operation.consumer
    && match operation.workflow
       case Prepared =>
         && s.identities[operation.fingerprint].status == PendingIdentity
         && operation.consumer in s.consumers
         && s.consumers[operation.consumer] == Consumer(operation.environment, false, Some(o))
       case Ready =>
         && (s.identities[operation.fingerprint].status == ActiveIdentity || s.identities[operation.fingerprint].status == RevokedIdentity)
         && operation.consumer in s.consumers
         && s.consumers[operation.consumer] == Consumer(operation.environment, true, None)
       case Failed => s.identities[operation.fingerprint].status == FailedIdentity
  }

  ghost predicate AllInStep(s: Registry) {
    forall o :: o in s.operations ==> InStep(s, o)
  }

  /** No two operations share an identity, and no two that have not failed share a consumer. */
  ghost predicate OperationsApart(s: Registry) {
    forall a, b :: a in s.operations && b in s.operations && a != b ==> Apart(s.operations[a], s.operations[b])
  }

  predicate Apart(a: Operation, b: Operation) {
    a.fingerprint != b.fingerprint && (a.workflow != Failed && b.workflow != Failed ==> a.consumer != b.consumer)
  }

  /** A PENDING consumer points at its PREPARED operation. */
  ghost predicate ConsumersOwned(s: Registry) {
    forall c :: c in s.consumers && !s.consumers[c].active ==>
      && s.consumers[c].pending.Some? && s.consumers[c].pending.value in s.operations
      && s.operations[s.consumers[c].pending.value].consumer == c && s.operations[s.consumers[c].pending.value].workflow == Prepared
  }

  ghost predicate RequestsOk(s: Registry) {
    forall request :: request in s.requests && s.requests[request].Some? ==> s.requests[request].value in s.operations
  }

  ghost predicate Lockstep(s: Registry) {
    AllInStep(s) && OperationsApart(s) && ConsumersOwned(s) && RequestsOk(s)
  }

  /** A bundle in play holds the root of the operation that carries it. */
  ghost predicate BundleHolds(s: Registry, o: Id, roots: set<Id>) {
    o in s.operations && s.operations[o].root in roots
  }

  ghost predicate CallOk(s: Registry, call: Resume) {
    match call
    case Loaded(o) => o in s.operations
    case Leased(o) => o in s.operations
    case Listed(o, roots, current) => BundleHolds(s, o, roots)
    case Bundled(o, bundle) => BundleHolds(s, o, bundle.roots)
    case Attached(o, bundle) => BundleHolds(s, o, bundle.roots)
    case RolledBack(o) => o in s.operations
    case Done => true
  }

  ghost predicate CallsOk(s: Registry) {
    forall call :: call in s.calls ==> CallOk(s, s.calls[call])
  }

  ghost predicate Inv(s: Registry) {
    Lockstep(s) && CallsOk(s)
  }

  // ---------------------------------------------------------------- what every transaction keeps

  lemma StartKeeps(s: Registry, request: RequestKey, o: Id, consumer: Id, environment: Name, root: Id, fingerprint: Id)
    requires Lockstep(s)
    ensures Lockstep(Start(s, request, o, consumer, environment, root, fingerprint))
  {
    var t := Start(s, request, o, consumer, environment, root, fingerprint);
    if t != s {
      forall x | x in t.operations ensures InStep(t, x) { assert x != o ==> InStep(s, x); }
      forall a | a in s.operations ensures Apart(t.operations[a], t.operations[o]) { assert InStep(s, a); }
      forall a, b | a in s.operations && b in s.operations && a != b ensures Apart(t.operations[a], t.operations[b]) {
        assert Apart(s.operations[a], s.operations[b]);
      }
    }
  }

  /** COMPLETE and FAIL take the operation's own records with it and touch no other operation's. */
  lemma CompleteKeeps(s: Registry, o: Id, bundle: Bundle)
    requires Lockstep(s) && Complete(s, o, bundle).Some?
    ensures Lockstep(Complete(s, o, bundle).value)
  {
    var t := Complete(s, o, bundle).value;
    assert InStep(s, o);
    forall x | x in t.operations ensures InStep(t, x) {
      if x != o { assert InStep(s, x) && Apart(s.operations[x], s.operations[o]); }
    }
    forall a, b | a in t.operations && b in t.operations && a != b ensures Apart(t.operations[a], t.operations[b]) {
      assert Apart(s.operations[a], s.operations[b]);
    }
    hide InStep, Apart;
  }

  lemma FailKeeps(s: Registry, o: Id)
    requires Lockstep(s) && Fail(s, o).Some?
    ensures Lockstep(Fail(s, o).value)
  {
    var t := Fail(s, o).value;
    assert InStep(s, o);
    forall x | x in t.operations ensures InStep(t, x) {
      if x != o { assert InStep(s, x) && Apart(s.operations[x], s.operations[o]); }
    }
    forall a, b | a in t.operations && b in t.operations && a != b ensures Apart(t.operations[a], t.operations[b]) {
      assert Apart(s.operations[a], s.operations[b]);
    }
    hide InStep, Apart;
  }

  lemma CreateIdentityKeeps(s: Registry, request: RequestKey, consumer: Id, fingerprint: Id)
    requires Lockstep(s)
    ensures Lockstep(CreateIdentity(s, request, consumer, fingerprint))
  {
    hide Apart;
    var t := CreateIdentity(s, request, consumer, fingerprint);
    forall x | x in s.operations ensures InStep(t, x) { assert InStep(s, x); }
  }

  lemma RevokeIdentityKeeps(s: Registry, request: RequestKey, consumer: Id, fingerprint: Id)
    requires Lockstep(s)
    ensures Lockstep(RevokeIdentity(s, request, consumer, fingerprint))
  {
    hide Apart;
    var t := RevokeIdentity(s, request, consumer, fingerprint);
    forall x | x in s.operations ensures InStep(t, x) { assert InStep(s, x); }
  }

  /** Steps that leave the four records alone. */
  lemma SameRecords(s: Registry, t: Registry)
    requires Lockstep(s)
    requires t.operations == s.operations && t.identities == s.identities && t.consumers == s.consumers
    requires forall r :: r in t.requests && t.requests[r].Some? ==> t.requests[r].value in s.operations
    ensures Lockstep(t)
  {
    hide Apart;
    forall x | x in t.operations ensures InStep(t, x) { assert InStep(s, x); }
  }

  lemma RequestsOf(s: Registry)
    requires Lockstep(s)
    ensures RequestsOk(s)
  {
  }

  /** What one call's step does to the records: nothing, COMPLETE or FAIL. */
  lemma CallEffect(s: Registry, step: Step, call: Id)
    requires call in s.calls
    ensures var t := CallStep(s, step, call);
            || t == s.(truststore := t.truststore, calls := t.calls)
            || (exists o, bundle :: s.calls[call] == Attached(o, bundle) && Complete(s, o, bundle).Some?
                                    && t == Complete(s, o, bundle).value.(calls := t.calls))
            || (exists o :: s.calls[call] == RolledBack(o) && Fail(s, o).Some? && t == Fail(s, o).value.(calls := t.calls))
  {
    hide AcquireLease, RecordBundle, Complete, Fail, CurrentForRoots;
    match s.calls[call]
    case Loaded(o) => TruststoreEffect(s, o, s.now + LEASE, Bundle(0, {}));
    case Listed(o, roots, _) => if step.MakeBundle? { TruststoreEffect(s, o, s.now + LEASE, Bundle(step.pem, roots)); }
    case _ =>
  }

  lemma TruststoreEffect(s: Registry, o: Id, expires: nat, bundle: Bundle)
    ensures AcquireLease(s, o, expires).Some? ==> AcquireLease(s, o, expires).value == s.(truststore := AcquireLease(s, o, expires).value.truststore)
    ensures RecordBundle(s, o, bundle).Some? ==> RecordBundle(s, o, bundle).value == s.(truststore := RecordBundle(s, o, bundle).value.truststore)
  {
  }

  lemma CallKeeps(s: Registry, step: Step, call: Id)
    requires Lockstep(s) && call in s.calls
    ensures Lockstep(CallStep(s, step, call))
  {
    hide Lockstep, Complete, Fail, CallStep;
    var t := CallStep(s, step, call);
    CallEffect(s, step, call);
    RequestsOf(s);
    if t == s.(truststore := t.truststore, calls := t.calls) {
      SameRecords(s, t);
    } else if o, bundle :| s.calls[call] == Attached(o, bundle) && Complete(s, o, bundle).Some?
                           && t == Complete(s, o, bundle).value.(calls := t.calls) {
      CompleteKeeps(s, o, bundle);
      RequestsOf(Complete(s, o, bundle).value);
      SameRecords(Complete(s, o, bundle).value, t);
    } else {
      var o :| s.calls[call] == RolledBack(o) && Fail(s, o).Some? && t == Fail(s, o).value.(calls := t.calls);
      FailKeeps(s, o);
      RequestsOf(Fail(s, o).value);
      SameRecords(Fail(s, o).value, t);
    }
  }

  lemma StepKeeps(s: Registry, step: Step)
    requires Inv(s)
    ensures Inv(Next(s, step))
  {
    StepKeepsCalls(s, step);
    RequestsOf(s);
    hide CallsOk, Lockstep, CallStep, Start, CreateIdentity, RevokeIdentity, Complete, Fail;
    match step
    case Tick(_) => SameRecords(s, Next(s, step));
    case AddRoot(_) => SameRecords(s, Next(s, step));
    case StartStep(request, o, consumer, environment, root, fingerprint) => StartKeeps(s, request, o, consumer, environment, root, fingerprint);
    case AssociateStep(request, o) => SameRecords(s, Next(s, step));
    case Load(call, o) => SameRecords(s, Next(s, step));
    case FailExpired(o) => if Fail(s, o).Some? { FailKeeps(s, o); }
    case CreateIdentityStep(request, consumer, fingerprint) => CreateIdentityKeeps(s, request, consumer, fingerprint);
    case RevokeStep(request, consumer, fingerprint) => RevokeIdentityKeeps(s, request, consumer, fingerprint);
    case _ => if step.call in s.calls { CallKeeps(s, step, step.call); }
  }

  /** Operations keep everything but their workflow state, and settle once. */
  ghost predicate OperationsKept(s: Registry, t: Registry) {
    forall o :: o in s.operations ==>
      && o in t.operations && t.operations[o].(workflow := Prepared) == s.operations[o].(workflow := Prepared)
      && (s.operations[o].workflow != Prepared ==> t.operations[o].workflow == s.operations[o].workflow)
  }

  lemma CallKeepsOperations(s: Registry, step: Step, call: Id)
    requires call in s.calls
    ensures OperationsKept(s, CallStep(s, step, call))
  {
    hide CurrentForRoots;
  }

  lemma StepKeepsOperations(s: Registry, step: Step)
    ensures OperationsKept(s, Next(s, step))
  {
    hide IdentityIs, CallStep;
    if !(step.Tick? || step.AddRoot? || step.StartStep? || step.AssociateStep? || step.Load? || step.FailExpired?
         || step.CreateIdentityStep? || step.RevokeStep?) && step.call in s.calls {
      CallKeepsOperations(s, step, step.call);
    }
  }

  lemma StepKeepsCalls(s: Registry, step: Step)
    requires CallsOk(s)
    ensures CallsOk(Next(s, step))
  {
    var t := Next(s, step);
    StepKeepsOperations(s, step);
    CallsMove(s, step);
    hide Next, CallOk, OperationsKept;
    forall call | call in t.calls ensures CallOk(t, t.calls[call]) { CallOkStays(s, t, t.calls[call]); }
  }

  lemma CallOkStays(s: Registry, t: Registry, call: Resume)
    requires OperationsKept(s, t) && CallOk(s, call)
    ensures CallOk(t, call)
  {
    if call.Listed? || call.Bundled? || call.Attached? {
      assert t.operations[call.o].(workflow := Prepared).root == s.operations[call.o].(workflow := Prepared).root;
    }
  }

  /** A step moves at most one call, to a stage that is well formed where it started. */
  lemma CallsMove(s: Registry, step: Step)
    requires CallsOk(s)
    ensures forall call :: call in Next(s, step).calls ==> CallOk(s, Next(s, step).calls[call])
  {
    hide IdentityIs, Complete, Fail, AcquireLease, RecordBundle, Start, CreateIdentity, RevokeIdentity, Associate, CallStep;
    CallsFrame(s, step);
    match step
    case Load(call, o) =>
    case Acquire(call) => if call in s.calls { OneCallMoves(s, step, call); }
    case ListRoots(call) => if call in s.calls { OneCallMoves(s, step, call); }
    case MakeBundle(call, _) => if call in s.calls { OneCallMoves(s, step, call); }
    case Attach(call, _) => if call in s.calls { OneCallMoves(s, step, call); }
    case CompleteStep(call) => if call in s.calls { OneCallMoves(s, step, call); }
    case RollBack(call) => if call in s.calls { OneCallMoves(s, step, call); }
    case _ =>
  }

  lemma OneCallMoves(s: Registry, step: Step, call: Id)
    requires CallsOk(s) && call in s.calls
    ensures forall x :: x in CallStep(s, step, call).calls ==> CallOk(s, CallStep(s, step, call).calls[x])
  {
    hide Complete, Fail, AcquireLease, RecordBundle;
    CallsFrame(s, step);
    assert CallOk(s, s.calls[call]);
  }

  lemma CallsFrame(s: Registry, step: Step)
    ensures step.StartStep? || step.AssociateStep? || step.FailExpired? || step.CreateIdentityStep? || step.RevokeStep? ==>
              Next(s, step).calls == s.calls
    ensures forall o, bundle :: Complete(s, o, bundle).Some? ==> Complete(s, o, bundle).value.calls == s.calls
    ensures forall o :: Fail(s, o).Some? ==> Fail(s, o).value.calls == s.calls
    ensures forall o, expires :: AcquireLease(s, o, expires).Some? ==> AcquireLease(s, o, expires).value.calls == s.calls
    ensures forall o, bundle :: RecordBundle(s, o, bundle).Some? ==> RecordBundle(s, o, bundle).value.calls == s.calls
  {
    hide IdentityIs;
  }

  // ---------------------------------------------------------------- main results

  lemma {:induction false} RunKeeps(s: Registry, steps: seq<Step>)
    requires Inv(s)
    ensures Inv(Run(s, steps)) && OperationsKept(s, Run(s, steps))
    decreases |steps|
  {
    hide Inv, Next, OperationsKept;
    if steps == [] {
      KeptReflexive(s);
    } else {
      StepKeeps(s, steps[0]);
      StepKeepsOperations(s, steps[0]);
      RunKeeps(Next(s, steps[0]), steps[1..]);
      KeptTransitive(s, Next(s, steps[0]), Run(s, steps));
    }
  }

  lemma KeptReflexive(s: Registry)
    ensures OperationsKept(s, s)
  {
  }

  lemma KeptTransitive(s: Registry, t: Registry, u: Registry)
    requires OperationsKept(s, t) && OperationsKept(t, u)
    ensures OperationsKept(s, u)
  {
  }

  /**
   * In every run each operation is PREPARED with a PENDING identity and a PENDING consumer that points at
   * it, READY with an ACTIVE or REVOKED identity and an ACTIVE consumer, or FAILED with a FAILED identity;
   * and no consumer is ever served by two operations that have not failed.
   */
  lemma EnrollmentLockstep(steps: seq<Step>, o: Id, other: Id)
    requires o in Run(Empty, steps).operations && other in Run(Empty, steps).operations
    ensures var s := Run(Empty, steps);
            var operation := s.operations[o];
            && operation.fingerprint in s.identities && s.identities[operation.fingerprint].consumer == operation.consumer
            && (operation.workflow == Prepared <==> s.identities[operation.fingerprint].status == PendingIdentity)
            && (operation.workflow == Failed <==> s.identities[operation.fingerprint].status == FailedIdentity)
            && (operation.workflow != Failed ==>
                  operation.consumer in s.consumers
                  && s.consumers[operation.consumer] == Consumer(operation.environment, operation.workflow == Ready,
                                                                 if operation.workflow == Ready then None else Some(o)))
            && (o != other && operation.workflow != Failed && s.operations[other].workflow != Failed ==>
                  operation.consumer != s.operations[other].consumer)
  {
    RunKeeps(Empty, steps);
    var s := Run(Empty, steps);
    hide Run;
    assert InStep(s, o);
    if o != other { assert Apart(s.operations[o], s.operations[other]); }
  }

  /** Settled operations stay settled: a READY one keeps its ACTIVE consumer, a FAILED one never serves. */
  lemma SettledForever(before: seq<Step>, after: seq<Step>, o: Id)
    requires o in Run(Empty, before).operations && Run(Empty, before).operations[o].workflow != Prepared
    ensures var s, t := Run(Empty, before), Run(Run(Empty, before), after);
            var operation := s.operations[o];
            && o in t.operations && t.operations[o] == operation
            && operation.fingerprint in t.identities
            && (operation.workflow == Failed ==> t.identities[operation.fingerprint].status == FailedIdentity)
            && (operation.workflow == Ready ==>
                  operation.consumer in t.consumers && t.consumers[operation.consumer] == Consumer(operation.environment, true, None))
  {
    RunKeeps(Empty, before);
    RunKeeps(Run(Empty, before), after);
    var s, t := Run(Empty, before), Run(Run(Empty, before), after);
    hide Run;
    assert t.operations[o].(workflow := Prepared) == s.operations[o].(workflow := Prepared);
    assert t.operations[o] == t.operations[o].(workflow := Prepared).(workflow := t.operations[o].workflow);
    assert s.operations[o] == s.operations[o].(workflow := Prepared).(workflow := s.operations[o].workflow);
    assert InStep(t, o);
  }

  /** The operation a step works for. */
  function Worker(s: Registry, step: Step): Option<Id> {
    match step
    case FailExpired(o) => Some(o)
    case Acquire(call) => CallOperation(s, call)
    case MakeBundle(call, _) => CallOperation(s, call)
    case CompleteStep(call) => CallOperation(s, call)
    case RollBack(call) => CallOperation(s, call)
    case _ => None
  }

  function CallOperation(s: Registry, call: Id): Option<Id> {
    if call in s.calls && !s.calls[call].Done? then Some(s.calls[call].o) else None
  }

  /**
   * Only a step for the operation that holds the truststore lease changes the recorded or the current
   * bundle; the current bundle changes only as that operation becomes READY, and then holds its root.
   */
  lemma OnlyHolderChangesBundle(steps: seq<Step>, step: Step)
    ensures var s := Run(Empty, steps);
            var t := Next(s, step);
            && (t.truststore.current != s.truststore.current || t.truststore.recorded != s.truststore.recorded ==>
                  s.truststore.owner.Some? && Worker(s, step) == s.truststore.owner)
            && (t.truststore.current != s.truststore.current ==>
                  var o := s.truststore.owner.value;
                  && o in s.operations && s.operations[o].workflow == Prepared && t.operations[o].workflow == Ready
                  && t.truststore.current.Some? && s.operations[o].root in t.truststore.current.value.roots
                  && t.truststore.owner.None?)
  {
    RunKeeps(Empty, steps);
    var s := Run(Empty, steps);
    hide Run, Lockstep;
    HolderOnly(s, step);
  }

  lemma HolderOnly(s: Registry, step: Step)
    requires CallsOk(s)
    ensures var t := Next(s, step);
            && (t.truststore.current != s.truststore.current || t.truststore.recorded != s.truststore.recorded ==>
                  s.truststore.owner.Some? && Worker(s, step) == s.truststore.owner)
            && (t.truststore.current != s.truststore.current ==>
                  var o := s.truststore.owner.value;
                  && o in s.operations && s.operations[o].workflow == Prepared && o in t.operations && t.operations[o].workflow == Ready
                  && t.truststore.current.Some? && s.operations[o].root in t.truststore.current.value.roots
                  && t.truststore.owner.None?)
  {
    hide IdentityIs, CallOk;
    if step.CompleteStep? && step.call in s.calls { assert CallOk(s, s.calls[step.call]); AttachedHolds(s, s.calls[step.call]); }
  }

  lemma AttachedHolds(s: Registry, call: Resume)
    requires CallOk(s, call)
    ensures call.Attached? ==> call.o in s.operations && s.operations[call.o].root in call.bundle.roots
  {
  }
}
