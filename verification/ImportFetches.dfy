/**
 * Which fetches record the right revision: exactly those whose name has not gone to another secret that serves
 * the consumer. And which edits keep every run orderly: those that write what their names still resolve to.
 */
module ImportFetches {
  import opened Domain
  import opened Revisions
  import opened RevisionInvariants
  import opened ControlPlane
  import opened ControlPlaneInvariants
  import opened IndexInvariants
  import opened NameInvariants
  import opened ControlPlaneTheorems
  import opened NameIdentity
  import opened VersionIdentity
  import opened SyncIndex
  import opened AgentSync
  import opened AgentSyncTheorems
  import opened AgentGrants
  import opened ImportController
  import opened ImportGrants
  import opened ImportControllerTheorems
  import opened AclReads

  // ---------------------------------------------------------------- the exact condition

  /** The revision a fetch is about to return is the selected secret's current one, if that counts. */
  ghost predicate Accurate(c: Controller) {
    Fetched(c).Some? ==>
      RemoteOk(c.world, c.saved, c.agent, c.pass.value.work.value.uid, c.world.cells[Fetched(c).value].head.value.control)
  }

  /** The secret is ACTIVE, and its current ACL lets the consumer read. */
  ghost predicate Serves(w: World, uid: Id, consumer: Id) {
    && uid in w.cells && IsReady(w.cells[uid]) && w.cells[uid].head.value.state == Active
    && |w.cells[uid].log| > 0 && consumer in Readers(CurrentControl(w.cells[uid]).acl)
  }

  /**
   * An authorised fetch whose name has been given to another secret than the one the pass selected: that secret
   * serves the consumer, and the revision of the selected one counts.
   */
  ghost predicate Overtaken(c: Controller) {
    Working(c) && c.pass.value.work.value.stage.Authorised? &&
    var work := c.pass.value.work.value;
    var holder := LookupName(c.world, c.agent.scope.environment, c.pass.value.listed[work.name].spec.secretId);
    && holder.Some? && holder.value != work.uid && Serves(c.world, holder.value, c.agent.scope.consumer)
    && Counts(c.world, c.saved, c.agent, work.uid)
  }

  /** A fetch is accurate exactly when its name has not been overtaken. */
  lemma FetchIsExact(c: Controller)
    requires Sound(c.world) && NamedAll(c.world) && KeysApart(c.world)
    ensures Accurate(c) <==> !Overtaken(c)
  {
    hide CellsOk, NamesOk, IndexInv, NamedAll, KeysApart, ReadAllowed, Limit;
    if Working(c) && c.pass.value.work.value.stage.Authorised? {
      var work := c.pass.value.work.value;
      var secretId := c.pass.value.listed[work.name].spec.secretId;
      NamedReadAgrees(c.world, c.agent.scope.consumer, c.agent.scope.environment, secretId);
      var holder := LookupName(c.world, c.agent.scope.environment, secretId);
      if holder.Some? && Serves(c.world, holder.value, c.agent.scope.consumer) {
        ReadIsCurrent(c.world, holder.value);
        if holder.value != work.uid && Counts(c.world, c.saved, c.agent, work.uid) {
          CurrentVersionsApart(c.world, holder.value, work.uid);
        }
      }
    }
  }

  ghost predicate AlwaysAccurate(c: Controller, actions: seq<Action>, timeout: nat)
    decreases |actions|
  {
    actions == [] || ((actions[0].Receive? ==> Accurate(c)) && AlwaysAccurate(Act(c, actions[0], timeout), actions[1..], timeout))
  }

  ghost predicate NeverOvertaken(c: Controller, actions: seq<Action>, timeout: nat)
    decreases |actions|
  {
    actions == [] || ((actions[0].Receive? ==> !Overtaken(c)) && NeverOvertaken(Act(c, actions[0], timeout), actions[1..], timeout))
  }

  /** Only a write changes the table. */
  lemma ActWorld(c: Controller, action: Action, timeout: nat)
    ensures Act(c, action, timeout).world == if action.Write? then Apply(c.world, action.step) else c.world
  {
    hide Apply, Next, Judge, ReadAllowed, LookupName, CanWrite, Written, Finish;
  }

  lemma {:induction false} ExactFrom(c: Controller, actions: seq<Action>, timeout: nat)
    requires Sound(c.world) && NamedAll(c.world) && KeysApart(c.world)
    ensures AlwaysAccurate(c, actions, timeout) <==> NeverOvertaken(c, actions, timeout)
    decreases |actions|
  {
    hide CellsOk, NamesOk, IndexInv, NamedAll, KeysApart, Act, Accurate, Overtaken, Apply;
    if actions != [] {
      FetchIsExact(c);
      ActWorld(c, actions[0], timeout);
      if actions[0].Write? {
        StepIsSound(c.world, actions[0].step);
        NameInvariants.StepKeepsNamed(c.world, actions[0].step);
        StepKeepsApart(c.world, actions[0].step);
      }
      ExactFrom(Act(c, actions[0], timeout), actions[1..], timeout);
    }
  }

  /**
   * Every fetch of a run returns the selected secret's current revision, where that counts, exactly when no fetch is
   * made under a name that another secret serving the consumer has taken over.
   */
  lemma FetchesAreExact(before: seq<Step>, scope: Scope, actions: seq<Action>, timeout: nat)
    ensures AlwaysAccurate(Installed(before, scope), actions, timeout) <==> NeverOvertaken(Installed(before, scope), actions, timeout)
  {
    GenesisSound();
    hide CellsOk, NamesOk, IndexInv, NamedAll, KeysApart, AlwaysAccurate, NeverOvertaken, Run;
    RunIsNamed(Genesis, before);
    assert KeysApart(Genesis) by { NoKeys(); }
    RunKeepsApart(Genesis, before);
    ExactFrom(Installed(before, scope), actions, timeout);
  }

  // ---------------------------------------------------------------- edits that are on time

  /** Writers stay within the lag, every grant write names what its names resolve to at the write, and no identity is restored. */
  ghost predicate Prompt(c: Controller, actions: seq<Action>, timeout: nat, lag: nat)
    decreases |actions|
  {
    actions == []
    || (&& ActionLag(actions[0]) <= lag && (actions[0].EditGrants? ==> WritesOnTime(c.world, c.policy, actions[0].edit))
        && !Restores(c, actions[0]) && Prompt(Act(c, actions[0], timeout), actions[1..], timeout, lag))
  }

  lemma {:induction false} PromptFrom(c: Controller, actions: seq<Action>, timeout: nat, lag: nat)
    requires Sound(c.world) && GrantsInv(c) && Prompt(c, actions, timeout, lag)
    ensures Orderly(c, actions, timeout, lag)
    decreases |actions|
  {
    hide Sound, Act, Restores, Revives, WritesOnTime, ActionLag, Apply, AgentReads, WorkReads, PolicyOk;
    if actions != [] {
      if actions[0].EditGrants? { PromptWritesReviveNothing(c.world, c.policy, actions[0].edit); }
      ActWorld(c, actions[0], timeout);
      if actions[0].Write? { StepIsSound(c.world, actions[0].step); }
      ActKeepsGrants(c, actions[0], timeout);
      PromptFrom(Act(c, actions[0], timeout), actions[1..], timeout, lag);
    }
  }

  /** Grant edits that finish before their names change hands never endanger a skipped import. */
  lemma PromptRunsAreOrderly(before: seq<Step>, scope: Scope, actions: seq<Action>, timeout: nat, lag: nat)
    requires Prompt(Installed(before, scope), actions, timeout, lag)
    ensures Orderly(Installed(before, scope), actions, timeout, lag)
  {
    GenesisSound();
    InstalledGrants(before, scope);
    hide Sound, GrantsInv, Run, Prompt, Orderly;
    RunIsSound(Genesis, before);
    PromptFrom(Installed(before, scope), actions, timeout, lag);
  }
}
