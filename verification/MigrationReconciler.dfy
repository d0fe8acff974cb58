/**
 The migration block of the Kafka reconciler. Every call to the cluster may fail, with or without
 having taken effect, and the next reconcile resumes from the stored status. `reliable` marks a
 reconcile in which no call fails.
 */
module MigrationReconciler {
  import opened Migration

  lemma HistoryExtends(h: seq<Cluster>, claims: bool, c: Cluster)
    requires History(h, claims) && Next(h[|h| - 1], claims, c)
    ensures History(h + [c], claims)
  {
    var g := h + [c];
    forall i | 0 <= i < |g| - 1 ensures Next(g[i], claims, g[i + 1]) {
      if i < |h| - 1 {
        assert Next(h[i], claims, h[i + 1]);
      }
    }
  }

  lemma ActionExtends(h: seq<Cluster>, claims: bool, a: Action)
    requires History(h, claims)
    requires var c := h[|h| - 1]; Inv(c, claims) && Enabled(c, claims, a)
    ensures var c' := Effect(h[|h| - 1], claims, a);
      Inv(c', claims) && History(h + [c'], claims) && |c'.brokers| == |h[|h| - 1].brokers|
  {
    var c := h[|h| - 1];
    EffectKeepsInv(c, claims, a);
    EffectIsForward(c, claims, a);
    assert Next(c, claims, Effect(c, claims, a));
    HistoryExtends(h, claims, Effect(c, claims, a));
  }

  /** How many of the brokers need a restart for their volume. */
  function CountTrue(flags: seq<bool>): nat {
    if flags == [] then 0 else CountTrue(flags[..|flags| - 1]) + (if flags[|flags| - 1] then 1 else 0)
  }

  lemma CountNext(flags: seq<bool>, i: nat)
    requires i < |flags|
    ensures CountTrue(flags[..i + 1]) == CountTrue(flags[..i]) + (if flags[i] then 1 else 0)
  {
    assert flags[..i + 1][..i] == flags[..i];
  }

  ghost predicate Everybody(c: Cluster) {
    forall i | 0 <= i < |c.brokers| :: i in c.restarting
  }

  /** Of the brokers that were not restarting, at most one is. */
  ghost predicate OneMore(was: set<nat>, now: set<nat>) {
    exists i: nat :: now <= was + {i}
  }

  /** After this moment of a history, at most one broker more restarts at a time. */
  ghost predicate OneByOne(h: seq<Cluster>, m: nat)
    requires m < |h|
  {
    forall k | m < k < |h| :: OneMore(h[m].restarting, h[k].restarting)
  }

  lemma OneByOneExtends(h: seq<Cluster>, g: seq<Cluster>, m: nat, i: nat)
    requires m < |h| && h <= g && OneByOne(h, m) && h[|h| - 1].restarting <= h[m].restarting
    requires forall k | |h| <= k < |g| :: g[k].restarting <= h[|h| - 1].restarting + {i}
    ensures OneByOne(g, m)
  {
    forall k | m < k < |g| ensures OneMore(g[m].restarting, g[k].restarting) {
      if k < |h| {
        assert OneMore(h[m].restarting, h[k].restarting);
      } else {
        assert g[k].restarting <= g[m].restarting + {i};
      }
    }
  }

  class Reconciler {
    const claims: bool            // the controller has a volume claim
    const clusterId: string       // what ZooKeeper calls the cluster
    var cluster: Cluster
    ghost var history: seq<Cluster>

    ghost predicate Valid()
      reads this
    {
      && Inv(cluster, claims)
      && History(history, claims) && history[|history| - 1] == cluster
    }

    constructor (claims: bool, clusterId: string, brokers: nat, status: string)
      requires StepOf(status) == 0
      ensures Valid() && this.claims == claims && this.clusterId == clusterId
      ensures |cluster.brokers| == brokers && |history| == 1 && cluster.status == status
    {
      this.claims := claims;
      this.clusterId := clusterId;
      var c := Cluster(status, false, false, Absent, seq(brokers, _ => ZooKeeper), false, false, {}, 0, 0);
      cluster := c;
      history := [c];
    }

    /** The history only grows and the number of brokers is fixed. */
    twostate predicate Continues()
      reads this
    {
      old(history) <= history && |cluster.brokers| == |old(cluster).brokers|
    }

    /** At every moment since then, none but these and those that were restarting already are. */
    twostate predicate Restarts(ids: set<nat>)
      reads this
    {
      forall k | |old(history)| <= k < |history| :: history[k].restarting <= old(cluster).restarting + ids
    }

    /** At some moment since then all brokers were restarting after so many rollouts. */
    twostate predicate Together(rollouts: nat)
      reads this
    {
      exists k: nat ::
        |old(history)| - 1 <= k < |history| && Everybody(history[k]) && history[k].rollouts == rollouts
    }

    /** The history goes on without any ordinary rollout. */
    twostate predicate Migrates()
      reads this
    {
      Continues() && cluster.rollouts == old(cluster).rollouts && cluster.resizes == old(cluster).resizes
    }

    /** One call that changes the cluster or waits for it: it succeeds, fails without effect, or fails after it. */
    method Perform(a: Action, reliable: bool) returns (ok: bool)
      requires Valid() && Enabled(cluster, claims, a)
      modifies this
      ensures Valid() && Continues() && |history| <= |old(history)| + 1
      ensures ok ==> cluster == Effect(old(cluster), claims, a)
      ensures !ok ==> cluster == old(cluster) || cluster == Effect(old(cluster), claims, a)
      ensures forall k | |old(history)| <= k < |history| :: history[k] == cluster
      ensures reliable ==> ok
    {
      var fails, lost: bool := *, *;
      if fails && lost && !reliable {
        return false;
      }
      ActionExtends(history, claims, a);
      cluster := Effect(cluster, claims, a);
      history := history + [cluster];
      ok := !fails || reliable;
    }

    /** Between reconciles the controller may have failed. */
    method Disturbance()
      requires Valid()
      modifies this
      ensures Valid() && Migrates() && cluster == old(cluster).(ready := cluster.ready)
    {
      var fails: bool := *;
      if fails {
        ActionExtends(history, claims, Disturb);
        cluster := Effect(cluster, claims, Disturb);
        history := history + [cluster];
      }
    }

    method GetZooKeeperClusterID(reliable: bool) returns (ok: bool, id: string)
      ensures reliable ==> ok
      ensures ok ==> id == clusterId
    {
      var fails: bool := *;
      ok, id := !fails || reliable, clusterId;
    }

    method CreateMigrationControllerEntities(zkClusterID: string, reliable: bool) returns (ok: bool)
      requires Valid() && StepOf(cluster.status) == 0 && zkClusterID == clusterId
      modifies this
      ensures Valid() && Migrates() && (reliable ==> ok)
      ensures ok ==> cluster.status == old(cluster).status && ControllerUp(cluster, claims) && cluster.ready
    {
      ok := Perform(CreateService, reliable);
      if !ok { return; }
      if claims {
        ok := Perform(CreateClaim, reliable);
        if !ok { return; }
      }
      ok := DeployAndAwaitController(DeployController, reliable);
    }

    method DeployAndAwaitController(a: Action, reliable: bool) returns (ok: bool)
      requires Valid() && Enabled(cluster, claims, a) && (a == DeployController || a == DetachController)
      modifies this
      ensures Valid() && Migrates() && (reliable ==> ok)
      ensures ok ==> cluster == old(cluster).(
        deployment := if a == DeployController then WithZooKeeper else WithoutZooKeeper, ready := true)
    {
      ok := Perform(a, reliable);
      if !ok { return; }
      ok := Perform(AwaitController, reliable);
    }

    method AwaitOne(i: nat, reliable: bool) returns (ok: bool)
      requires Valid() && i < |cluster.brokers|
      modifies this
      ensures Valid() && Migrates() && (reliable ==> ok)
      ensures ok ==> cluster == old(cluster).(restarting := old(cluster).restarting - {i})
      ensures Restarts({}) && cluster.restarting <= old(cluster).restarting
    {
      ok := Perform(AwaitBroker(i), reliable);
    }

    /** Stores the deployment of one broker. */
    method UpdateOne(i: nat, phase: Phase, reliable: bool) returns (ok: bool)
      requires Valid() && Enabled(cluster, claims, UpdateBroker(i, phase))
      modifies this
      ensures Valid() && Migrates() && (reliable ==> ok)
      ensures ok ==> cluster == old(cluster).(brokers := cluster.brokers, restarting := cluster.restarting)
      ensures ok ==> cluster.brokers == old(cluster).brokers[i := phase]
      ensures ok ==> cluster.restarting <= old(cluster).restarting + {i}
    {
      assert cluster.brokers[i] == phase ==> cluster.brokers[i := phase] == cluster.brokers;
      ok := Perform(UpdateBroker(i, phase), reliable);
    }

    /** Updates the brokers to the phase of the current step, awaiting each one where they start to migrate. */
    method UpdateBrokers(phase: Phase, zkClusterID: string, reliable: bool) returns (ok: bool)
      requires Valid() && phase != ZooKeeper && StepOf(cluster.status) == Rank(phase) && zkClusterID == clusterId
      requires phase == Migrating ==> cluster.ready
      modifies this
      ensures Valid() && Migrates() && (reliable ==> ok)
      ensures ok ==> cluster == old(cluster).(brokers := cluster.brokers, restarting := cluster.restarting)
      ensures ok ==> All(cluster, phase) && (phase == Migrating ==> cluster.restarting == {})
    {
      for i := 0 to |cluster.brokers|
        invariant Valid() && Migrates()
        invariant cluster == old(cluster).(brokers := cluster.brokers, restarting := cluster.restarting)
        invariant forall j | 0 <= j < i :: cluster.brokers[j] == phase
        invariant phase == Migrating ==> NoneBefore(cluster, i)
      {
        ok := UpdateOne(i, phase, reliable);
        if !ok { return; }
        if phase == Migrating {
          ok := AwaitOne(i, reliable);
          if !ok { return; }
        }
      }
      ok := true;
    }

    method AwaitBrokers(reliable: bool) returns (ok: bool)
      requires Valid()
      modifies this
      ensures Valid() && Migrates() && (reliable ==> ok)
      ensures ok ==> cluster == old(cluster).(restarting := {})
    {
      for i := 0 to |cluster.brokers|
        invariant Valid() && Migrates() && cluster == old(cluster).(restarting := cluster.restarting)
        invariant forall j | 0 <= j < i :: j !in cluster.restarting
      {
        ok := AwaitOne(i, reliable);
        if !ok { return; }
      }
      assert cluster.restarting == {};
      ok := true;
    }

    method EnsureMigrationControllerIsReady(reliable: bool) returns (ok: bool)
      requires Valid() && StepOf(cluster.status) == 1
      modifies this
      ensures Valid() && Migrates() && (reliable ==> ok)
      ensures ok ==> cluster == old(cluster).(ready := true)
    {
      ok := Perform(AwaitController, reliable);
    }

    method UpdateBrokersAndWaitMigrationResult(zkClusterID: string, reliable: bool) returns (ok: bool)
      requires Valid() && StepOf(cluster.status) == 1 && cluster.ready && zkClusterID == clusterId
      modifies this
      ensures Valid() && Migrates() && (reliable ==> ok)
      ensures ok ==> cluster.status == old(cluster).status && All(cluster, Migrating) && cluster.observed
      ensures ok ==> cluster.restarting == {}
    {
      ok := UpdateBrokers(Migrating, zkClusterID, reliable);
      if !ok { return; }
      ok := Perform(ObserveMigration, reliable);
    }

    method UpdateBrokersWithoutZooKeeper(zkClusterID: string, reliable: bool) returns (ok: bool)
      requires Valid() && StepOf(cluster.status) == 2 && zkClusterID == clusterId
      modifies this
      ensures Valid() && Migrates() && (reliable ==> ok)
      ensures ok ==> cluster.status == old(cluster).status && All(cluster, Joint) && cluster.restarting == {}
    {
      ok := UpdateBrokers(Joint, zkClusterID, reliable);
      if !ok { return; }
      ok := AwaitBrokers(reliable);
    }

    method UpdateMigrationControllerWithoutZooKeeper(zkClusterID: string, reliable: bool) returns (ok: bool)
      requires Valid() && StepOf(cluster.status) == 2 && All(cluster, Joint) && cluster.restarting == {}
      requires zkClusterID == clusterId
      modifies this
      ensures Valid() && Migrates() && (reliable ==> ok)
      ensures ok ==> cluster == old(cluster).(deployment := WithoutZooKeeper, ready := true)
    {
      ok := DeployAndAwaitController(DetachController, reliable);
    }

    method UpdateBrokersWithoutKraftMigrationController(zkClusterID: string, reliable: bool) returns (ok: bool)
      requires Valid() && StepOf(cluster.status) == 3 && zkClusterID == clusterId
      modifies this
      ensures Valid() && Migrates() && (reliable ==> ok)
      ensures ok ==> cluster.status == old(cluster).status && All(cluster, Kraft) && cluster.restarting == {}
    {
      ok := UpdateBrokers(Kraft, zkClusterID, reliable);
      if !ok { return; }
      ok := AwaitBrokers(reliable);
    }

    method RemoveMigrationControllerEntities(reliable: bool) returns (ok: bool)
      requires Valid() && StepOf(cluster.status) == 3 && All(cluster, Kraft) && cluster.restarting == {}
      modifies this
      ensures Valid() && Migrates() && (reliable ==> ok)
      ensures ok ==> cluster.status == old(cluster).status && All(cluster, Kraft) && ControllerGone(cluster, claims)
      ensures ok ==> cluster.restarting == {}
    {
      ok := Perform(DeleteService, reliable);
      if !ok { return; }
      if claims {
        ok := Perform(DeleteClaim, reliable);
        if !ok { return; }
      }
      ok := Perform(DeleteDeployment, reliable);
    }

    /** Closes a step in the stored status. */
    method UpdateStatus(closing: nat, reliable: bool) returns (ok: bool)
      requires Valid() && Enabled(cluster, claims, WriteStatus(closing))
      modifies this
      ensures Valid() && Migrates() && (reliable ==> ok)
      ensures ok ==> StepOf(cluster.status) == closing && cluster == old(cluster).(status := cluster.status)
    {
      StatusRoundTrip(closing);
      ok := Perform(WriteStatus(closing), reliable);
    }

    /** Rolls one broker out and restarts it where its volume was resized. */
    method RolloutBroker(i: nat, rolling: bool, resized: bool, reliable: bool) returns (ok: bool)
      requires Valid() && StepOf(cluster.status) == 4 && i < |cluster.brokers| && (rolling ==> NoneBefore(cluster, i))
      modifies this
      ensures Valid() && Continues() && (reliable ==> ok)
      ensures ok ==> cluster == old(cluster).(
        rollouts := old(cluster).rollouts + 1, resizes := old(cluster).resizes + (if resized then 1 else 0),
        restarting := old(cluster).restarting + {i})
      ensures Restarts({i}) && cluster.restarting <= old(cluster).restarting + {i}
    {
      ok := Perform(Rollout(i, rolling), reliable);
      if ok && resized {
        ok := Perform(Resize(i), reliable);
      }
    }

    /** The same, and in a rolling update the broker is seen ready before the next one. */
    method RolloutAndAwait(i: nat, rolling: bool, resized: bool, reliable: bool) returns (ok: bool)
      requires Valid() && StepOf(cluster.status) == 4 && i < |cluster.brokers| && (rolling ==> NoneBefore(cluster, i))
      modifies this
      ensures Valid() && Continues() && (reliable ==> ok)
      ensures ok ==> cluster == old(cluster).(
        rollouts := old(cluster).rollouts + 1, resizes := old(cluster).resizes + (if resized then 1 else 0),
        restarting := cluster.restarting)
      ensures ok && rolling ==> NoneBefore(cluster, i + 1) && cluster.restarting <= old(cluster).restarting
      ensures ok && !rolling ==> cluster.restarting == old(cluster).restarting + {i}
      ensures Restarts({i})
    {
      ok := RolloutBroker(i, rolling, resized, reliable);
      if ok && rolling {
        ok := AwaitOne(i, reliable);
      }
    }

    /** The brokers one by one. */
    method RolloutEach(rolling: bool, resized: seq<bool>, reliable: bool) returns (ok: bool)
      requires Valid() && StepOf(cluster.status) == 4 && |resized| == |cluster.brokers|
      modifies this
      ensures Valid() && Continues() && (reliable ==> ok)
      ensures ok ==> cluster == old(cluster).(
        rollouts := old(cluster).rollouts + |old(cluster).brokers|,
        resizes := old(cluster).resizes + CountTrue(resized), restarting := cluster.restarting)
      ensures ok && rolling ==> NoneBefore(cluster, |cluster.brokers|)
      ensures rolling ==> OneByOne(history, |old(history)| - 1)
      ensures ok && !rolling ==> Everybody(cluster)
    {
      for i := 0 to |cluster.brokers|
        invariant Valid() && Continues()
        invariant cluster == old(cluster).(
          rollouts := old(cluster).rollouts + i, resizes := old(cluster).resizes + CountTrue(resized[..i]),
          restarting := cluster.restarting)
        invariant rolling ==> NoneBefore(cluster, i) && cluster.restarting <= old(cluster).restarting
        invariant rolling ==> OneByOne(history, |old(history)| - 1)
        invariant !rolling ==> forall j | 0 <= j < i :: j in cluster.restarting
      {
        CountNext(resized, i);
        ghost var before := history;
        ok := RolloutAndAwait(i, rolling, resized[i], reliable);
        if rolling {
          OneByOneExtends(before, history, |old(history)| - 1, i);
        }
        if !ok { return; }
      }
      assert resized[..|resized|] == resized;
      ok := true;
    }

    /**
     Rolls every broker out once, with a restart for every resized volume. In a rolling update every broker is seen
     ready before the next one is rolled out, unless the admin credentials changed: then all restart together and are
     awaited at the end.
     */
    method RolloutBrokers(rollingUpdate: bool, adminChanged: bool, resized: seq<bool>, reliable: bool)
      returns (ok: bool)
      requires Valid() && StepOf(cluster.status) == 4 && |resized| == |cluster.brokers|
      modifies this
      ensures Valid() && Continues() && (reliable ==> ok)
      ensures ok ==> cluster == old(cluster).(
        rollouts := old(cluster).rollouts + |old(cluster).brokers|,
        resizes := old(cluster).resizes + CountTrue(resized), restarting := cluster.restarting)
      ensures ok && (rollingUpdate || adminChanged) ==> cluster.restarting == {}
      ensures rollingUpdate && !adminChanged ==> OneByOne(history, |old(history)| - 1)
      ensures ok && (!rollingUpdate || adminChanged) ==> Together(cluster.rollouts)
    {
      var waitForEachBroker := rollingUpdate && !adminChanged;
      ok := RolloutEach(waitForEachBroker, resized, reliable);
      if !ok { return; }
      if adminChanged {
        ok := AwaitBrokers(reliable);
      } else if rollingUpdate {
        assert cluster.restarting == {};
      }
    }

    method FirstStep(zkClusterID: string, reliable: bool) returns (ok: bool)
      requires Valid() && StepOf(cluster.status) == 0 && zkClusterID == clusterId
      modifies this
      ensures Valid() && Migrates() && (reliable ==> ok)
      ensures ok ==> StepOf(cluster.status) == 1
    {
      ok := CreateMigrationControllerEntities(zkClusterID, reliable);
      if !ok { return; }
      ok := UpdateStatus(1, reliable);
    }

    method SecondStep(zkClusterID: string, reliable: bool) returns (ok: bool)
      requires Valid() && StepOf(cluster.status) == 1 && zkClusterID == clusterId
      modifies this
      ensures Valid() && Migrates() && (reliable ==> ok)
      ensures ok ==> StepOf(cluster.status) == 2
    {
      ok := EnsureMigrationControllerIsReady(reliable);
      if !ok { return; }
      ok := UpdateBrokersAndWaitMigrationResult(zkClusterID, reliable);
      if !ok { return; }
      ok := UpdateStatus(2, reliable);
    }

    method ThirdStep(zkClusterID: string, reliable: bool) returns (ok: bool)
      requires Valid() && StepOf(cluster.status) == 2 && zkClusterID == clusterId
      modifies this
      ensures Valid() && Migrates() && (reliable ==> ok)
      ensures ok ==> StepOf(cluster.status) == 3
    {
      ok := UpdateBrokersWithoutZooKeeper(zkClusterID, reliable);
      if !ok { return; }
      ok := UpdateMigrationControllerWithoutZooKeeper(zkClusterID, reliable);
      if !ok { return; }
      ok := UpdateStatus(3, reliable);
    }

    method FourthStep(zkClusterID: string, reliable: bool) returns (ok: bool)
      requires Valid() && StepOf(cluster.status) == 3 && zkClusterID == clusterId
      modifies this
      ensures Valid() && Migrates() && (reliable ==> ok)
      ensures ok ==> StepOf(cluster.status) == 4
    {
      ok := UpdateBrokersWithoutKraftMigrationController(zkClusterID, reliable);
      if !ok { return; }
      ok := RemoveMigrationControllerEntities(reliable);
      if !ok { return; }
      ok := UpdateStatus(4, reliable);
    }

    /** The steps of the migration that are still to be done. */
    method MigrateFurther(reliable: bool) returns (ok: bool)
      requires Valid()
      modifies this
      ensures Valid() && Migrates() && (reliable ==> ok)
      ensures ok ==> StepOf(cluster.status) == 4
      ensures StepOf(old(cluster).status) == 4 ==> ok && cluster == old(cluster) && history == old(history)
    {
      var step := StepOf(cluster.status);
      var zkClusterID := "";
      if step < 4 {
        ok, zkClusterID := GetZooKeeperClusterID(reliable);
        if !ok { return; }
      }
      if step < 1 {
        ok := FirstStep(zkClusterID, reliable);
        if !ok { return; }
      }
      if step < 2 {
        ok := SecondStep(zkClusterID, reliable);
        if !ok { return; }
      }
      if step < 3 {
        ok := ThirdStep(zkClusterID, reliable);
        if !ok { return; }
      }
      if step < 4 {
        ok := FourthStep(zkClusterID, reliable);
        if !ok { return; }
      }
      ok := true;
    }

    /**
     One reconcile. Whatever fails, it extends the history by permitted actions only. When it succeeds, and it does
     when nothing fails, the migration is finished and every broker has been rolled out once, from whatever step it
     resumed.
     */
    method Reconcile(rollingUpdate: bool, adminChanged: bool, resized: seq<bool>, reliable: bool) returns (ok: bool)
      requires Valid() && |resized| == |cluster.brokers|
      modifies this
      ensures Valid() && Continues() && (reliable ==> ok)
      ensures ok ==> cluster.status == FINISHED && All(cluster, Kraft) && ControllerGone(cluster, claims)
      ensures ok ==> cluster.rollouts == old(cluster).rollouts + |old(cluster).brokers|
      ensures ok ==> cluster.resizes == old(cluster).resizes + CountTrue(resized)
      ensures ok && (rollingUpdate || adminChanged) ==> cluster.restarting == {}
      ensures rollingUpdate && !adminChanged ==> exists m | |old(history)| - 1 <= m < |history| ::
        history[m].rollouts == old(cluster).rollouts && OneByOne(history, m)
      ensures ok && (!rollingUpdate || adminChanged) ==> Together(cluster.rollouts)
    {
      Disturbance();
      ok := MigrateFurther(reliable);
      if !ok { return; }
      ok := RolloutBrokers(rollingUpdate, adminChanged, resized, reliable);
    }
  }
}
