/**
 The ZooKeeper to KRaft migration as a resumable protocol. All knowledge that survives a failed
 reconcile is in the cluster itself: the stored status, the migration controller and the brokers.
 The guards below speak about that state only; module `MigrationReconciler` proves that the
 reconciler never acts against a guard, wherever it fails and from wherever it resumes.
 */
module Migration {

  /** How far a broker deployment has been taken. */
  datatype Phase =
    | ZooKeeper   // metadata in ZooKeeper
    | Migrating   // ZooKeeper plus the migration controller as the only voter
    | Joint       // KRaft, voters are the brokers and the migration controller
    | Kraft       // KRaft, voters are the brokers

  datatype Deployment = Absent | WithZooKeeper | WithoutZooKeeper

  datatype Cluster = Cluster(
    status: string,         // the persisted migration status
    service: bool,          // migration controller service
    claim: bool,            // migration controller volume claim
    deployment: Deployment, // migration controller deployment
    brokers: seq<Phase>,
    observed: bool,         // the controller has reported that metadata is migrated
    ready: bool,            // the controller has been seen ready since it was last changed or disturbed
    restarting: set<nat>,   // brokers that were changed and have not been seen ready since
    rollouts: nat,          // ordinary broker rollouts so far
    resizes: nat)           // broker restarts for a resized volume so far

  function Rank(p: Phase): nat {
    match p
    case ZooKeeper => 0
    case Migrating => 1
    case Joint => 2
    case Kraft => 3
  }

  const CREATED := "Created Kraft controller with connection to ZooKeeper"
  const MIGRATED := "Migrated metadata from ZooKeeper to Kraft in controller"
  const REMOVED := "Removed ZooKeeper connection and created Kraft cluster"
  const FINISHED := "Migration finished succesfully"

  /** The step a stored status resumes at; anything unknown starts from the beginning. */
  function StepOf(status: string): nat {
    if status == CREATED then 1
    else if status == MIGRATED then 2
    else if status == REMOVED then 3
    else if status == FINISHED then 4
    else 0
  }

  function StatusClosing(step: nat): string
    requires 1 <= step <= 4
  {
    match step
    case 1 => CREATED
    case 2 => MIGRATED
    case 3 => REMOVED
    case _ => FINISHED
  }

  /** Each status written resumes right after the step it closes. */
  lemma StatusRoundTrip(step: nat)
    requires 1 <= step <= 4
    ensures StepOf(StatusClosing(step)) == step
  {
    assert |CREATED| == 53 && |MIGRATED| == 55 && |REMOVED| == 54 && |FINISHED| == 30;
  }

  /** The stored texts and the steps behind them. */
  lemma StatusTexts()
    ensures StepOf("Created Kraft controller with connection to ZooKeeper") == 1
    ensures StepOf("Migrated metadata from ZooKeeper to Kraft in controller") == 2
    ensures StepOf("Removed ZooKeeper connection and created Kraft cluster") == 3
    ensures StepOf("Migration finished succesfully") == 4
  {
    StatusRoundTrip(1);
    StatusRoundTrip(2);
    StatusRoundTrip(3);
    StatusRoundTrip(4);
  }

  /** Every other text starts from the beginning. */
  lemma OtherTextsStartOver(status: string)
    ensures StepOf(status) == 0
         <==> && status != "Created Kraft controller with connection to ZooKeeper"
              && status != "Migrated metadata from ZooKeeper to Kraft in controller"
              && status != "Removed ZooKeeper connection and created Kraft cluster"
              && status != "Migration finished succesfully"
  {
    StatusTexts();
  }

  datatype Action =
    | CreateService
    | CreateClaim
    | DeployController
    | UpdateBroker(id: nat, phase: Phase)
    | ObserveMigration
    | DetachController
    | DeleteService
    | DeleteClaim
    | DeleteDeployment
    | WriteStatus(closing: nat)
    | AwaitController
    | AwaitBroker(id: nat)
    | Disturb             // the controller may fail between reconciles
    | Rollout(id: nat, rolling: bool)
    | Resize(id: nat)

  predicate All(c: Cluster, p: Phase) {
    forall i | 0 <= i < |c.brokers| :: c.brokers[i] == p
  }

  /** The controller is complete and still connected to ZooKeeper; `claims` tells whether it has a volume claim. */
  predicate ControllerUp(c: Cluster, claims: bool) {
    c.service && (claims ==> c.claim) && c.deployment == WithZooKeeper
  }

  predicate ControllerGone(c: Cluster, claims: bool) {
    !c.service && (claims ==> !c.claim) && c.deployment == Absent
  }

  predicate Enabled(c: Cluster, claims: bool, a: Action) {
    var step := StepOf(c.status);
    match a
    case CreateService => step == 0
    case CreateClaim => step == 0 && claims
    case DeployController => step == 0 && c.service && (claims ==> c.claim)
    case UpdateBroker(id, phase) =>
      && id < |c.brokers| && phase != ZooKeeper && step == Rank(phase)
      && (phase == Migrating ==> c.ready && AllBefore(c, id))
    case ObserveMigration => step == 1 && All(c, Migrating) && c.restarting == {}
    case DetachController => step == 2 && All(c, Joint) && c.restarting == {}
    case DeleteService => step == 3 && All(c, Kraft) && c.restarting == {}
    case DeleteClaim => step == 3 && All(c, Kraft) && c.restarting == {} && claims
    case DeleteDeployment => step == 3 && All(c, Kraft) && c.restarting == {}
    case WriteStatus(closing) =>
      && 1 <= closing <= 4 && step + 1 == closing && c.restarting == {}
      && (closing == 1 ==> ControllerUp(c, claims) && c.ready)
      && (closing == 2 ==> All(c, Migrating) && c.observed)
      && (closing == 3 ==> All(c, Joint) && c.deployment == WithoutZooKeeper && c.ready)
      && (closing == 4 ==> All(c, Kraft) && ControllerGone(c, claims))
    case AwaitController => c.deployment != Absent
    case AwaitBroker(id) => id < |c.brokers|
    case Disturb => true
    case Rollout(id, rolling) => id < |c.brokers| && step == 4 && (rolling ==> NoneBefore(c, id))
    case Resize(id) => id < |c.brokers| && step == 4
  }

  /** All brokers in front of this one run with the migration controller and are ready. */
  predicate AllBefore(c: Cluster, id: nat)
    requires id <= |c.brokers|
  {
    forall i | 0 <= i < id :: c.brokers[i] == Migrating && i !in c.restarting
  }

  /** No broker in front of this one restarts. */
  predicate NoneBefore(c: Cluster, id: nat) {
    forall i | 0 <= i < id :: i !in c.restarting
  }

  /** Storing an unchanged deployment restarts nothing. */
  function Effect(c: Cluster, claims: bool, a: Action): Cluster
    requires Enabled(c, claims, a)
  {
    match a
    case CreateService => c.(service := true)
    case CreateClaim => c.(claim := true)
    case DeployController => Deployed(c, WithZooKeeper)
    case UpdateBroker(id, phase) =>
      if c.brokers[id] == phase then c else c.(brokers := c.brokers[id := phase], restarting := c.restarting + {id})
    case ObserveMigration => c.(observed := true)
    case DetachController => Deployed(c, WithoutZooKeeper)
    case DeleteService => c.(service := false)
    case DeleteClaim => c.(claim := false)
    case DeleteDeployment => c.(deployment := Absent)
    case WriteStatus(closing) => c.(status := StatusClosing(closing))
    case AwaitController => c.(ready := true)
    case AwaitBroker(id) => c.(restarting := c.restarting - {id})
    case Disturb => c.(ready := false)
    case Rollout(id, _) => c.(restarting := c.restarting + {id}, rollouts := c.rollouts + 1)
    case Resize(id) => c.(restarting := c.restarting + {id}, resizes := c.resizes + 1)
  }

  function Deployed(c: Cluster, d: Deployment): Cluster {
    if c.deployment == d then c else c.(deployment := d, ready := false)
  }

  ghost predicate Initial(c: Cluster) {
    StepOf(c.status) == 0 && !c.service && !c.claim && c.deployment == Absent && All(c, ZooKeeper)
    && !c.observed && !c.ready && c.restarting == {} && c.rollouts == 0 && c.resizes == 0
  }

  ghost predicate Next(c: Cluster, claims: bool, c': Cluster) {
    exists a :: Enabled(c, claims, a) && c' == Effect(c, claims, a)
  }

  /** Every history of a migrating cluster, across any number of failed and resumed reconciles. */
  ghost predicate History(h: seq<Cluster>, claims: bool) {
    && h != [] && Initial(h[0])
    && forall i | 0 <= i < |h| - 1 :: Next(h[i], claims, h[i + 1])
  }

  // ----- the invariant -----

  ghost predicate RanksWithin(c: Cluster, low: nat, high: nat) {
    forall i | 0 <= i < |c.brokers| :: low <= Rank(c.brokers[i]) <= high
  }

  /** The brokers that may be restarting: of those that start to migrate only the last one. */
  ghost predicate RestartsAre(c: Cluster) {
    && (forall id | id in c.restarting :: id < |c.brokers|)
    && (StepOf(c.status) == 0 ==> c.restarting == {})
    && (StepOf(c.status) == 1 ==> forall id | id in c.restarting ::
          c.restarting == {id} && forall i | 0 <= i <= id :: c.brokers[i] == Migrating)
  }

  ghost predicate Unrolled(c: Cluster) {
    c.rollouts == 0 && c.resizes == 0
  }

  ghost predicate Inv(c: Cluster, claims: bool) {
    && RestartsAre(c)
    && match StepOf(c.status)
       case 0 => All(c, ZooKeeper) && c.deployment != WithoutZooKeeper && Unrolled(c)
              && (c.deployment == WithZooKeeper ==> ControllerUp(c, claims))
       case 1 => RanksWithin(c, 0, 1) && ControllerUp(c, claims) && Unrolled(c)
       case 2 => RanksWithin(c, 1, 2) && c.observed && c.service && (claims ==> c.claim) && Unrolled(c)
              && c.deployment != Absent && (c.deployment == WithoutZooKeeper ==> All(c, Joint) && c.restarting == {})
       case 3 => RanksWithin(c, 2, 3) && c.observed && c.deployment != WithZooKeeper && Unrolled(c)
              && (!All(c, Kraft) || c.restarting != {} ==>
                    c.service && (claims ==> c.claim) && c.deployment == WithoutZooKeeper)
       case _ => All(c, Kraft) && c.observed && ControllerGone(c, claims)
  }

  lemma InitialInv(c: Cluster, claims: bool)
    requires Initial(c)
    ensures Inv(c, claims)
  {
  }

  lemma BrokerUpdateKeepsInv(c: Cluster, claims: bool, id: nat, phase: Phase)
    requires Inv(c, claims) && Enabled(c, claims, UpdateBroker(id, phase))
    ensures Inv(Effect(c, claims, UpdateBroker(id, phase)), claims)
  {
  }

  lemma StatusKeepsInv(c: Cluster, claims: bool, closing: nat)
    requires Inv(c, claims) && Enabled(c, claims, WriteStatus(closing))
    ensures Inv(Effect(c, claims, WriteStatus(closing)), claims)
  {
    StatusRoundTrip(closing);
  }

  lemma EffectKeepsInv(c: Cluster, claims: bool, a: Action)
    requires Inv(c, claims) && Enabled(c, claims, a)
    ensures Inv(Effect(c, claims, a), claims)
  {
    if a.WriteStatus? {
      StatusKeepsInv(c, claims, a.closing);
    } else if a.UpdateBroker? {
      BrokerUpdateKeepsInv(c, claims, a.id, a.phase);
    }
  }

  /** The stored step, the observation and the phase of every broker have not gone back. */
  ghost predicate Forward(c: Cluster, c': Cluster) {
    && StepOf(c.status) <= StepOf(c'.status) && |c'.brokers| == |c.brokers|
    && (c.observed ==> c'.observed)
    && forall i | 0 <= i < |c.brokers| :: Rank(c.brokers[i]) <= Rank(c'.brokers[i])
  }

  lemma EffectIsForward(c: Cluster, claims: bool, a: Action)
    requires Inv(c, claims) && Enabled(c, claims, a)
    ensures Forward(c, Effect(c, claims, a))
  {
    if a.WriteStatus? {
      StatusRoundTrip(a.closing);
    }
  }

  lemma NextKeepsInv(c: Cluster, claims: bool, c': Cluster)
    requires Inv(c, claims) && Next(c, claims, c')
    ensures Inv(c', claims) && Forward(c, c')
  {
    var a :| Enabled(c, claims, a) && c' == Effect(c, claims, a);
    EffectKeepsInv(c, claims, a);
    EffectIsForward(c, claims, a);
  }

  lemma {:induction false} HistoryInv(h: seq<Cluster>, claims: bool, i: nat)
    requires History(h, claims) && i < |h|
    ensures Inv(h[i], claims)
  {
    if i == 0 {
      InitialInv(h[0], claims);
    } else {
      HistoryInv(h, claims, i - 1);
      NextKeepsInv(h[i - 1], claims, h[i]);
    }
  }

  // ----- safety over all histories -----

  /** What an operator relies on at every moment. */
  ghost predicate Safe(c: Cluster, claims: bool) {
    // no broker leaves ZooKeeper before the migration was observed to be complete
    && (forall i | 0 <= i < |c.brokers| && Rank(c.brokers[i]) >= 2 :: c.observed)
    // brokers are never more than one phase apart
    && (forall i, j | 0 <= i < |c.brokers| && 0 <= j < |c.brokers| :: Rank(c.brokers[i]) <= Rank(c.brokers[j]) + 1)
    // the controller exists while some broker lists it as a voter
    && (forall i | 0 <= i < |c.brokers| && 1 <= Rank(c.brokers[i]) <= 2 ::
          c.service && (claims ==> c.claim) && c.deployment != Absent)
    // the controller keeps its ZooKeeper connection while some broker still needs it
    && (forall i | 0 <= i < |c.brokers| && Rank(c.brokers[i]) <= 1 :: c.deployment != WithoutZooKeeper)
    // of the brokers that start to migrate at most one restarts at a time
    && (forall i, j | i in c.restarting && j in c.restarting && StepOf(c.status) <= 1 :: i == j)
    // brokers restart with the controller as a voter only while it exists
    && (c.restarting != {} && StepOf(c.status) < 4 ==> c.service && (claims ==> c.claim) && c.deployment != Absent)
    // ordinary rollouts happen on a migrated cluster only
    && (c.rollouts + c.resizes > 0 ==> All(c, Kraft) && ControllerGone(c, claims) && StepOf(c.status) == 4)
  }

  lemma InvIsSafe(c: Cluster, claims: bool)
    requires Inv(c, claims)
    ensures Safe(c, claims)
  {
  }

  /** Safety of every moment of every history. */
  lemma MigrationIsSafe(h: seq<Cluster>, claims: bool, i: nat)
    requires History(h, claims) && i < |h|
    ensures Safe(h[i], claims)
  {
    HistoryInv(h, claims, i);
    InvIsSafe(h[i], claims);
  }

  /** What every single change relies on. */
  ghost predicate Guarded(c: Cluster, c': Cluster) {
    // a step is closed when everything that was changed has been seen ready
    && (StepOf(c'.status) != StepOf(c.status) ==> c.restarting == {} && StepOf(c'.status) == StepOf(c.status) + 1)
    && (StepOf(c'.status) != StepOf(c.status) && StepOf(c.status) in {0, 2} ==> c.ready)
    // brokers start to migrate one after the other, with a controller that has been seen ready
    && (forall i | 0 <= i < |c.brokers| == |c'.brokers| && Rank(c.brokers[i]) == 0 && Rank(c'.brokers[i]) == 1 ::
          c.ready && c.restarting == {} && c'.restarting == {i} && forall j | 0 <= j < i :: Rank(c.brokers[j]) == 1)
    // completion is looked for, and the controller taken from ZooKeeper and removed, when no broker restarts
    && (c'.observed != c.observed ==> c.restarting == {} && All(c, Migrating))
    && (c'.deployment == WithoutZooKeeper != c.deployment ==> c.restarting == {} && All(c, Joint))
    && (c.deployment != Absent == c'.deployment ==> c.restarting == {} && All(c, Kraft))
    // a changed controller or broker must be seen ready again
    && (c'.deployment != c.deployment && c'.deployment != Absent ==> !c'.ready)
    && (forall i | 0 <= i < |c.brokers| == |c'.brokers| && c.brokers[i] != c'.brokers[i] :: i in c'.restarting)
  }

  lemma EffectIsGuarded(c: Cluster, claims: bool, a: Action)
    requires Inv(c, claims) && Enabled(c, claims, a)
    ensures Guarded(c, Effect(c, claims, a))
  {
    if a.WriteStatus? {
      StatusRoundTrip(a.closing);
    }
  }

  /** After a disturbance no broker starts to migrate and no step is closed that needs the controller to be ready. */
  lemma DisturbedMustBeAwaited(c: Cluster, claims: bool, id: nat)
    ensures var d := Effect(c, claims, Disturb);
      && !Enabled(d, claims, UpdateBroker(id, Migrating))
      && !Enabled(d, claims, WriteStatus(1)) && !Enabled(d, claims, WriteStatus(3))
  {
  }

  /** Every change in every history is guarded. */
  lemma MovesAreGuarded(h: seq<Cluster>, claims: bool, i: nat)
    requires History(h, claims) && i + 1 < |h|
    ensures Guarded(h[i], h[i + 1])
  {
    HistoryInv(h, claims, i);
    var a :| Enabled(h[i], claims, a) && h[i + 1] == Effect(h[i], claims, a);
    EffectIsGuarded(h[i], claims, a);
  }

  lemma {:induction false} ForwardChain(h: seq<Cluster>, i: nat, j: nat)
    requires forall k | 0 <= k < |h| - 1 :: Forward(h[k], h[k + 1])
    requires i <= j < |h|
    ensures Forward(h[i], h[j])
    decreases j
  {
    if i < j {
      ForwardChain(h, i, j - 1);
      assert Forward(h[j - 1], h[j - 1 + 1]);
    }
  }

  /** Between any two moments the stored step and the phase of every broker only advance. */
  lemma MigrationNeverGoesBack(h: seq<Cluster>, claims: bool, i: nat, j: nat)
    requires History(h, claims) && i <= j < |h|
    ensures Forward(h[i], h[j])
  {
    forall k | 0 <= k < |h| - 1 ensures Forward(h[k], h[k + 1]) {
      HistoryInv(h, claims, k);
      NextKeepsInv(h[k], claims, h[k + 1]);
    }
    ForwardChain(h, i, j);
  }

  // ----- progress -----

  /** Phases still ahead of the brokers. */
  function PhasesLeft(brokers: seq<Phase>): nat {
    if brokers == [] then 0 else 3 - Rank(brokers[0]) + PhasesLeft(brokers[1..])
  }

  lemma {:induction false} UpdatePhases(brokers: seq<Phase>, i: nat, p: Phase)
    requires i < |brokers|
    ensures PhasesLeft(brokers[i := p]) == PhasesLeft(brokers) + Rank(brokers[i]) - Rank(p)
  {
    if i > 0 {
      assert brokers[i := p][1..] == brokers[1..][i - 1 := p];
      UpdatePhases(brokers[1..], i - 1, p);
    } else {
      assert brokers[i := p][1..] == brokers[1..];
    }
  }

  /** A part is still to be created before the first status, and gone for good later. */
  function PartLeft(present: bool, step: nat): nat {
    if present then 1 else if step == 0 then 2 else 0
  }

  function DeploymentLeft(d: Deployment, step: nat): nat {
    match d
    case WithZooKeeper => 2
    case WithoutZooKeeper => 1
    case Absent => if step == 0 then 3 else 0
  }

  function ReadyLeft(c: Cluster): nat {
    if c.deployment != Absent && !c.ready then 1 else 0
  }

  /** The work still to be done; a change counts twice because what it restarts must be seen ready. */
  function Remaining(c: Cluster, claims: bool): int {
    var step := StepOf(c.status);
    4 - step + 2 * PhasesLeft(c.brokers) + PartLeft(c.service, step)
    + (if claims then PartLeft(c.claim, step) else 0)
    + 2 * DeploymentLeft(c.deployment, step) + (if c.observed then 0 else 1) + ReadyLeft(c) + |c.restarting|
  }

  lemma AddedRestart(restarting: set<nat>, id: nat)
    ensures |restarting + {id}| <= |restarting| + 1
    ensures |restarting - {id}| == |restarting| - (if id in restarting then 1 else 0)
  {
    if id in restarting {
      assert restarting + {id} == restarting;
    } else {
      assert restarting - {id} == restarting;
    }
  }

  lemma BrokerUpdateAdvances(c: Cluster, claims: bool, id: nat, phase: Phase)
    requires Inv(c, claims) && Enabled(c, claims, UpdateBroker(id, phase))
    ensures var c' := Effect(c, claims, UpdateBroker(id, phase));
      c' == c || Remaining(c', claims) < Remaining(c, claims)
  {
    UpdatePhases(c.brokers, id, phase);
    AddedRestart(c.restarting, id);
  }

  lemma StatusAdvances(c: Cluster, claims: bool, closing: nat)
    requires Inv(c, claims) && Enabled(c, claims, WriteStatus(closing))
    ensures Remaining(Effect(c, claims, WriteStatus(closing)), claims) < Remaining(c, claims)
  {
    StatusRoundTrip(closing);
  }

  lemma AwaitAdvances(c: Cluster, claims: bool, a: Action)
    requires Enabled(c, claims, a) && (a.AwaitController? || a.AwaitBroker?)
    ensures var c' := Effect(c, claims, a); c' == c || Remaining(c', claims) < Remaining(c, claims)
  {
    if a.AwaitBroker? {
      AddedRestart(c.restarting, a.id);
      assert a.id !in c.restarting ==> c.restarting - {a.id} == c.restarting;
    }
  }

  /** The action changes the migration controller. */
  predicate OfController(a: Action) {
    || a.CreateService? || a.CreateClaim? || a.DeployController? || a.ObserveMigration? || a.DetachController?
    || a.DeleteService? || a.DeleteClaim? || a.DeleteDeployment?
  }

  lemma ControllerAdvances(c: Cluster, claims: bool, a: Action)
    requires Inv(c, claims) && Enabled(c, claims, a) && OfController(a)
    ensures var c' := Effect(c, claims, a); c' == c || Remaining(c', claims) < Remaining(c, claims)
  {
    assert Effect(c, claims, a).restarting == c.restarting && Effect(c, claims, a).brokers == c.brokers;
  }

  /** Repeating an action on resume changes nothing; any change to the migration brings its end closer. */
  lemma EveryChangeAdvances(c: Cluster, claims: bool, a: Action)
    requires Inv(c, claims) && Enabled(c, claims, a)
    ensures var c' := Effect(c, claims, a);
      a.Disturb? || a.Rollout? || a.Resize? || c' == c || Remaining(c', claims) < Remaining(c, claims)
  {
    if a.WriteStatus? {
      StatusAdvances(c, claims, a.closing);
    } else if a.UpdateBroker? {
      BrokerUpdateAdvances(c, claims, a.id, a.phase);
    } else if a.AwaitBroker? || a.AwaitController? {
      AwaitAdvances(c, claims, a);
    } else if OfController(a) {
      ControllerAdvances(c, claims, a);
    }
  }

  /** From every unfinished moment of every history some action brings the end closer. */
  lemma UnfinishedCanAdvance(h: seq<Cluster>, claims: bool, i: nat)
    requires History(h, claims) && i < |h| && StepOf(h[i].status) < 4
    ensures exists a :: Enabled(h[i], claims, a) && Remaining(Effect(h[i], claims, a), claims) < Remaining(h[i], claims)
  {
    HistoryInv(h, claims, i);
    var c := h[i];
    var a := NextAction(c, claims);
    EveryChangeAdvances(c, claims, a);
    if a.WriteStatus? {
      StatusAdvances(c, claims, a.closing);
    }
  }

  /** The first broker that is in another phase, if there is one. */
  ghost function FirstOutside(c: Cluster, phase: Phase, from: nat): (i: nat)
    requires from <= |c.brokers| && forall j | 0 <= j < from :: c.brokers[j] == phase
    ensures i <= |c.brokers| && forall j | 0 <= j < i :: c.brokers[j] == phase
    ensures i < |c.brokers| ==> c.brokers[i] != phase
    decreases |c.brokers| - from
  {
    if from == |c.brokers| || c.brokers[from] != phase then from else FirstOutside(c, phase, from + 1)
  }

  /** What brings the brokers of a step on: the next one, or one to be seen ready. */
  ghost function NextBroker(c: Cluster, claims: bool, phase: Phase): (a: Action)
    requires Inv(c, claims) && phase != ZooKeeper && StepOf(c.status) == Rank(phase) && (phase == Migrating ==> c.ready)
    requires !All(c, phase) || c.restarting != {}
    ensures Enabled(c, claims, a) && (a.UpdateBroker? || a.AwaitBroker?) && Effect(c, claims, a) != c
  {
    if c.restarting != {} then
      var id :| id in c.restarting;
      AwaitBroker(id)
    else UpdateBroker(FirstOutside(c, phase, 0), phase)
  }

  /** The action is permitted, useful, and part of the migration. */
  ghost predicate Useful(c: Cluster, claims: bool, a: Action) {
    && Enabled(c, claims, a) && !a.Disturb? && !a.Rollout? && !a.Resize?
    && (!a.WriteStatus? ==> Effect(c, claims, a) != c)
  }

  ghost function NextToCreate(c: Cluster, claims: bool): (a: Action)
    requires Inv(c, claims) && StepOf(c.status) == 0
    ensures Useful(c, claims, a)
  {
    if !c.service then CreateService
    else if claims && !c.claim then CreateClaim
    else if c.deployment == Absent then DeployController
    else if !c.ready then AwaitController
    else WriteStatus(1)
  }

  ghost function NextToMigrate(c: Cluster, claims: bool): (a: Action)
    requires Inv(c, claims) && StepOf(c.status) == 1
    ensures Useful(c, claims, a)
  {
    if !c.ready then AwaitController
    else if !All(c, Migrating) || c.restarting != {} then NextBroker(c, claims, Migrating)
    else if !c.observed then ObserveMigration
    else WriteStatus(2)
  }

  ghost function NextToDetach(c: Cluster, claims: bool): (a: Action)
    requires Inv(c, claims) && StepOf(c.status) == 2
    ensures Useful(c, claims, a)
  {
    if !All(c, Joint) || c.restarting != {} then NextBroker(c, claims, Joint)
    else if c.deployment == WithZooKeeper then DetachController
    else if !c.ready then AwaitController
    else WriteStatus(3)
  }

  ghost function NextToRemove(c: Cluster, claims: bool): (a: Action)
    requires Inv(c, claims) && StepOf(c.status) == 3
    ensures Useful(c, claims, a)
  {
    if !All(c, Kraft) || c.restarting != {} then NextBroker(c, claims, Kraft)
    else if c.service then DeleteService
    else if claims && c.claim then DeleteClaim
    else if c.deployment != Absent then DeleteDeployment
    else WriteStatus(4)
  }

  /** The next useful action. */
  ghost function NextAction(c: Cluster, claims: bool): (a: Action)
    requires Inv(c, claims) && StepOf(c.status) < 4
    ensures Useful(c, claims, a)
  {
    match StepOf(c.status)
    case 0 => NextToCreate(c, claims)
    case 1 => NextToMigrate(c, claims)
    case 2 => NextToDetach(c, claims)
    case _ => NextToRemove(c, claims)
  }
}
