# Verified model of the Kafka service operator

This project models the parts of the Kafka service operator that carry its hard promises, and proves
them for every input, run and reachable state.

| component | files |
|---|---|
| Partition rebalancer | `Rounding`, `Rebalance`, `Rebalancer`, `SkewLaws`, `ChoiceLaws`, `RackPreference` |
| ZooKeeper to KRaft migration | `Migration`, `MigrationReconciler` |
| Shared Mirror Maker properties text: text operations and rows | `Options`, `Text`, `Lines`, `Numbers`, `Properties`, `Slices` |
| Transformation properties of many owners | `Transformation`, `TransformationLaws`, `OwnerLaws`, `TransformationConfigurator`, `DefinitionLaws`, `DefinitionReadBack`, `ResourceText`, `SwitchLaws`, `OwnerRuns` |
| Topic lists of many resources | `TopicMerge`, `TopicLaws`, `TopicRuns`, `TopicJoin`, `KmmConfigReconciler` |
| Printer and disaster recovery reader | `MirrorPrinter`, `MirrorReader`, `MirrorOrigins`, `MirrorKeys`, `MirrorRoundTrip`, `MirrorReadBack`, `ReaderLaws`, `MirrorSettings`, `MirrorFlows`, `MirrorRuns`, `MirrorOutcome`, `MirrorMaker`, `KmmDrConfig` |
| AKHQ mapping list | `AkhqMapping`, `AkhqRuns`, `AkhqReconciler` |
| Run-level loops | `ReplicationAudit`, `RestartSupervisor` |

Code that works step by step is modelled by methods and classes with loops and in-place updates. Each is
proved equal to a declarative rule or function, and the promises are lemmas about that rule or
function. Go slices keep their backing array, length and spare capacity (`Slices`), so aliasing
between appends is part of the model.

Where a promise fails, a lemma shows inputs on which it fails and another one states exactly when it holds:

| promise | fails | holds exactly |
|---|---|---|
| a move keeps the racks of a partition if it can | `RackPreference.BySlotLosesARack` | `RackPreference.BySlotProtectsExactly` |
| the printed text can be read for every spelling of the region | `MirrorReadBack.RegionMustBeLowerCase` | `MirrorReadBack.ReadsBackExactly` |
| requested topics are merged | `TopicLaws.IndentedRowIsMissed`, `TopicLaws.EqualsSignIsNeverListed` | `TopicLaws.TopicsMergeExactly` |
| a merge leaves other rows alone | `TopicLaws.BlackListIsLost` | `TopicLaws.OtherRowsStayExactly` |
| names of other owners stay listed, and what a resource asks for is written | `OwnerRuns.TightSwitchLosesNames` | `OwnerRuns.ReconcileKeepsNamesExactly`, `OwnerRuns.RequestIsWrittenExactly` |
| a second transformation update changes nothing | `OwnerLaws.CommaRequestIsNotIdempotent` | `TransformationLaws.IdempotentExactly` |
| a requested descriptor is written | `AkhqMapping.DuplicateBlanksDescriptor` | `AkhqMapping.DescriptorsWrittenExactly` |
| no descriptor stays that nobody asks for | `AkhqRuns.BrokenRequestLeavesOrphan` | `AkhqRuns.FilesFitExactly` |
| different resources are different owners of mappings | `AkhqRuns.ResourcesShareAnOwner` | `AkhqRuns.SameOwnerExactly` |
| as many failures as the limit within the window are noticed | `RestartSupervisor.BurstAcrossARestart` | `RestartSupervisor.BurstNoticedExactly` |

The sample text in the comment of `GetMirrorMakerProperties` lacks the settings for the internal REST
endpoint and the number of tasks, which the code prints. The model follows the code.

## Model

| member | source | states |
|---|---|---|
| `Rounding.PercentageLosesAtMostOne` | operator/controllers/kafka_client.go:469-469 | the conversion of the rounded percentage loses at most one, towards zero, for any arithmetic that is close |
| `Rounding.PercentageIsExact` | operator/controllers/kafka_client.go:469-469 | over real numbers the conversion loses nothing |
| `Rounding.PercentageIsMonotone` | operator/controllers/kafka_client.go:469-495 | neither the roundings of floating-point arithmetic nor the conversion reverse the order of two shares |
| `Rounding.RoundIsNearest` | operator/controllers/kafka_client.go:493-495 | the rounded number is the nearest integer, of two at the same distance the one farther from zero |
| `Rebalance.SkewIsMonotone` | operator/controllers/kafka_client.go:453-475 | in floating-point arithmetic of any precision no rounding and no truncation reverses the order of two counts |
| `Rebalance.SkewIsAPercentage` | operator/controllers/kafka_client.go:453-475 | a count between zero and the global count has a skew in -100..100, whatever the precision |
| `SkewLaws.SkewHasTheSign` | operator/controllers/kafka_client.go:453-475 | whatever the arithmetic rounds, a broker whose count times the number of brokers is at least the total has no negative skew, and one where it is at most the total no positive one |
| `SkewLaws.SkewIsNear` | operator/controllers/kafka_client.go:460-470 | without rounding errors the skew is within a half, and a hundredth of a replica in the whole, of the exact percentage of the larger of average and room above it |
| `SkewLaws.EvenLoadHasNoSkew` | operator/controllers/kafka_client.go:453-475 | equal counts have skew zero, in floating-point arithmetic of any precision |
| `Rebalance.ChoicesGoDownhill` | operator/controllers/kafka_client.go:280-308 | every applied move goes from a strictly more loaded to a strictly less loaded broker, which was no replica before |
| `ChoiceLaws.ChoicesExactly` | operator/controllers/kafka_client.go:363-435 | the allowed choices in closed form: the first slot of the replica of largest skew goes to the under-loaded outsider of smallest skew among those on a new rack, else on the same rack, else among all; racks count only where brokers have them |
| `ChoiceLaws.TakersAreBelowAverage` | operator/controllers/kafka_client.go:363-385 | a replica only goes to a broker whose count is strictly below the average |
| `ChoiceLaws.StepsExactly` | operator/controllers/kafka_client.go:277-308 | every step of every run without the remembered broker: nothing changes where no move is possible; otherwise the move is made and both counts follow, unless replicas are single and the last possible move was made to the same broker |
| `Rebalance.BalanceNeverWorsens` | operator/controllers/kafka_client.go:277-318 | over any stretch of any run every bound on the tallies stays a bound, the total is conserved and the sum of squares never rises |
| `Rebalance.TallyAgreesWithMatrix` | operator/controllers/kafka_client.go:289-328 | over a run the tracked count of every broker changes exactly as its number of replicas in the assignment |
| `Rebalance.ReplicaSetsStaySets` | operator/controllers/kafka_client.go:277-308 | partitions keep their size, stay pairwise distinct, differ from the input in at most one slot, and a new id is a tracked broker |
| `Rebalance.DistinctIsASet` | operator/controllers/kafka_client.go:350-361 | a row is pairwise distinct exactly when it has as many members as slots |
| `Rebalance.AbsentDoesNotOccur` | operator/controllers/kafka_client.go:350-361 | a broker that no partition has occurs nowhere |
| `Rebalance.SkewsStayPercentages` | operator/controllers/kafka_client.go:221-233 | from a metadata count, all reached tallies stay in 0..global and all skews in -100..100 |
| `Rebalancer.SortBySkew` | operator/controllers/kafka_client.go:283-285 | the list is reordered and sorted by skew |
| `Rebalancer.CalcBrokerWithMostPartitionsToSwap` | operator/controllers/kafka_client.go:387-398 | the first over-loaded broker that is a replica of the partition, with its first slot, or none |
| `Rebalancer.FindFit` | operator/controllers/kafka_client.go:404-432 | the first admissible broker of a pass, or none |
| `Rebalancer.CalcBrokerWithLeastPartitionsToSwap` | operator/controllers/kafka_client.go:400-435 | the three passes in order, with the racks looked up as the code does |
| `Rebalancer.PickIsBest` | operator/controllers/kafka_client.go:400-435 | on a sorted list the three passes find the broker of least rank and skew outside the partition, or there is none |
| `Rebalancer.PrepareBrokersWithMostAndLeastPartitions` | operator/controllers/kafka_client.go:363-385 | the sorted list is split at the first negative skew, the second part sorted ascending |
| `Rebalancer.Decide` | operator/controllers/kafka_client.go:287-299 | the decision for one partition is right for the tallies: best source, best target, or none |
| `Rebalancer.DecisionIsStep` | operator/controllers/kafka_client.go:293-307 | carrying out a right decision is a step of the declarative rule, including the skip for replication factor one |
| `Rebalancer.TotalCount` | operator/controllers/kafka_client.go:453-459 | the total the average is taken from |
| `Rebalancer.WithSkews` | operator/controllers/kafka_client.go:460-475 | every broker gets the skew of its count, whose sign and size SkewLaws ties to the counts; nothing else changes |
| `Rebalancer.Rebalancer.constructor` | operator/controllers/kafka_client.go:221-233 | the tally counts the leaders of the topic metadata, so it lies in 0..global |
| `Rebalancer.Rebalancer.CalculateBrokersSkew` | operator/controllers/kafka_client.go:453-475 | skews are recomputed in place from the current tallies, and everything else stays |
| `Rebalancer.Rebalancer.RankBrokers` | operator/controllers/kafka_client.go:281-285 | skews recomputed and the broker list sorted |
| `Rebalancer.Rebalancer.UpdateBrokersInfo` | operator/controllers/kafka_client.go:320-328 | the count of the source falls by one, that of the target rises by one, all else stays |
| `Rebalancer.Rebalancer.CopyCurrentReplicaAssignment` | operator/controllers/kafka_client.go:350-361 | the first replicas of every partition, as many as the replication factor |
| `Rebalancer.Rebalancer.ApplySwap` | operator/controllers/kafka_client.go:306-307 | one slot of the assignment and two tallies change together |
| `Rebalancer.Rebalancer.VisitPartition` | operator/controllers/kafka_client.go:280-308 | one pass of the loop is a step of the rule |
| `Rebalancer.Rebalancer.ReassignPartitionsForTopic` | operator/controllers/kafka_client.go:277-308 | the whole loop is a run of the rule from the copied assignment, so all laws above hold of it |
| `RackPreference.KeepsExactly` | operator/controllers/kafka_client.go:400-443 | replacing one replica keeps the number of racks exactly when the old rack is still there or the new one is fresh |
| `RackPreference.LeastIsUnderLoaded` | operator/controllers/kafka_client.go:363-385 | the list of under-loaded brokers of a ranked broker list has distinct tracked brokers on their racks, least loaded first |
| `RackPreference.PreferenceExactly` | operator/controllers/kafka_client.go:400-451 | over all lists of under-loaded brokers the code can build, the racks are kept if they can be exactly when the rack given up is shared or no two brokers mislead the choice |
| `RackPreference.ByReplicaProtects` | operator/controllers/kafka_client.go:400-443 | racks looked up by replica mislead nobody: a move never gives up a rack unless nobody could have kept it |
| `RackPreference.BySlotProtectsExactly` | operator/controllers/kafka_client.go:400-451 | as written: the exact condition over all lists the code can build, checked by looking at pairs of brokers |
| `RackPreference.SparePartitionsExactly` | operator/controllers/kafka_client.go:437-451 | where each rack of the partition has a broker to spare: protected exactly when the rack given up is shared, there is one replica, or the brokers numbered like the slots are on all racks of the other replicas and on no unused one |
| `RackPreference.BySlotLosesARack` | operator/controllers/kafka_client.go:437-443 | as written, a rack is given up on a list the code can build although another broker would have kept it |
| `Migration.StatusRoundTrip` | operator/controllers/kafka/kafka_reconciler.go:211-304 | each status written decodes to the step after the one it closes |
| `Migration.StatusTexts` | operator/controllers/kafka/kafka_reconciler.go:211-223 | the four stored texts and the steps they resume at |
| `Migration.OtherTextsStartOver` | operator/controllers/kafka/kafka_reconciler.go:211-223 | any other text starts from the beginning |
| `Migration.EffectKeepsInv` | operator/controllers/kafka/kafka_reconciler.go:204-311 | every permitted action keeps the invariant that ties status, controller and broker phases |
| `Migration.HistoryInv` | operator/controllers/kafka/kafka_reconciler.go:204-311 | the invariant holds at every moment of every history with failures and restarts |
| `Migration.MigrationIsSafe` | operator/controllers/kafka/kafka_reconciler.go:204-311 | no broker is KRaft-only before completion was observed, phases differ by at most one, the controller exists while a broker lists it, and no rollout touches a half-migrated cluster |
| `Migration.MovesAreGuarded` | operator/controllers/kafka/kafka_reconciler.go:204-376 | a broker only starts to migrate with a ready controller and all brokers in front of it migrated and ready; the controller is detached, the entities deleted and a step closed only while nobody restarts; a rolling rollout only starts with all brokers in front of it ready |
| `Migration.MigrationNeverGoesBack` | operator/controllers/kafka/kafka_reconciler.go:211-304 | between any two moments the stored step and every broker phase only advance |
| `Migration.EveryChangeAdvances` | operator/controllers/kafka/kafka_reconciler.go:609-789 | an action either changes nothing or strictly lowers the remaining work |
| `Migration.UnfinishedCanAdvance` | operator/controllers/kafka/kafka_reconciler.go:211-304 | from every unfinished moment some permitted action lowers the remaining work |
| `Migration.DisturbedMustBeAwaited` | operator/controllers/kafka/kafka_reconciler.go:232-290 | after a disturbance no broker starts to migrate and no step is closed that needs a ready controller |
| `MigrationReconciler.Reconciler.constructor` | operator/controllers/kafka/kafka_reconciler.go:204-210 | a stored status before the first step starts a history in which nothing restarts and nothing was rolled out |
| `MigrationReconciler.Reconciler.Perform` | operator/controllers/kafka/kafka_reconciler.go:609-644 | a changing call succeeds, fails without effect or fails after its effect, and extends the history |
| `MigrationReconciler.Reconciler.Disturbance` | operator/controllers/kafka/kafka_reconciler.go:715-733 | between reconciles the controller may have stopped being ready; nothing else changes |
| `MigrationReconciler.Reconciler.GetZooKeeperClusterID` | operator/controllers/kafka/kafka_reconciler.go:833-846 | without failure the identifier ZooKeeper has for the cluster |
| `MigrationReconciler.Reconciler.CreateMigrationControllerEntities` | operator/controllers/kafka/kafka_reconciler.go:646-675 | on success the controller and its claims exist, it was seen ready and the status is unchanged |
| `MigrationReconciler.Reconciler.EnsureMigrationControllerIsReady` | operator/controllers/kafka/kafka_reconciler.go:715-733 | on success the controller is ready and nothing else changed |
| `MigrationReconciler.Reconciler.DeployAndAwaitController` | operator/controllers/kafka/kafka_reconciler.go:664-713 | on success the controller runs as asked and was seen ready |
| `MigrationReconciler.Reconciler.UpdateBrokers` | operator/controllers/kafka/kafka_reconciler.go:739-749 | on success every broker is in the phase of the step and nothing else changed; those that start to migrate were awaited one by one |
| `MigrationReconciler.Reconciler.AwaitBrokers` | operator/controllers/kafka/kafka_reconciler.go:1147-1158 | on success no broker restarts any more |
| `MigrationReconciler.Reconciler.UpdateBrokersAndWaitMigrationResult` | operator/controllers/kafka/kafka_reconciler.go:735-750 | on success all brokers migrate and completion was observed |
| `MigrationReconciler.Reconciler.UpdateBrokersWithoutZooKeeper` | operator/controllers/kafka/kafka_reconciler.go:752-765 | on success all brokers run without ZooKeeper and were awaited |
| `MigrationReconciler.Reconciler.UpdateMigrationControllerWithoutZooKeeper` | operator/controllers/kafka/kafka_reconciler.go:698-713 | on success the controller alone changed and was seen ready |
| `MigrationReconciler.Reconciler.UpdateBrokersWithoutKraftMigrationController` | operator/controllers/kafka/kafka_reconciler.go:767-789 | on success all brokers are KRaft-only and were awaited |
| `MigrationReconciler.Reconciler.RemoveMigrationControllerEntities` | operator/controllers/kafka/kafka_reconciler.go:677-696 | on success the controller is gone and the brokers are as before |
| `MigrationReconciler.Reconciler.UpdateStatus` | operator/controllers/kafka/kafka_reconciler.go:242-305 | the status closes the step |
| `MigrationReconciler.Reconciler.FirstStep` | operator/controllers/kafka/kafka_reconciler.go:227-247 | resumable; on success step one is closed |
| `MigrationReconciler.Reconciler.SecondStep` | operator/controllers/kafka/kafka_reconciler.go:249-267 | resumable; on success step two is closed |
| `MigrationReconciler.Reconciler.ThirdStep` | operator/controllers/kafka/kafka_reconciler.go:269-290 | resumable; on success step three is closed |
| `MigrationReconciler.Reconciler.FourthStep` | operator/controllers/kafka/kafka_reconciler.go:292-306 | resumable; on success the migration is finished |
| `MigrationReconciler.Reconciler.MigrateFurther` | operator/controllers/kafka/kafka_reconciler.go:204-307 | on success the migration is finished, from whatever step it resumed; a finished one is left alone and needs no identifier |
| `MigrationReconciler.Reconciler.RolloutAndAwait` | operator/controllers/kafka/kafka_reconciler.go:359-371 | one broker is rolled out and restarted for a resized volume; only in a rolling update it is seen ready before anything else happens |
| `MigrationReconciler.Reconciler.RolloutEach` | operator/controllers/kafka/kafka_reconciler.go:359-371 | every broker once; in a rolling update at most one more broker restarts at every moment, otherwise all restart together |
| `MigrationReconciler.Reconciler.RolloutBrokers` | operator/controllers/kafka/kafka_reconciler.go:351-376 | with a finished migration, every broker is rolled out once and restarted for a resized volume; at every moment at most one more broker restarts in a rolling update with unchanged admin credentials, and otherwise all restart together, awaited at the end when the credentials changed |
| `MigrationReconciler.Reconciler.Reconcile` | operator/controllers/kafka/kafka_reconciler.go:204-311 | from any stored step: a reconcile without failures succeeds, success means a finished migration and one rollout per broker and per resized volume, one by one or together as the rollout demands, and any reconcile extends the history by permitted actions only |
| `Transformation.EnabledIsKept` | operator/controllers/kmmconfig/transformation_configurator.go:146-170 | the enabled line is never dropped |
| `TransformationLaws.IdempotentExactly` | operator/controllers/kmmconfig/transformation_configurator.go:131-176 | updating twice equals updating once exactly when the flow has no enabled line or no own name reads back as a foreign one |
| `TransformationLaws.CommaNameIsNotIdempotent` | operator/controllers/kmmconfig/transformation_configurator.go:178-187 | a name with a comma whose second part is not the owner's makes every update of an enabled flow change the text again |
| `TransformationLaws.CommaFreeNamesDoNotLeak` | operator/controllers/kmmconfig/transformation_configurator.go:178-187 | own names without commas never read back as foreign ones |
| `TransformationLaws.UpdateHasATightFrame` | operator/controllers/kmmconfig/transformation_configurator.go:131-176 | with one enabled line every kept line survives in order and the block stands directly after the enabled line |
| `TransformationLaws.UpdateBag` | operator/controllers/kmmconfig/transformation_configurator.go:131-176 | whatever the number of enabled lines, the result is the kept lines and the block |
| `TransformationLaws.OtherOwnersLinesStay` | operator/controllers/kmmconfig/transformation_configurator.go:141-170 | every property line of another owner, on the same flow or another, survives as often as it was there |
| `TransformationLaws.ForeignNamesStayExactly` | operator/controllers/kmmconfig/transformation_configurator.go:141-187 | a foreign listed name stays listed as often as before exactly when the flow has an enabled line or the name was not listed |
| `TransformationLaws.UpdatesCommute` | operator/controllers/kmmconfig/transformation_configurator.go:131-176 | updates of two owners of one flow, or of two flows, in either order give the same lines up to order, with or without enabled lines |
| `TransformationLaws.OtherFlowsLeaveItSettled` | operator/controllers/kmmconfig/transformation_configurator.go:131-176 | a text that an update leaves as it is stays so, to the line, when another flow is updated |
| `TransformationLaws.UpdateRespectsBags` | operator/controllers/kmmconfig/transformation_configurator.go:131-176 | the order of the lines decides the order of the result only |
| `TransformationLaws.UpdateKeepsClosure` | operator/controllers/kmmconfig/transformation_configurator.go:88-129 | if every listed name has a type line before an update, so it has after it, own and foreign |
| `TransformationLaws.OwnersAreApart` | operator/controllers/kmmconfig/kmmconfig_controller.go:138-139 | prefixes of different owners whose names have no underscore do not nest |
| `TransformationLaws.OwnerPrefixIsGood` | operator/controllers/kmmconfig/kmmconfig_controller.go:138-139 | the prefix of a host-name owner has no blank or comma, and names behind it keep it |
| `OwnerLaws.TransformedCommutes` | operator/controllers/kmmconfig/kmmconfig_controller.go:140-147 | whole updates over any lists of flows commute up to order when each two definitions are compatible |
| `OwnerLaws.TransformedIsIdempotent` | operator/controllers/kmmconfig/kmmconfig_controller.go:140-147 | updating any list of flows twice is updating them once, to the line |
| `OwnerLaws.OwnersDefinition` | operator/controllers/kmmconfig/kmmconfig_controller.go:138-147 | the request of a Kubernetes owner with plain names gives well-formed definitions under its prefix that do not leak |
| `OwnerLaws.OwnersCommute` | operator/controllers/kmmconfig/kmmconfig_controller.go:138-147 | two different owners may update any flows of any text in either order: the lines are the same up to order |
| `OwnerLaws.OwnerIsIdempotent` | operator/controllers/kmmconfig/kmmconfig_controller.go:138-147 | a second update of an owner over all its flows changes nothing, to the line |
| `OwnerLaws.OwnersKeepLines` | operator/controllers/kmmconfig/kmmconfig_controller.go:138-147 | over all flows no property line of another owner is lost or repeated |
| `OwnerLaws.OwnersKeepNamesExactly` | operator/controllers/kmmconfig/kmmconfig_controller.go:138-147 | over all flows of the update loop a name of another owner stays listed as often exactly when the flow is enabled in the merged text, not edited, or did not list it |
| `OwnerLaws.CommaRequestIsNotIdempotent` | operator/controllers/kmmconfig/kmmconfig_controller.go:138-147 | a request with a transform named `a,b` is not idempotent on any enabled flow |
| `SwitchLaws.EnabledAfterMergeExactly` | operator/controllers/kmmconfig/kmmconfig_controller.go:251-342 | the update will find the switch of a requested flow exactly when the stored text has none, has it as the operator writes it, or says false while some line starts with its key |
| `SwitchLaws.MergeKeepsMarked` | operator/controllers/kmmconfig/kmmconfig_controller.go:314-374 | a merge leaves the transformation lines of every flow alone, in order |
| `OwnerRuns.ReconcileWritesLines` | operator/controllers/kmmconfig/kmmconfig_controller.go:115-154 | a whole reconcile leaves exactly the lines its owner asks for, or none where the switch is not found |
| `OwnerRuns.ReconcileListsNames` | operator/controllers/kmmconfig/kmmconfig_controller.go:115-154 | a whole reconcile lists exactly the names its owner asks for, or none where the switch is not found |
| `OwnerRuns.ReconcileKeepsLines` | operator/controllers/kmmconfig/kmmconfig_controller.go:115-154 | a whole reconcile loses and repeats no line of another owner |
| `OwnerRuns.ReconcileKeepsNamesExactly` | operator/controllers/kmmconfig/kmmconfig_controller.go:115-154 | a name of another owner stays listed as often exactly when the flow is not edited, its switch can be found in the stored text, or it was not listed |
| `OwnerRuns.RequestIsWrittenExactly` | operator/controllers/kmmconfig/kmmconfig_controller.go:115-154 | what a resource asks for is written exactly when the switch can be found in the stored text |
| `OwnerRuns.TightSwitchLosesNames` | operator/controllers/kmmconfig/kmmconfig_controller.go:314-342 | with a stored switch without blanks the names of everybody are dropped and nothing is written |
| `OwnerRuns.ReconcileKeepsSwitch` | operator/controllers/kmmconfig/kmmconfig_controller.go:115-154 | whether the switch of a flow can be found never changes |
| `OwnerRuns.RunWritesLines` | operator/controllers/kmmconfig/kmmconfig_controller.go:115-154 | after any run the lines of every owner on every flow are those of its last request there, none where the switch is not found, or those of the first text |
| `OwnerRuns.RunListsNames` | operator/controllers/kmmconfig/kmmconfig_controller.go:115-154 | after any run the names of every owner on a flow are those of its last request there; where the switch is not found the first request of anybody empties the lists |
| `OwnerRuns.RunIsAsRequested` | operator/controllers/kmmconfig/kmmconfig_controller.go:115-154 | the same for custom resources of Kubernetes owners, in whatever order and number they are reconciled |
| `TransformationConfigurator.DefinitionsAreWellFormed` | operator/controllers/kmmconfig/transformation_configurator.go:88-129 | every definition built from a request has own lines only and a type line for each name |
| `DefinitionLaws.LinesExactly` | operator/controllers/kmmconfig/transformation_configurator.go:88-129 | a line is in a definition exactly if it writes, under the prefixed name, the type, the prefixed guard, the negation or a parameter of a transform, or the type or a parameter of a predicate |
| `DefinitionLaws.ListedExactly` | operator/controllers/kmmconfig/transformation_configurator.go:88-129 | a prefixed name is listed exactly if the request has a transform or predicate of that name |
| `DefinitionLaws.ReferencesAreDefined` | operator/controllers/kmmconfig/transformation_configurator.go:107-127 | a guarded transform refers to a predicate that is listed and has its type line, whenever the request has one of that name |
| `DefinitionLaws.NothingToReplace` | operator/controllers/kmmconfig/transformation_configurator.go:193-207 | a parameter without the variable stays |
| `DefinitionLaws.FirstIsReplaced` | operator/controllers/kmmconfig/transformation_configurator.go:193-207 | the first occurrence of the variable is replaced and the text behind it treated alike |
| `DefinitionReadBack.TransformReadsBack` | operator/controllers/kmmconfig/transformation_configurator.go:100-116 | for different names without dots, the lines under each key of a transform, in order: type, guard exactly if guarded, negation exactly if given, each parameter once with the replication prefix filled in |
| `DefinitionReadBack.GuardReadsBack` | operator/controllers/kmmconfig/transformation_configurator.go:117-127 | the same for predicates |
| `DefinitionReadBack.ReferenceIsTheOnlyOne` | operator/controllers/kmmconfig/transformation_configurator.go:107-111 | a guarded transform has exactly one reference, under the owner's prefix, and one without a guard has none |
| `Text.SortIsOrdered` | operator/controllers/kmmconfig/transformation_configurator.go:76-85 | sorted names are in order and the same names as before |
| `Text.AtMostIs` | operator/controllers/kmmconfig/transformation_configurator.go:76-85 | the order is the lexicographic one |
| `TransformationConfigurator.ListKeys` | operator/controllers/kmmconfig/transformation_configurator.go:196-200 | all keys of the parameters, each once |
| `TransformationConfigurator.AddParams` | operator/controllers/kmmconfig/transformation_configurator.go:193-207 | parameters are added in key order with the replication prefix filled in |
| `TransformationConfigurator.BuildTransforms` | operator/controllers/kmmconfig/transformation_configurator.go:100-116 | the properties of every transform, type first, that DefinitionLaws and DefinitionReadBack describe line by line |
| `TransformationConfigurator.BuildGuards` | operator/controllers/kmmconfig/transformation_configurator.go:117-126 | the properties of every predicate, type first |
| `TransformationConfigurator.GetTransformationDefinition` | operator/controllers/kmmconfig/transformation_configurator.go:88-129 | the definition of a request, none without transforms; its lines are those of DefinitionLaws.LinesExactly |
| `TransformationConfigurator.GetFilteredNames` | operator/controllers/kmmconfig/transformation_configurator.go:178-187 | the trimmed names of a list line that are not the owner's |
| `TransformationConfigurator.EnrichWithTransformationProperties` | operator/controllers/kmmconfig/transformation_configurator.go:61-86 | config lines and the two sorted lists are appended; nothing for an empty definition |
| `TransformationConfigurator.ScanLine` | operator/controllers/kmmconfig/transformation_configurator.go:146-170 | what one line adds to the lines before and after and to the foreign names |
| `TransformationConfigurator.ScanLines` | operator/controllers/kmmconfig/transformation_configurator.go:135-170 | the whole scan loop |
| `TransformationConfigurator.Assemble` | operator/controllers/kmmconfig/transformation_configurator.go:171-176 | lines before, block if the flow is enabled, lines after |
| `TransformationConfigurator.UpdateTransformationProperties` | operator/controllers/kmmconfig/transformation_configurator.go:131-176 | the code computes the update all laws above are about |
| `Slices.Append` | operator/controllers/kmmconfig/kmmconfig_controller.go:356-363 | append writes in place exactly if the capacity suffices and copies otherwise; either way the content is the concatenation and the rest of the array stays |
| `Slices.SpliceCopying` | operator/controllers/kmmconfig/kmmconfig_controller.go:355-361 | for every array, spare capacity and position: before, new lines, after |
| `Slices.SpliceNested` | operator/controllers/akhqconfig/akhqconfig_helper.go:258-258 | the nested append yields before, new entries, after, although it overwrites the array it reads |
| `Slices.RemoveAt` | operator/controllers/akhqconfig/akhqconfig_helper.go:236-238 | one element is cut out by shifting, the last place is blanked and the rest of the array stays |
| `AkhqMapping.UpdateKeepsOthers` | operator/controllers/akhqconfig/akhqconfig_helper.go:215-260 | entries of other owners keep content and order, so deleting after an update equals deleting alone |
| `AkhqMapping.UpdateIsExact` | operator/controllers/akhqconfig/akhqconfig_helper.go:215-260 | the owner ends with exactly one entry per requested expression, showing the requested types, and no other |
| `AkhqMapping.UpdateIsIdempotent` | operator/controllers/akhqconfig/akhqconfig_helper.go:215-260 | a second identical update changes nothing, in whatever order the maps are walked |
| `AkhqMapping.NewEntriesFollowOwn` | operator/controllers/akhqconfig/akhqconfig_helper.go:215-260 | new entries stand right behind the last entry of the owner, or at the end if there is none |
| `AkhqMapping.CreatedIsCanonical` | operator/controllers/akhqconfig/akhqconfig_helper.go:247-254 | a new entry points at the file named after its expression |
| `AkhqMapping.DescriptorsWrittenExactly` | operator/controllers/akhqconfig/akhqconfig_helper.go:217-257 | the descriptor of a request is written exactly when the owner had at most one entry for it or the descriptor is empty |
| `AkhqMapping.DuplicateBlanksDescriptor` | operator/controllers/akhqconfig/akhqconfig_helper.go:217-243 | with two entries for one expression the descriptor is blanked again |
| `AkhqRuns.UpdatedIsCanonical` | operator/controllers/akhqconfig/akhqconfig_helper.go:215-260 | an update of any owner leaves the entries of every owner pointing at the files of their expressions |
| `AkhqRuns.UpdatedHasFolder` | operator/controllers/akhqconfig/akhqconfig_helper.go:215-260 | an update leaves every owner removable |
| `AkhqRuns.RemovalUndoesUpdate` | operator/controllers/akhqconfig/akhqconfig_helper.go:215-279 | removing after an update is possible whenever it was before, and is removing alone |
| `AkhqRuns.OwnersFilesDiffer` | operator/controllers/akhqconfig/akhqconfig_helper.go:247-247 | two owners never share a descriptor file |
| `AkhqRuns.StepSettles` | operator/controllers/akhqconfig/akhqconfig_helper.go:215-279 | one update or removal by any owner leaves every owner with the entries it asked for last |
| `AkhqRuns.StepWrites` | operator/controllers/akhqconfig/akhqconfig_controller.go:176-190 | one update or removal by any owner, done or broken off, sets the file of every owner and expression as it says |
| `AkhqRuns.RunIsAsWanted` | operator/controllers/akhqconfig/akhqconfig_controller.go:161-226 | at every moment of any run of updates and removals, done or broken off between files and list, each owner has exactly one entry per expression of its last done request, and every file has the content the operations say |
| `AkhqRuns.ReachedListsAreOrderly` | operator/controllers/akhqconfig/akhqconfig_controller.go:161-226 | in every reached list an owner can be removed, has at most one entry per expression and no misplaced file |
| `AkhqRuns.FilesFitExactly` | operator/controllers/akhqconfig/akhqconfig_controller.go:161-226 | when the last step of an owner was done its files are as wanted except for exactly the ones a broken step wrote for expressions it then no longer asked for |
| `AkhqRuns.UnbrokenFilesFit` | operator/controllers/akhqconfig/akhqconfig_controller.go:161-226 | an owner whose steps were all done has all files as wanted |
| `AkhqRuns.BrokenRequestLeavesOrphan` | operator/controllers/akhqconfig/akhqconfig_controller.go:217-226 | a request that breaks off behind its file, followed by one without the expression, leaves a descriptor nobody asks for |
| `AkhqRuns.OrphansStay` | operator/controllers/akhqconfig/akhqconfig_controller.go:161-226 | such a descriptor stays through every further step, removals included, until its owner asks for the expression again |
| `AkhqRuns.ResourcesShareAnOwner` | operator/controllers/akhqconfig/akhqconfig_controller.go:176-176 | resource `n-t` in namespace `s` and resource `n` in namespace `t-s` are one owner |
| `AkhqRuns.SameOwnerExactly` | operator/controllers/akhqconfig/akhqconfig_controller.go:176-176 | two resources are one owner exactly when a dash moves part of one name into the namespace of the other |
| `AkhqReconciler.VisitInPlace` | operator/controllers/akhqconfig/akhqconfig_helper.go:220-243 | one entry: rewritten, cut out or passed over in place |
| `AkhqReconciler.ScanInPlace` | operator/controllers/akhqconfig/akhqconfig_helper.go:217-244 | deleting while iterating visits every entry once; the insert position stays in range |
| `AkhqReconciler.CreateMissing` | operator/controllers/akhqconfig/akhqconfig_helper.go:245-257 | one new entry and file per request that is still missing |
| `AkhqReconciler.FullUpdateDeserializationConfig` | operator/controllers/akhqconfig/akhqconfig_helper.go:215-260 | the in-place code computes the update all laws above are about |
| `AkhqMapping.RemovedFilesAre` | operator/controllers/akhqconfig/akhqconfig_helper.go:262-279 | exactly the descriptor files of the owner are noted, each to be blanked |
| `AkhqReconciler.DeleteDeserializationConfig` | operator/controllers/akhqconfig/akhqconfig_helper.go:262-279 | exactly the entries of other owners stay, in order |
| `Properties.GetProperties` | operator/util/util.go:126-149 | a key has the value of its last row; other keys are missing |
| `Properties.JoinedItems` | operator/util/util.go:139-149 | a written list of clean items is read back |
| `Properties.RowReadsBack` | operator/util/util.go:126-137 | a written row is read back under its key |
| `TopicMerge.MergeIsUnion` | operator/controllers/kmmconfig/kmmconfig_controller.go:300-312 | a merged list has the old and the new topics |
| `TopicMerge.MergedReadsBack` | operator/controllers/kmmconfig/kmmconfig_controller.go:266-268 | the rewritten topics row reads back as the merged list |
| `TopicMerge.NewRowsStandInFront` | operator/controllers/kmmconfig/kmmconfig_controller.go:344-366 | new rows stand right in front of the first line of the black list, or at the end if there is none |
| `TopicLaws.OtherRowsStayExactly` | operator/controllers/kmmconfig/kmmconfig_controller.go:314-342 | the rows of any other key stay exactly when none of them starts with the key of an edited row |
| `TopicLaws.BlackListIsLost` | operator/controllers/kmmconfig/kmmconfig_controller.go:334-342 | a per-flow black list row is overwritten when the topics of its flow are merged |
| `TopicLaws.TopicsMergeExactly` | operator/controllers/kmmconfig/kmmconfig_controller.go:251-342 | for any topics the set of a requested flow becomes the union exactly when they have no equals sign and the flow has no topics row, its last one is not indented, or nothing new is requested |
| `TopicLaws.MergedIsReadable` | operator/controllers/kmmconfig/kmmconfig_controller.go:251-342 | the merged text can be read again whenever the text could |
| `TopicLaws.IndentedRowIsMissed` | operator/controllers/kmmconfig/kmmconfig_controller.go:334-342 | a topics row with a blank in front keeps its topics and the requested one is missed |
| `TopicLaws.EqualsSignIsNeverListed` | operator/util/util.go:126-149 | topics with an equals sign are never all listed, in any text |
| `TopicLaws.OtherFlowsStay` | operator/controllers/kmmconfig/kmmconfig_controller.go:251-342 | the topics rows of flows that are not requested stay |
| `TopicRuns.FlowsAreGood` | operator/controllers/kmmconfig/kmmconfig_controller.go:156-214 | recognized flows connect clusters the text knows |
| `TopicRuns.DcPairsMember` | operator/controllers/kmmconfig/kmmconfig_controller.go:277-287 | the flows are exactly the pairs of different source and target |
| `TopicRuns.AcceptedExactly` | operator/controllers/kmmconfig/kmmconfig_controller.go:156-237 | a resource is accepted exactly if a target is known where none is named, every named target is among the targets of the text or, without any, its clusters, and every named source is a cluster |
| `TopicRuns.FlowsAreExactly` | operator/controllers/kmmconfig/kmmconfig_controller.go:156-287 | then its flows are exactly the pairs of a named or default source and target that differ |
| `TopicRuns.UpdateKeepsRows` | operator/controllers/kmmconfig/transformation_configurator.go:131-176 | a transformation update keeps the rows of every key it is not about |
| `TopicRuns.MergedIsClean` | operator/controllers/kmmconfig/kmmconfig_controller.go:251-365 | a merge keeps the text readable and its flow rows not indented |
| `TopicRuns.UpdateIsClean` | operator/controllers/kmmconfig/transformation_configurator.go:131-176 | so does a transformation update |
| `TopicJoin.ReconciledIsSound` | operator/controllers/kmmconfig/kmmconfig_controller.go:115-154 | a reconcile keeps the clusters and targets, and so the flows of every resource |
| `TopicJoin.RunKeepsRows` | operator/controllers/kmmconfig/kmmconfig_controller.go:115-154 | no run changes a row that belongs to no flow, such as clusters, targets, brokers and the replication policy |
| `TopicJoin.ReconcileAddsTopics` | operator/controllers/kmmconfig/kmmconfig_controller.go:115-154 | one whole reconcile adds what the resource asks for and nothing else |
| `TopicJoin.RunJoinsTopics` | operator/controllers/kmmconfig/kmmconfig_controller.go:115-154 | over any sequence of reconciles of the stored text the topics of a flow are those it had and those asked for |
| `TopicJoin.OrderAndRepetitionDoNotMatter` | operator/controllers/kmmconfig/kmmconfig_controller.go:115-154 | runs with the same resources in any order and number end with the same topic sets |
| `TopicJoin.TopicsOnlyGrow` | operator/controllers/kmmconfig/kmmconfig_controller.go:115-154 | topics are never lost and every requested one is there at the end |
| `ResourceText.DefinitionsAreWritable` | operator/controllers/kmmconfig/transformation_configurator.go:88-129 | a request without line breaks yields lines that are single rows |
| `ResourceText.RequestsAreGoodResources` | operator/controllers/kmmconfig/kmmconfig_controller.go:138-147 | resources whose texts have no line breaks meet what the run theorems ask for |
| `KmmConfigReconciler.RecognizeTargetAndSourceDc` | operator/controllers/kmmconfig/kmmconfig_controller.go:156-237 | targets and sources as named or by default, refused exactly when TopicRuns.AcceptedExactly says so; the complaint names what is missing: no target, or the first unknown target or source |
| `KmmConfigReconciler.ComplaintIsDetermined` | operator/controllers/kmmconfig/kmmconfig_controller.go:156-237 | at most one complaint is justified, and none about an accepted resource |
| `KmmConfigReconciler.OtherClusters` | operator/controllers/kmmconfig/kmmconfig_controller.go:206-212 | the clusters that are no targets, in order |
| `KmmConfigReconciler.GetDcPairs` | operator/controllers/kmmconfig/kmmconfig_controller.go:277-287 | all flows in order |
| `KmmConfigReconciler.MergeTopics` | operator/controllers/kmmconfig/kmmconfig_controller.go:300-312 | old topics first, then the new ones not among them |
| `KmmConfigReconciler.PlanFlow` | operator/controllers/kmmconfig/kmmconfig_controller.go:258-273 | what one flow needs: a switch, a new topics text, missing rows |
| `KmmConfigReconciler.GetUpdatedContent` | operator/controllers/kmmconfig/kmmconfig_controller.go:251-275 | what all flows need |
| `KmmConfigReconciler.ReplaceRows` | operator/controllers/kmmconfig/kmmconfig_controller.go:334-342 | every line that starts with the key is replaced in place |
| `KmmConfigReconciler.SetEnabledReplication` | operator/controllers/kmmconfig/kmmconfig_controller.go:324-332 | the switches, one key after the other |
| `KmmConfigReconciler.UpdateTopics` | operator/controllers/kmmconfig/kmmconfig_controller.go:334-342 | the topics rows, in any order of the map |
| `KmmConfigReconciler.SetNewProperties` | operator/controllers/kmmconfig/kmmconfig_controller.go:344-365 | new rows in front of the black list or at the end |
| `KmmConfigReconciler.PassesRewrite` | operator/controllers/kmmconfig/kmmconfig_controller.go:324-342 | both passes together rewrite each line by the one flow it starts with, whatever the order |
| `KmmConfigReconciler.SetUpdatedContent` | operator/controllers/kmmconfig/kmmconfig_controller.go:314-322 | the in-place edit computes the merge |
| `KmmConfigReconciler.TransformFlows` | operator/controllers/kmmconfig/kmmconfig_controller.go:140-147 | the transformation update of every flow |
| `KmmConfigReconciler.UpdateKmmConfigMap` | operator/controllers/kmmconfig/kmmconfig_controller.go:115-154 | the code computes the reconcile the run theorems are about, on every text it does not panic on; there is a complaint exactly if the resource is not accepted, and then the text stays and the complaint is justified |
| `KmmConfigReconciler.SoundIsHandled` | operator/controllers/kmmconfig/kmmconfig_controller.go:115-154 | the code does not panic on the texts the run theorems are about |
| `KmmConfigReconciler.RunsCanContinue` | operator/controllers/kmmconfig/kmmconfig_controller.go:134-147 | over any run the policy row and the known names stay, so a resource means the same whenever it is reconciled and runs of the code are runs of the rule |
| `MirrorOrigins.OriginOf` | operator/controllers/provider/mirror_maker_provider.go:90-200 | every printed line is a comment, a setting, or a line of the clusters, the region, the topics, a flow or the black list |
| `MirrorKeys.EntryClaims` | operator/controllers/provider/mirror_maker_provider.go:90-200 | which keys a printed line can be an entry of |
| `MirrorKeys.FlowEntry` | operator/controllers/provider/mirror_maker_provider.go:163-189 | an entry of a flow is its switch, a transformation property or a group offsets setting |
| `MirrorRoundTrip.ItemsOfTrimmed` | operator/controllers/handlers/kmm_dr_config.go:137-151 | outer blanks do not change the items of a list |
| `MirrorRoundTrip.PrintedSplits` | operator/controllers/provider/mirror_maker_provider.go:90-132 | splitting the printed text gives the printed lines |
| `MirrorRoundTrip.ClustersReadBack` | operator/controllers/provider/mirror_maker_provider.go:93-99 | the printed list of clusters is read back |
| `MirrorRoundTrip.BlockedReadBack` | operator/controllers/provider/mirror_maker_provider.go:187-198 | the printed black list is read back |
| `MirrorReadBack.ReadsBackExactly` | operator/controllers/handlers/kmm_dr_config.go:41-125 | reading the printed text succeeds exactly for two clusters with different names and brokers and a region naming one of them as printed; then target, source, brokers, switch and lists are recovered |
| `MirrorReadBack.RegionMustBeLowerCase` | operator/controllers/provider/mirror_maker_provider.go:121-125 | all else in order, the text can be read exactly when the region was written in lower case |
| `MirrorSettings.SettingsExactly` | operator/controllers/provider/mirror_maker_provider.go:98-155 | both readers find exactly the settings of a table: factors, intervals, endpoint and tasks with their defaults, the recovery settings exactly with disaster recovery, and the policy that keeps topic names exactly with disaster recovery or without the prefix |
| `MirrorSettings.NothingElseIsSet` | operator/controllers/provider/mirror_maker_provider.go:90-155 | no other setting has an entry |
| `MirrorSettings.PolicyExactly` | operator/controllers/provider/mirror_maker_provider.go:149-153 | the editor reads the identity policy exactly with disaster recovery or without the replication prefix |
| `MirrorSettings.PolicyAfterRun` | operator/controllers/provider/mirror_maker_provider.go:149-153 | the same after any run of reconciles on the printed text |
| `Numbers.DigitsReadBack` | operator/controllers/provider/mirror_maker_provider.go:100-111 | a printed number stands for itself and has no superfluous zero in front |
| `MirrorFlows.CapitalsBecomeSmall` | operator/controllers/provider/mirror_maker_provider.go:94-97 | every capital letter of a name becomes its small one |
| `MirrorFlows.OnlyCapitalsChange` | operator/controllers/provider/mirror_maker_provider.go:94-97 | every other character of a name stays |
| `MirrorFlows.SwitchExactly` | operator/controllers/provider/mirror_maker_provider.go:161-167 | exactly the flows between different clusters, towards the region if there is one, have a switch, which is on exactly with disaster recovery or when asked for |
| `MirrorFlows.SyncExactly` | operator/controllers/provider/mirror_maker_provider.go:179-184 | a flow turns its group offsets off exactly without disaster recovery |
| `MirrorFlows.TransformsExactly` | operator/controllers/provider/mirror_maker_provider.go:168-178 | the transformation lines of a flow are those of its definition, with the source filled in exactly where topics change their names, printed exactly where the flow is on and the configurator off |
| `MirrorRuns.PrintedIsSound` | operator/controllers/provider/mirror_maker_provider.go:90-132 | every printed text with at least two clusters is one the editors can work on |
| `MirrorRuns.RunKeepsSides` | operator/controllers/handlers/kmm_dr_config.go:41-125 | whatever resources are reconciled, disaster recovery reads the same target, source and brokers, or the same error |
| `MirrorOutcome.ReconcileTurnsOn` | operator/controllers/kmmconfig/kmmconfig_controller.go:324-333 | a reconcile turns the only switch of a requested flow on and leaves those of others |
| `MirrorOutcome.RunSays` | operator/controllers/kmmconfig/kmmconfig_controller.go:115-154 | over any run the switch is on where it was or was asked for, topics rows are there exactly where asked for, and no flow gets a black list |
| `MirrorOutcome.TopicsRowIsRead` | operator/controllers/handlers/kmm_dr_config.go:224-256 | disaster recovery reads a topics row as the topics the operator reads from it |
| `MirrorOutcome.RunReadsBack` | operator/controllers/handlers/kmm_dr_config.go:41-125 | after any run on the printed text it can be read exactly when it could at first, with the printed target, source, brokers and black list, the switch on where it was or a resource asked, and the topics asked for or else the printed ones |
| `MirrorMaker.GetMirrorMakerProperties` | operator/controllers/provider/mirror_maker_provider.go:90-132 | the code prints the text that the round trip, MirrorSettings and MirrorFlows describe |
| `MirrorMaker.CreateReplicationFlowConfig` | operator/controllers/provider/mirror_maker_provider.go:134-200 | the replication part, flows in order and the black list last, as described by MirrorSettings and MirrorFlows |
| `MirrorMaker.FlowPart` | operator/controllers/provider/mirror_maker_provider.go:163-186 | the lines of one flow |
| `MirrorMaker.TransformPart` | operator/controllers/kmmconfig/transformation_configurator.go:52-59 | the transformation lines of one flow, without an owner prefix |
| `KmmDrConfig.GetStringProperties` | operator/controllers/handlers/kmm_dr_config.go:41-55 | a key has the text behind the first equals sign of its last row |
| `ReaderLaws.ComplaintsExactly` | operator/controllers/handlers/kmm_dr_config.go:102-125 | for any properties, each complaint about clusters and target is made exactly when it is due |
| `ReaderLaws.ReadingExactly` | operator/controllers/handlers/kmm_dr_config.go:57-125 | for any properties with two clusters and a target: the source is the other cluster, or the second if neither is the target; the complaints about brokers are made exactly when they are due; otherwise the reading says what the properties do |
| `ReaderLaws.ListsExactly` | operator/controllers/handlers/kmm_dr_config.go:224-256 | the flow's own list comes first if both names are words, then the general one; without either there is none |
| `ReaderLaws.SwitchesExactly` | operator/controllers/handlers/kmm_dr_config.go:201-222 | the flow's own switch comes first if both names are words, then the general one; without either the flow is on, and a list is no switch |
| `ReaderLaws.WordCharsExactly` | operator/controllers/handlers/kmm_dr_config.go:25-27 | the characters of words by their codes |
| `KmmDrConfig.Config.EnrichStringProperties` | operator/controllers/handlers/kmm_dr_config.go:127-135 | exactly the given single values are taken over |
| `KmmDrConfig.Config.EnrichSliceProperties` | operator/controllers/handlers/kmm_dr_config.go:137-151 | exactly the given lists are taken over |
| `KmmDrConfig.Config.EnrichArrowStringProperties` | operator/controllers/handlers/kmm_dr_config.go:153-163 | exactly the switches of flows are taken over |
| `KmmDrConfig.Config.EnrichArrowSliceProperties` | operator/controllers/handlers/kmm_dr_config.go:165-181 | exactly the lists of flows are taken over |
| `KmmDrConfig.Config.EnrichInitial` | operator/controllers/handlers/kmm_dr_config.go:95-100 | exactly the properties looked for are taken over |
| `KmmDrConfig.Config.ResolveSource` | operator/controllers/handlers/kmm_dr_config.go:118-122 | the last cluster that is not the target |
| `KmmDrConfig.Config.ValidateClusters` | operator/controllers/handlers/kmm_dr_config.go:102-125 | each check fails with its error; otherwise target and source are known |
| `KmmDrConfig.Config.ResolveBootstrapServers` | operator/controllers/handlers/kmm_dr_config.go:183-199 | brokers of both clusters, neither missing nor empty |
| `KmmDrConfig.Config.ResolveReplicationEnable` | operator/controllers/handlers/kmm_dr_config.go:201-208 | the flow's switch, else the general one, else on |
| `KmmDrConfig.Config.ListIsRead` | operator/controllers/handlers/kmm_dr_config.go:224-256 | the flow's list, else the general one, else none |
| `KmmDrConfig.Config.EnrichProperties` | operator/controllers/handlers/kmm_dr_config.go:57-93 | the object ends with exactly what the declarative reading says, errors included |
| `ReplicationAudit.TopicIsRecoveredExactly` | operator/controllers/kafkaservice/kafka_replication_auditor.go:305-312 | the text before the last dash of a key is the topic exactly when the partition is not negative, whatever the topic |
| `ReplicationAudit.KeysAreDifferent` | operator/controllers/kafkaservice/kafka_replication_auditor.go:267-267 | keys of different partitions differ |
| `ReplicationAudit.CountsOffsets` | operator/controllers/kafkaservice/kafka_replication_auditor.go:280-291 | the count is the number of non-negative offsets from earliest up to latest |
| `ReplicationAudit.CountTopic` | operator/controllers/kafkaservice/kafka_replication_auditor.go:250-268 | every listed partition of the topic is counted under its own key; there is an error exactly if the standby side does not answer for all of them |
| `ReplicationAudit.GetMessagesCount` | operator/controllers/kafkaservice/kafka_replication_auditor.go:248-271 | without error exactly the listed partitions of the topics are counted; there is an error exactly if the standby side does not answer for some topic |
| `ReplicationAudit.FlushOut` | operator/controllers/kafkaservice/kafka_replication_auditor.go:293-303 | the partitions that have not caught up |
| `ReplicationAudit.GetTopicList` | operator/controllers/kafkaservice/kafka_replication_auditor.go:305-312 | the topics of all partitions, one entry per key |
| `ReplicationAudit.Poll` | operator/controllers/kafkaservice/kafka_replication_auditor.go:232-239 | one poll drops exactly the partitions the standby side showed to have caught up, or fails exactly if it does not answer for some pending topic |
| `ReplicationAudit.WaitUntilActiveMessagesFlushOut` | operator/controllers/kafkaservice/kafka_replication_auditor.go:229-246 | the loop ends with an error in the first round that fails, without one after the first round that leaves nothing pending, or stopped after all polls; pending is always the active snapshot restricted to partitions no poll showed caught up |
| `ReplicationAudit.EndIsDetermined` | operator/controllers/kafkaservice/kafka_replication_auditor.go:229-246 | there is one way to end: outcome and number of rounds follow from the counts and the answers |
| `ReplicationAudit.PendingExactly` | operator/controllers/kafkaservice/kafka_replication_auditor.go:229-312 | a partition is pending exactly when it was never observed with at least the active count; so nil means each one was observed |
| `ReplicationAudit.CheckFullReplication` | operator/controllers/kafkaservice/kafka_replication_auditor.go:105-110 | from the two initial counts: done at once if nothing is behind, and else it ends as the polls of what is behind do |
| `ReplicationAudit.SuccessIsFullReplication` | operator/controllers/kafkaservice/kafka_replication_auditor.go:67-110 | a check that ends without error and in time has seen every partition with at least the active count, at the start or in a poll |
| `RestartSupervisor.ShutdownNeedsFailures` | operator/workers/pool.go:87-140 | a shutdown means at least limit - 1 failing executions within the reset window before it |
| `RestartSupervisor.FailuresAreCounted` | operator/workers/pool.go:107-140 | failures since a time are counted one by one |
| `RestartSupervisor.CleanJobsShutDownExactly` | operator/workers/pool.go:107-140 | a job that never fails reaches the limit exactly when the limit is at most zero, or one and the job outlasts the window |
| `RestartSupervisor.CountsBehindLastStart` | operator/workers/pool.go:107-140 | the count is the number of failures behind the last start of counting, which the times alone decide, and one more unless that is the launch |
| `RestartSupervisor.NoticedExactly` | operator/workers/pool.go:107-140 | a limit is reached exactly when enough failures lie behind the last start of counting |
| `RestartSupervisor.ShutsDownExactly` | operator/workers/pool.go:107-140 | a run shuts down exactly when after some execution enough failures lie behind the last start of counting |
| `RestartSupervisor.BurstNoticedExactly` | operator/workers/pool.go:107-140 | as many failures in a row as the limit after a failure-free past are noticed exactly when counting did not start anew behind the first of them |
| `RestartSupervisor.BurstAcrossARestart` | operator/workers/pool.go:128-131 | five failures within the window that straddle a new start of counting go unnoticed |
| `RestartSupervisor.ShiftIsExact` | operator/workers/pool.go:158-158 | the shift loses no bit exactly up to thirty-three places |
| `RestartSupervisor.DelayInRange` | operator/workers/pool.go:154-161 | the capped delay is between one and thirty seconds |
| `RestartSupervisor.DelayDoubles` | operator/workers/pool.go:154-161 | the delay is one second at first, doubles with every further failure and stops at thirty seconds |
| `RestartSupervisor.BackoffWithJitter` | operator/workers/pool.go:154-167 | the random part is added or taken away; the result is less than a third away from the capped delay |
| `RestartSupervisor.DelaysAreBounded` | operator/workers/pool.go:142-167 | every delay of a run is between two thirds of a second and forty seconds, and between two and four thirds of the delay of the failures counted then |
| `RestartSupervisor.LaunchJob` | operator/workers/pool.go:80-151 | shutdown exactly when the count first reaches the limit; one delay per restart, each that of the count then, with a positive random bound |

## Left out

- `float64`: every arithmetic result goes through a rounding function of which only order, signs, integers and idempotence are known; counts and the number of brokers convert exactly. Not-a-number for zero brokers does not arise, as nothing is computed then.
- `sort.Slice` and map iteration: the sort is an insertion sort whose contract says only sorted and reordered; maps are walked in any order.
- Rebalancer.Rebalancer.CopyCurrentReplicaAssignment: needs as many replicas per partition as the replication factor, because the code indexes past the end otherwise.
- The retry loop around the describe call, the health check of skews, the reassignment call itself and waiting for it.
- Migration: KRaft is enabled, the specification and the number of brokers are fixed, the stored status is readable (the code dereferences a missing one), and nobody else deletes the objects; waits are calls that may fail, and the controller may stop being ready between reconciles. What a deployment contains besides its phase is left out.
- AkhqReconciler.DeleteDeserializationConfig: needs a folder in the descriptor paths of the owner's entries, because the code indexes past the end otherwise.
- AkhqRuns.RunIsAsWanted: owners are their joined names, see AkhqRuns.SameOwnerExactly; compression of the descriptors is not modelled.
- RackPreference.BySlotProtectsExactly: lists are sorted lists of distinct under-loaded brokers on their racks; which of them the counts of a given cluster produce is not modelled.
- AkhqMapping.DescriptorsWrittenExactly: for lists whose entries point at the file named after their expression, as in every reached list.
- SHA-256 of topic expressions is an injective function to texts without slashes and dashes.
- Properties.GetProperties: needs an equals sign in every row, because the code indexes past the end otherwise.
- KmmConfigReconciler.GetUpdatedContent: needs single values in the switches of flows, because the code panics on other types.
- KmmConfigReconciler.UpdateKmmConfigMap: needs a list of clusters and single switches, because the code panics otherwise; topics are one line, and no flow's key starts the key of another, where the result would depend on the order the map is walked in. The wording of complaints is left out.
- TopicLaws.TopicsMergeExactly: clusters are named without dots and blanks, as are those of the runs in TopicJoin and OwnerLaws.
- OwnerLaws.OwnersCommute: names of owners have no underscores and commas, as in Kubernetes, and names of transforms no commas; OwnerLaws.CommaRequestIsNotIdempotent shows why.
- MirrorMaker: the lines of one flow are built and then appended; the code appends them one by one. Names of clusters and region are words of ASCII characters.
- Regular expressions: matching of topics is not modelled; the three key patterns of the reader are written out.
- ReplicationAudit.GetMessagesCount: the answers of the standby side are stable during one poll.
- The handshake of wait group and channels of the audit; safety is claimed, not progress. Counting errors of the initial snapshots are part of the given snapshots.
- RestartSupervisor.LaunchJob: a limit of at most thirty-five, where the code has five; the clock does not run backwards in ShutdownNeedsFailures; at each moment the context is cancelled or not, as the events say.
- Disaster recovery switchover, access control lists, resource builders, condition lists, version comparison, metrics, and the Python and robot parts.
