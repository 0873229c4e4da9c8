# A verified model of the CDI driver's two-level device allocator

The driver hands out devices of cluster nodes as CSI volumes. A master controller chooses a device for
each volume and keeps the accounting; each node's device manager keeps tables of its own; a registry of
nodes drives the master's device tables. This project models the three together and proves what they
keep, for every run.

There are two views of the same state changes.

* **Objects.** `DeviceInfos`, `NodeAllocator`, `NodeController`, `MasterAllocator`, `Registry` and
  `Pagination` follow the source: classes with the source's maps over shared, mutable `DeviceInfo`
  objects, and the source's loops. Each method is proved equal to a function of the old tables, and
  the loops over Go maps work for every iteration order.
* **Runs.** `System` is a state machine in which any number of calls are in flight. One step is one critical
  section, one lock acquisition, one remote call or one unlocked access. It changes the shared
  data by the very functions the objects are proved against (`Tables`: `AddNode`, `RemoveNode`, `SetVolume`,
  `DropVolume`, `Allocate`, `DeAllocate`, `FindOutcome`, `RouteOutcome`), and keeps the key locks, the master
  mutex and the registry mutex. `DeleteVolume` reads its device in a step before it takes the mutex, and
  `OnNodeDeleted` takes none. A remote call may fail before its effect, or have its effect and lose its
  reply. Nodes start, restart, register and unregister at any time. A thread's position names the
  source's next action: `CrCommit` is the recording at the end of CreateVolume, and so on.

`Safety`, `Locks`, `Progress`, `Liveness`, `RegistryAgreement`, `Registrations`, `Ownership`, `Replicas`, `NodeIndex`,
`RoundTrip`, `MasterIndex` and `EndToEnd` prove what holds over runs. `Reliability` states the promises that the last
needs, and `Freshness`, `Separation` and `SingleDelete` derive what it asks of deletions from rules about them and about
callers. `Boundaries` and `Orphans` say what happens otherwise, and `Witnesses` gives runs that get there, built from
whole calls (`Reach`, `Scripts`, `Stages`) on a view of the state that keeps names only (`Views`).
`Devices` and `Tables` hold the data, the specification functions and what these mean, `Topologies` which node a request
gets, `Decimal` the numerals and device ids.
Pointers are values of a type `R`: objects in the classes, numbers in the state machine. The master's `store`
keeps every device ever created, so objects that only an old volume still points to stay in view.

The theorems over runs, and what each assumes:

| theorem | assumes of the run |
|---|---|
| no overcommitment on the master, exact arithmetic, indexing (`Safety`, `NodeIndex`) | nothing |
| lock order, no deadlock, every call ends (`Locks`, `Progress`, `Liveness`) | remote calls return |
| registry and listeners agree, registrations tell whom they should (`RegistryAgreement`, `Registrations`) | nothing; listeners are fixed before serving |
| tables agree, deletions reach the right node (`Ownership`) | reports as a device manager makes them |
| master and nodes agree (`Replicas`) | also: nodes keep their state; no reply is lost to a create of a name the master holds on that node |
| deletions find their node (`EndToEnd.DeletesFindTheNode`) | reports name their node, a node is added once and not removed |
| no overcommitment on the nodes (`EndToEnd.NodeNeverOvercommitted`) | steady nodes; deletions free what they read |
| both sides agree (`EndToEnd.SidesAgree`) | also: they free nothing else |
| volumes only where they are indexed (`MasterIndex.ExactRuns`) | no step records or drops a name that the master has elsewhere, and no less would do |

The last assumptions, in the order of `Reliability`:

* *Steady*: reports are those of the node's manager, a node is added to the master once, not removed and not restarted
  (it may register under the same endpoint any number of times: `Registrations.KnownIsQuiet`), and no reply to an
  accepted create is lost.
* *Frees*: no deletion ends while the device it read before it took the mutex still has the volume on its node, unless
  the node frees it from there. *FreesOnly*: a deletion frees nothing from any other device. The first is enough for no
  overcommitment; both sides agree only with the second as well, since a deletion that frees another volume of the same
  name leaves the master counting too much.

`Freshness` gets these from a rule about what deletions find. Nodes are *dependable* if they are steady and a deletion
of a live volume, once begun, is carried out on its node. Then *fresh drops*, in which a deletion that takes a name off
the device it read is of a live volume, give the first, and *fresh frees*, in which a node frees something only for such
a deletion, the second. A caller has both by either of two rules.

* Never have a create and a delete of one name in flight together (`Separation`), as with one call in flight per
  volume, which the section "Concurrency" of the Container Storage Interface specification, v1.2.0, asks of a container
  orchestrator. A live name may be created again.
* Never create a live name again, and have at most one delete of a name in flight (`SingleDelete`).

Without a rule on deletions neither result holds, however well everybody else behaves. Two deletes of one name in flight
and a create between them make the sides disagree, though the master still counts enough: `Witnesses.StaleDeleteRun`.
Three deletes over two nodes overcommit one: `Witnesses.TwoStaleDeletesRun`. `Boundaries.StaleDeleteExactly` and
`Boundaries.ReachedCoversExactly` have the exact conditions, deletion by deletion.

`Boundaries` says exactly what happens when a promise is broken once: a stale deletion, a deletion that does not reach
its node, a lost reply (which always upsets the accounts), a restart, a second addition of a node. `Witnesses` has a run
for each, from the empty system, that keeps every other promise of `Reliability.Promise` in every step.

Where the code differs from its own documentation, the model follows the code:

* `CreateVolume` must be idempotent (`pkg/cdi-driver/controllerserver-default.go:45-47`, and the CSI specification). It
  is not: `Boundaries.RepeatedCreate`, `Boundaries.CreatesOneExactly`, `Witnesses.RepeatedCreateRun`.
* `ListVolumes` says it lists available devices (`pkg/cdi-driver/controllerserver-master.go:362-363`). It lists the
  devices of live volumes, a device with two volumes twice. It panics on some inputs: `Pagination.PanicExactly`.
* With no topology in the request, a search that fails answers NotFound even when a device is only exhausted
  (`Tables.FindOutcome`, from `pkg/cdi-driver/controllerserver-master.go:174-193`).
* `DeleteVolume` is there to deprovision a volume (`pkg/cdi-driver/controllerserver-default.go:52-58`). After
  a lost reply the node holds a volume the master does not know, and deleting it is answered OK without asking any
  node (`Orphans.LostCreateStays`, `Orphans.QuietDeleteExactly`). The node keeps it until it restarts, frees the name
  for a deletion sent there for another reason, or accepts the name again (`Orphans.BindingEndsExactly`).
* A device is described as allocated to one volume (`pkg/device-manager/dmanager.go:277-279`); the check is only for the
  same name, so a GPU is shared by amount and an FPGA without limit (`Devices.FpgaVerdict`).

`dafny verify dfyconfig.toml` checks the project.

## Model

| member | source | states |
|---|---|---|
| `Safety.NeverOvercommitted` | pkg/cdi-driver/controllerserver-master.go:235-276 | In every state of every run (concurrent calls, restarts, re-registrations, repeated names, lost replies, stale deletions), for every GPU object the master ever created, reachable or not, memory and millicores in use are at most the device's amounts, negative or unreadable amounts counting as none. |
| `Safety.NeverOverflows` | pkg/device-manager/dmanager.go:48-84 | In every state of every run, for any iteration order, no volume met is nil, every partial sum stays in the int64 range, and the wrapped subtraction equals the mathematical one. |
| `Safety.AlwaysIndexed` | pkg/cdi-driver/controllerserver-master.go:271-300 | In every state of every run, despite the unlocked read in DeleteVolume, a volume the master knows by name is among the volumes of the device it is indexed under, and carries that device's id in its context. |
| `EndToEnd.NodeNeverOvercommitted` | pkg/device-manager/gpumanager.go:52-66 | End to end, in runs with steady nodes in which no deletion ends while the device it read still has the volume on the node: the volumes bound to a device in its node's own table are exactly those granted on it, and on a GPU the amounts they were approved with sum to at most its memory and its millicores. Deletions may free volumes of other devices, and the master may count too much. |
| `EndToEnd.SidesAgree` | pkg/cdi-driver/controllerserver-master.go:213-323 | If besides no deletion frees a volume of another device: whenever no call is between the master and a node, the master's device holds exactly the volumes granted on it, and the node's device the same names. |
| `EndToEnd.DeletesFindTheNode` | pkg/cdi-driver/controllerserver-master.go:302-305 | As long as nodes report ids of their own, are added once and are not removed, a deletion is never turned away for want of a node: it goes to the node in the device's id, whatever else happens. |
| `Freshness.FreshIsOrderlyRun` | pkg/cdi-driver/controllerserver-master.go:294-317 | With dependable nodes, if every deletion that takes a name off the device it read is of a live volume, no deletion ends while that device still has the volume on the node; if nodes besides free something only for such deletions, none frees a volume of another device. |
| `Freshness.FreshNeverOvercommits` | pkg/device-manager/gpumanager.go:52-66 | So with dependable nodes and fresh drops alone no GPU of a node is ever overcommitted. |
| `Replicas.ReplicasAgree` | pkg/cdi-driver/controllerserver-master.go:213-323 | Replica agreement, remote calls failing or losing replies: outside the moment between acceptance and record, every volume the master holds is bound, on the node its device belongs to, to the device with the same id, and is among its volumes. |
| `Replicas.DeletesAccepted` | pkg/cdi-driver/controllerserver-node.go:74-95 | A node never refuses a deletion forwarded for a volume that the master held, on that device, when it took the lock. |
| `Replicas.StagesToItsDevice` | pkg/cdi-driver/nodeserver.go:72-108 | The id in a live volume's context, looked up on the node that holds it, gives the device the node bound the volume to. |
| `Replicas.LostReplyExactly` | pkg/cdi-driver/controllerserver-master.go:266-269 | From agreement on the volumes held, an accepted create whose reply is lost leaves master and nodes agreeing if and only if the master holds no volume of that name on that node. |
| `Separation.SeparateIsFreshRun` | pkg/cdi-driver/controllerserver-master.go:294-300 | If no create and delete of one name are in flight together, every deletion is fresh, in what it drops and in what it frees: creates of a name may race one another, and deletes may. |
| `Separation.OneCallIsFreshRun` | pkg/cdi-driver/controllerserver-master.go:294-300 | In particular with at most one call in flight per volume name. |
| `Separation.SeparateIsExact` | pkg/cdi-driver/controllerserver-master.go:271-300 | If besides no live name is created again, every volume of the master is on exactly the device it is indexed under. |
| `SingleDelete.SingleIsFreshRun` | pkg/cdi-driver/controllerserver-master.go:294-300 | Every deletion is fresh, too, if no live name is created again and at most one delete of a name is in flight; creates may race that delete. |
| `SingleDelete.SingleIsExact` | pkg/cdi-driver/controllerserver-master.go:271-300 | Then, too, every volume of the master is on exactly the device it is indexed under. |
| `MasterIndex.RecordExactly` | pkg/cdi-driver/controllerserver-master.go:271-272 | From there, recording a volume keeps every volume on exactly the device it is indexed under if and only if the master did not hold the name on another device. |
| `MasterIndex.DropExactly` | pkg/cdi-driver/controllerserver-master.go:299-300 | Dropping one does if and only if the master did not hold the name on another device: a stale deletion leaves it there without an index entry. |
| `MasterIndex.ExactRuns` | pkg/cdi-driver/controllerserver-master.go:213-323 | In every run, every volume of the master is on exactly the device it is indexed under in all states if and only if no step records or drops a name that the master has on another device. |
| `MasterIndex.RecordsInOrder` | pkg/cdi-driver/controllerserver-master.go:271-272 | If no live name is created again, no record is such a step: only a deletion can upset the index. |
| `Orphans.LostCreateStays` | pkg/cdi-driver/controllerserver-master.go:266-269 | A create accepted with its reply lost, of an unknown name, followed by a delete of that name: the delete is answered OK and the node still holds the volume. |
| `Orphans.QuietDeleteExactly` | pkg/cdi-driver/controllerserver-master.go:294-320 | In every run, a finished DeleteVolume has touched no table and called no node if and only if the master did not hold the name when it read it; then it was answered OK. |
| `Orphans.BindingEndsExactly` | pkg/device-manager/dmanager.go:269-298 | A node keeps a volume bound to its device over a step of the system if and only if the step does not free the name there, bind it anew there, or restart the node. |
| `Witnesses.StaleDeleteRun` | pkg/cdi-driver/controllerserver-master.go:294-300 | A run that keeps every promise, in which every call is answered OK, and a device is lost to the master, which still counts all that is granted: a deletion read its device too early. |
| `Witnesses.TwoStaleDeletesRun` | pkg/cdi-driver/controllerserver-master.go:294-317 | A run over two nodes that keeps every promise and ends with an overcommitted device on a node: one such deletion makes the master forget where a name is live, another takes it off a device where its node still has it. |
| `Witnesses.ReaddRun` | pkg/cdi-driver/controllerserver-master.go:91-107 | A run that keeps every promise but that nodes are added once, in which every call is answered OK: a node registered under a second endpoint, and its device is overcommitted. |
| `Witnesses.LostReplyRun` | pkg/cdi-driver/controllerserver-master.go:266-269 | A run that keeps every promise but that replies arrive: after one lost reply the delete that follows is answered OK, the node keeps a volume of which the master has no trace, and the next create overcommits its device. |
| `Witnesses.UnreachedDeleteRun` | pkg/cdi-driver/controllerserver-master.go:299-312 | A run that keeps every promise but those about deletions getting through: after one that is answered Unavailable the node keeps a volume of which the master has no trace, and the next create overcommits its device. |
| `Witnesses.RestartRun` | pkg/device-manager/dmanager.go:210-225 | A run that keeps every promise but that nodes start once, in which the master holds a volume that its restarted node does not know. |
| `Witnesses.RepeatedCreateRun` | pkg/cdi-driver/controllerserver-master.go:213-276 | A run that keeps every promise but that live names are not created again: the same name is created twice with success, on two devices. |
| `Locks.Exclusive` | pkg/registryserver/registryserver.go:108-126 | No two threads ever hold the same lock. |
| `Locks.Nesting` | pkg/registryserver/registryserver.go:69-91 | Locks are only taken in the order key lock, master mutex, registry mutex: nobody waits for a lock it holds, or for a key lock while holding one. |
| `Locks.StepsTakeNoLock` | pkg/cdi-driver/controllerserver-master.go:235-236 | A step that does not wait for a lock acquires none: every acquisition is one of the waits above. |
| `Locks.FinishedHoldsNothing` | pkg/registryserver/registryserver.go:108-109 | A finished call holds no lock. |
| `Locks.SomeoneFree` | pkg/registryserver/registryserver.go:108-166 | If any call is unfinished, some unfinished call does not wait for a taken lock. |
| `Progress.NoDeadlock` | pkg/registryserver/registryserver.go:99-166 | In every reachable state with an unfinished call, some unfinished call can take a step. |
| `Liveness.StepsDescend` | pkg/cdi-driver/controllerserver-master.go:464-470 | Without new calls every step of the system decreases one well-founded measure: no schedule runs for ever. |
| `Liveness.CallsEnd` | pkg/registryserver/registryserver.go:99-179 | Every run can be continued, without new calls, by any possible steps until all calls are done. |
| `RegistryAgreement.ListenersAgree` | pkg/registryserver/registryserver.go:99-166 | For any hash of node ids to locks: whenever a node's key lock is free and it is registered, every listener's last callback about it is an accepted OnNodeAdded with exactly the registered endpoint; in particular devicesByNodes has it. |
| `RegistryAgreement.LookupNeverFails` | pkg/cdi-driver/controllerserver-master.go:68-71 | Inside a registration, OnNodeAdded's lookup always finds the node, under the endpoint being registered. |
| `Ownership.TablesAgree` | pkg/cdi-driver/controllerserver-master.go:82-121 | In every run with well-formed reports, a device listed under a node is the very object devicesByIDs holds for its id, and its id names that node. |
| `Ownership.TablesCoincide` | pkg/cdi-driver/controllerserver-master.go:82-109 | While no OnNodeDeleted reaches the master, devicesByIDs holds exactly the devices of the node lists: one missing from a later report disappears. |
| `Ownership.RouteUnique` | pkg/cdi-driver/controllerserver-master.go:123-133 | Given tables that agree, findDeviceNode answers a node that lists the id, and no other, in any iteration order. |
| `Ownership.DeletesReachTheNode` | pkg/cdi-driver/controllerserver-master.go:294-314 | Wherever the deletion of a live volume is sent, it is the node in the volume's own topology, where it was created; and it is sent there while that node lists the device's id, even if the device object was replaced since. |
| `Ownership.PlacedAlways` | pkg/cdi-driver/controllerserver-master.go:243-248 | In every run with well-formed reports, the topology of every volume on a device names the node of that device. |
| `NodeIndex.NodeAlwaysIndexed` | pkg/device-manager/dmanager.go:269-298 | In every run, a volume a node knows by name is among the volumes of the device it is bound to, which is under its own id there. |
| `NodeIndex.AllocateExactly` | pkg/device-manager/dmanager.go:269-283 | Accepting a volume keeps every volume of the node on the device it is indexed under if and only if the name was not held. |
| `NodeIndex.OneDeviceEach` | pkg/device-manager/dmanager.go:269-298 | In runs where no node accepts a name it holds, a volume is on a device of the node if and only if it is indexed there: on one device only. |
| `RoundTrip.CreateThenDelete` | pkg/cdi-driver/controllerserver-master.go:213-323 | For a name unknown to the whole system, a successful create and delete finds the device again, goes to the same node only, is not refused, and restores every table and every device of the master and of all nodes. |
| `RoundTrip.OnlySuccessWrites` | pkg/cdi-driver/controllerserver-master.go:213-276 | Under any interleaving, a CreateVolume changes the master's tables only in the step in which it succeeds, and then records exactly its volume; one that returns an error leaves them alone. |
| `RoundTrip.MasterRoundTrip` | pkg/cdi-driver/controllerserver-master.go:271-300 | The master's two writes and two deletions cancel out. |
| `RoundTrip.NodeRoundTrip` | pkg/device-manager/dmanager.go:269-298 | A node accepts an unknown name if and only if it has the device, and freeing the name restores its tables. |
| `Boundaries.UnreachedDeleteExactly` | pkg/cdi-driver/controllerserver-master.go:299-312 | A deletion that takes no effect on a node (refused, failed, or without a node) leaves the accounts right if and only if the name was not on the device it read. |
| `Boundaries.UnreachedCoversExactly` | pkg/cdi-driver/controllerserver-master.go:299-312 | It leaves the master counting at least what is granted if and only if nothing of that name was granted on the device it read. |
| `Boundaries.ReachedCoversExactly` | pkg/cdi-driver/controllerserver-master.go:294-317 | A deletion that takes effect on a node leaves the master counting at least what is granted if and only if nothing of that name was granted on the device it read, or it is from there that the node frees it. |
| `Boundaries.StaleDeleteExactly` | pkg/cdi-driver/controllerserver-master.go:294-314 | A deletion that takes effect on a node leaves the accounts right if and only if the device read before the lock is the one the node has the name bound to. |
| `Boundaries.LostReplyUndercounts` | pkg/cdi-driver/controllerserver-master.go:266-272 | A create accepted with its reply lost always leaves the master counting too little on the device, by exactly what the volume takes. |
| `Boundaries.RestartExactly` | pkg/device-manager/dmanager.go:210-225 | A node that restarts with the same devices agrees with the master if and only if none of them held a volume. |
| `Boundaries.ReaddOvercommitsExactly` | pkg/cdi-driver/controllerserver-master.go:91-107 | After a node is added again, a create that is accepted and recorded leaves the node overcommitted if and only if what was granted before and what the new volume takes exceed the device's memory or millicores. |
| `Boundaries.CreateFitsExactly` | pkg/device-manager/dmanager.go:277-282 | A create leaves the node overcommitted if and only if granted and new amounts exceed the device, whatever the master counts: the node checks no amounts. |
| `Boundaries.OrderlyIsSound` | pkg/cdi-driver/controllerserver-master.go:213-323 | The states the lemmas of Boundaries about right accounts start from are those of every run of EndToEnd.SidesAgree in which no call is between the master and a node. |
| `Boundaries.OrderlyCovers` | pkg/cdi-driver/controllerserver-master.go:213-323 | Those about counting enough start from the states of every run of EndToEnd.NodeNeverOvercommitted in which no call is between the two. |
| `Boundaries.ReaddForgets` | pkg/cdi-driver/controllerserver-master.go:98-105 | A device just added, for the first time or again, matches every request of its kind within its total amounts, whatever is granted on it. |
| `Boundaries.RepeatedCreate` | pkg/cdi-driver/controllerserver-master.go:213-276 | CreateVolume of a live name, for every answer of the search: either the node refuses, or a success returns another ID and leaves the name on two devices. It never returns the existing volume. |
| `Boundaries.CreatesOneExactly` | pkg/cdi-driver/controllerserver-master.go:271-272 | From a state in which every volume is on exactly the device it is indexed under, an accepted create leaves its name on one device only if and only if the name was not live, which the caller can tell beforehand. |
| `Boundaries.RefusedExactly` | pkg/device-manager/dmanager.go:277-279 | With the accounts settled, the node refuses a create if and only if the device the master chose already has that name. |
| `Tables.FindSoundComplete` | pkg/cdi-driver/controllerserver-master.go:136-208 | findDevice succeeds if and only if some listed device matches; what it returns matches and is listed under the node returned; otherwise the code is ResourceExhausted exactly when a requested node has an exhausted device, else NotFound. |
| `Tables.FindAgreement` | pkg/cdi-driver/controllerserver-master.go:136-208 | The iteration order decides only between nodes nobody asked for: any two answers agree on success, on the code, on the device once the node is the same, and entirely when a requested node matches. |
| `Topologies.FirstNamedWins` | pkg/cdi-driver/controllerserver-master.go:138-188 | The device is on the first node with a match that the topologies name under the driver's key, in order: those of Preferred, or those of Requisite only if Preferred is nil; one without the key names the node with the empty id. On that node it is the last matching device of the list. |
| `Topologies.AnyNodeMayWin` | pkg/cdi-driver/controllerserver-master.go:147-166 | With no topologies any node with a match may be the answer, by its first matching device and no other. |
| `Topologies.OthersMayWin` | pkg/cdi-driver/controllerserver-master.go:195-204 | If no named node has a match, any other node with one may be the answer, by its last matching device and no other. |
| `Topologies.ExhaustedNamed` | pkg/cdi-driver/controllerserver-master.go:174-193 | A search that finds nothing answers ResourceExhausted if and only if a named node has an exhausted device. |
| `System.SearchAllowed` | pkg/cdi-driver/controllerserver-master.go:136-208 | Every answer the search may give, for any topology and order, is a step of the concurrent model. |
| `MasterAllocator.ChoiceOutcome` | pkg/cdi-driver/controllerserver-master.go:174-207 | The two maps the loops collect, followed by the choice in request order, give exactly the search's specified outcome. |
| `Devices.UsedPick` | pkg/device-manager/dmanager.go:48-61 | The total in use does not depend on the order in which volumes are added up. |
| `Devices.UsedExactly` | pkg/device-manager/dmanager.go:48-61 | A volume adds exactly the positive quantity that its context has under the parameter's name, an absent, unreadable or non-positive one adds nothing, and no volumes use nothing. |
| `Devices.UsedMonotone` | pkg/device-manager/dmanager.go:48-61 | Fewer volumes never take more. |
| `Devices.NoSumOverflow` | pkg/device-manager/dmanager.go:48-61 | While a device is within its limits no partial sum, in any order, exceeds the total or leaves int64. |
| `Devices.NoDifferenceOverflow` | pkg/device-manager/dmanager.go:78 | Nor does what is left over: the machine's subtraction is exact, also for negative amounts. |
| `Devices.FitsVerdict` | pkg/device-manager/dmanager.go:62-93 | A parameter gets OK if and only if the amount fits in what is left, ResourceExhausted if and only if it fits in the total but not in what is left. |
| `Devices.GpuVerdict` | pkg/device-manager/gpumanager.go:52-66 | A GPU matches if and only if type and vendor agree and both amounts fit now; it is exhausted if and only if they agree and some amount would fit once volumes are freed. |
| `Devices.GpuAccepts` | pkg/device-manager/gpumanager.go:52-66 | The same with every name spelled out: type and vendor equal, and of memory and of millicores the request wants no more than the device has, less what its volumes take. |
| `Devices.RefusalCodes` | pkg/device-manager/dmanager.go:117-160 | What the codes of a refusal mean: deviceType is compared before vendor, a difference is OutOfRange and an absence InvalidArgument, and a GPU of the right kind is otherwise NotFound unless it is exhausted. |
| `Devices.OtherVerdict` | pkg/device-manager/dmanager.go:227-236 | A request for any type but gpu and fpga matches nothing, and exhausts nothing. |
| `Devices.FpgaVerdict` | pkg/device-manager/fpgamanager.go:81-86 | An FPGA matches if and only if deviceType, vendor, afuID and interfaceID are each in both maps and equal, whatever volumes it holds: there is no exclusivity, and it is never ResourceExhausted. |
| `Devices.ApprovalKeepsLimits` | pkg/cdi-driver/controllerserver-master.go:271-272 | Recording an approved request, even under a name the device has, keeps the device within its limits. |
| `Devices.ApprovalTakesExactly` | pkg/cdi-driver/controllerserver-master.go:271-272 | An approved request under a new name takes exactly what it asks for of memory and of millicores. |
| `Devices.RestRefused` | pkg/device-manager/dmanager.go:78-81 | So after it no request for more than the rest, of either, is accepted. |
| `Tables.CreateTakes` | pkg/cdi-driver/controllerserver-master.go:235-272 | What a CreateVolume records takes from the device the amounts in the request's parameters, whatever the device held; a volume of the same name is replaced. |
| `Devices.ReleaseKeepsLimits` | pkg/cdi-driver/controllerserver-master.go:299-300 | Dropping a volume keeps the device within its limits. |
| `Devices.FreeingKeepsMatch` | pkg/device-manager/dmanager.go:62-93 | Removing any set of volumes never turns an accepted request into a refused one. |
| `Devices.EmptyDeviceMatches` | pkg/device-manager/dmanager.go:78-80 | An empty GPU accepts every request of its kind within its total amounts. |
| `Machine.WrapSum64` | pkg/device-manager/dmanager.go:55 | Wrapping to int64 after every addition equals wrapping once at the end. |
| `DeviceInfos.TotalUsedParam` | pkg/device-manager/dmanager.go:48-61 | The summing loop, with wrap-around at each addition, returns the wrapped exact total for any iteration order. |
| `DeviceInfos.DeviceInfo.CheckParamFits` | pkg/device-manager/dmanager.go:62-93 | The object's verdict on one amount is the specified one for its current contents. |
| `DeviceInfos.DeviceInfo.CheckParams` | pkg/device-manager/dmanager.go:137-147 | The loop returns the first verdict that is not OK, in the order of the names. |
| `DeviceInfos.DeviceInfo.CheckTyped` | pkg/device-manager/dmanager.go:227-236 | Dispatch on the request's own deviceType; unknown types are InvalidArgument. |
| `DeviceInfos.DeviceInfo.Match` | pkg/device-manager/dmanager.go:150-160 | The object's Match is the specified verdict for its current contents. |
| `Decimal.DeviceIdInjective` | pkg/device-manager/dmanager.go:314 | Device ids are unique over (node, index), whatever underscores and digits node ids contain. |
| `Decimal.NodeOfDeviceId` | pkg/device-manager/dmanager.go:314 | A device id determines its node. |
| `Decimal.ParsePrint` | pkg/cdi-driver/controllerserver-master.go:435-437 | A printed number is read back as itself up to 32 bits. |
| `Decimal.PlaceValue` | pkg/cdi-driver/controllerserver-master.go:391-435 | The value of a numeral is that of its digits by place, in base ten. |
| `NodeAllocator.DiscoverDevices` | pkg/device-manager/dmanager.go:300-319 | For any order of type managers, fails if and only if one of them fails; otherwise the keys are exactly node_0 to node_(n-1), every reported device is under exactly one of them and carries it, and none is lost. |
| `NodeAllocator.AddAll` | pkg/device-manager/dmanager.go:313-315 | One manager's devices continue the numbering, in the order reported. |
| `NodeAllocator.DeviceManagers.NewDeviceManager` | pkg/device-manager/dmanager.go:202-225 | The first successful call discovers: every device found, under an id of its own naming the node, with no volume, the state in which nodes start in the concurrent model; later calls return the same manager and touch nothing; a failed one leaves it to be tried again. |
| `NodeAllocator.DeviceManager.Allocate` | pkg/device-manager/dmanager.go:269-283 | Refuses exactly an unknown device or a name already on it, changing nothing; otherwise the name is put on the device and indexed, and nothing else changes. |
| `NodeAllocator.DeviceManager.DeAllocate` | pkg/device-manager/dmanager.go:286-298 | Refuses exactly an unknown name, changing nothing; otherwise takes it off its device and out of the index, and nothing else changes. |
| `NodeController.NodeControllerServer.CreateVolume` | pkg/cdi-driver/controllerserver-node.go:46-72 | Succeeds if and only if there is a name, an ID parameter, and the manager accepts; every error leaves the tables as they were. |
| `NodeController.NodeControllerServer.DeleteVolume` | pkg/cdi-driver/controllerserver-node.go:74-95 | Succeeds if and only if there is a name and the manager knows it; every error leaves the tables as they were. |
| `NodeController.NodeControllerServer.ListVolumes` | pkg/cdi-driver/controllerserver-node.go:122-144 | One entry for each device, none twice, in any map order. |
| `NodeAllocator.ReportsEach` | pkg/cdi-driver/controllerserver-node.go:122-144 | There are as many entries as devices, and for each device one with its id, its size and its parameters. |
| `Reliability.NodeReports` | pkg/cdi-driver/controllerserver-node.go:122-144 | A node's answer, in any order, is well formed and complete: what the runs above ask of reports. |
| `MasterAllocator.MasterController.constructor` | pkg/cdi-driver/controllerserver-master.go:39-57 | Starts with empty tables, and listens to the registry. |
| `MasterAllocator.MasterController.OnNodeAdded` | pkg/cdi-driver/controllerserver-master.go:66-109 | Fails if and only if the node does, changing nothing; otherwise the node lists exactly one new object per reported device, with its id, size and parameters and without volumes; old objects and the volume index stay. |
| `MasterAllocator.PresentJoins` | pkg/cdi-driver/controllerserver-master.go:94-97 | Entries without a volume are passed over, and the others are taken in order. |
| `Tables.ReportedID` | pkg/cdi-driver/controllerserver-master.go:87-105 | After OnNodeAdded an id that was reported leads to the object of its last entry. |
| `Tables.UnreportedID` | pkg/cdi-driver/controllerserver-master.go:87-89 | An id that was not is gone if the node listed it before, and else is as it was. |
| `MasterAllocator.MasterController.ForgetIDs` | pkg/cdi-driver/controllerserver-master.go:87-89 | Removes exactly the ids the node listed. |
| `MasterAllocator.MasterController.AddDevices` | pkg/cdi-driver/controllerserver-master.go:92-107 | One fresh object per present entry, in order; later entries win a shared id. |
| `MasterAllocator.MasterController.OnNodeDeleted` | pkg/cdi-driver/controllerserver-master.go:112-121 | The node is no key of devicesByNodes any more, every other node's list is as it was, and devicesByIDs, the volume index and all contents are unchanged. |
| `Registrations.DeletedIsUnlisted` | pkg/cdi-driver/controllerserver-master.go:112-121 | In every run, from its OnNodeDeleted until it is added again a node is not in devicesByNodes. |
| `Registrations.UnlistedIsNotFound` | pkg/cdi-driver/controllerserver-master.go:123-208 | Whatever the search or the route may answer, it is no node that the master does not list. |
| `Registrations.DeletedIsNotChosen` | pkg/cdi-driver/controllerserver-master.go:123-208 | So in every run no search chooses such a node, and no deletion is routed to it. |
| `MasterAllocator.MasterController.FindDeviceNode` | pkg/cdi-driver/controllerserver-master.go:123-133 | Returns some node that lists the id, or fails if and only if none does. |
| `MasterAllocator.MasterController.ScanNode` | pkg/cdi-driver/controllerserver-master.go:151-171 | Over one node: the first match when no topology is requested, else the last, and whether some device is exhausted. |
| `MasterAllocator.MasterController.ScanNodes` | pkg/cdi-driver/controllerserver-master.go:147-172 | Over all nodes in any order: the maps collected say exactly which nodes have a match and which an exhausted device. |
| `MasterAllocator.MasterController.Choose` | pkg/cdi-driver/controllerserver-master.go:174-207 | The first requested node with a match wins, else any node with one, else the code says whether a requested node is exhausted. |
| `MasterAllocator.MasterController.FindDevice` | pkg/cdi-driver/controllerserver-master.go:136-208 | The search as specified, for the objects' current contents. |
| `MasterAllocator.MasterController.CreateVolume` | pkg/cdi-driver/controllerserver-master.go:213-276 | Every outcome: argument errors, failed search, unreachable or refusing node leave all tables as they were; success indexes the name, and puts on the device found, and on no other, a volume with the request's name, size and parameters, the device's ID among these, and the node for its topology. |
| `MasterAllocator.MasterController.DeleteLocked` | pkg/cdi-driver/controllerserver-master.go:296-317 | With any device read earlier: the name leaves the index and that device whatever follows; the answer is the node's own if some node lists the device's id and can be reached, else Internal. |
| `MasterAllocator.MasterController.DeleteVolume` | pkg/cdi-driver/controllerserver-master.go:280-323 | An unknown name is answered OK and changes nothing; a known one is dropped from the tables even when the node fails. |
| `MasterAllocator.MasterController.ListVolumes` | pkg/cdi-driver/controllerserver-master.go:364-443 | Pages the devices of the live volumes, each once, in some order of the map. |
| `MasterAllocator.ListsEntries` | pkg/cdi-driver/controllerserver-master.go:369-432 | Every entry carries the id and the size of the device of a live volume, and a page from the start has those of the first volumes in that order. |
| `Pagination.Fill` | pkg/cdi-driver/controllerserver-master.go:423-432 | The copying loop returns the slice asked for, or panics exactly when an index leaves the list. |
| `Pagination.MakePage` | pkg/cdi-driver/controllerserver-master.go:382-442 | The int32 arithmetic, for lists of any length and any token, gives the specified page, refusal or panic. |
| `Pagination.PageExactly` | pkg/cdi-driver/controllerserver-master.go:396-442 | From a position in the list a page has as many entries as asked for but no more than there are, all of them for MaxEntries 0, and its token is the position where it ends, unless that is the end. |
| `Pagination.PanicExactly` | pkg/cdi-driver/controllerserver-master.go:388-421 | The call panics if and only if the token lies in the upper half of the 32-bit range, or MaxEntries is negative and the token fine. |
| `Pagination.AbortedExactly` | pkg/cdi-driver/controllerserver-master.go:388-404 | It is Aborted if and only if the token is no 32-bit numeral or lies beyond the end. |
| `Pagination.FollowSlices` | pkg/cdi-driver/controllerserver-master.go:434-442 | Tokens carry positions faithfully: following them visits consecutive slices, and ends. |
| `Pagination.FollowCounts` | pkg/cdi-driver/controllerserver-master.go:364-443 | Even if the order differs from call to call, the number of entries received is the number of volumes. |
| `Pagination.AllPages` | pkg/cdi-driver/controllerserver-master.go:364-443 | In a fixed order the pages from the empty token on concatenate to the whole list: no gap, no repeat. |
| `Registry.RegistryServer.RegisterController` | pkg/registryserver/registryserver.go:99-140 | A node known under the same endpoint: OK, and no callback. Any other is announced to listeners, none of them twice, until one refuses: if none does, all have been called and the node stays; else it is removed and a plain error returned. |
| `Registrations.KnownIsQuiet` | pkg/registryserver/registryserver.go:118-139 | In every run, a registration that finds its node under the same endpoint tells nobody: none of its further steps changes anything, and it can only end in OK. |
| `Registrations.AnnouncedToAll` | pkg/registryserver/registryserver.go:118-139 | In every run, any other registration that has ended was answered OK and accepted by every listener in one of its own steps, or was refused by one of them. |
| `Registry.RegistryServer.ConnectToNodeController` | pkg/registryserver/registryserver.go:82-91 | Connects exactly to a registered node whose endpoint can be dialled. |
| `Registry.RegistryServer.NotifyAdded` | pkg/registryserver/registryserver.go:128-137 | Calls listeners in some order, none twice, until one refuses. |
| `Registry.RegistryServer.UnregisterController` | pkg/registryserver/registryserver.go:143-166 | Removes the node, then tells each listener once, if it was registered. |
| `Registry.RegistryServer.NotifyDeleted` | pkg/registryserver/registryserver.go:157-159 | Calls every listener exactly once. |
| `Registry.RegistryServer.NodeClients` | pkg/registryserver/registryserver.go:170-179 | The copy equals the registry. |

## Left out

- gRPC transport, TLS, dialling, server start and stop, command line and client retries: only "a call to a node, which may fail" is kept.
- Discovery in sysfs and devfs: each type manager's list of devices is an arbitrary input, as is its failure.
- `resource.ParseQuantity` and `AsInt64`: one unspecified function from strings to optional int64 values, the same for all devices. A quantity that parses but does not fit int64 is whatever the library returns.
- NodeStageVolume and NodeUnstageVolume beyond the device lookup: they only write and remove files.
- GetCapacity: its lock use and its loop are in the state machine, its numbers (each node answers the constant 100) are not.
- ValidateVolumeCapabilities: only as a user of the master mutex. ListVolumes in the state machine likewise; its pages are proved on the class.
- The identity server, the stubs of the default controller server, capability lists (the driver announces the capabilities it checks, so those checks pass), logging and tracing.
- Data races of the Go memory model: every map access is one atomic step. In particular, OnNodeDeleted may run during a search; the search then succeeds at the moment it visits the device, or fails at its end.
- Concurrency inside one node's controller: the master's calls to nodes are made under its mutex, so a node handles one at a time.
- Aliasing of the request's parameter map with the volume's context: the "ID" is set in the map before the volume is used anywhere else, so the model builds the volume from the updated map.
- Error texts. A plain error has the code Unknown, and a call the transport fails has the code Unavailable, whatever code it really gets.
- MasterAllocator.MasterController.CreateVolume: which endpoints can be dialled and what the node answers are parameters; interleaving with other calls, failures and lost replies are in the state machine instead.
- MasterAllocator.MasterController.DeleteVolume: here nothing happens between the unlocked read and the lock; DeleteLocked takes any device read earlier, and the state machine has the interleaving.
- EndToEnd.NodeNeverOvercommitted: assumes that deletions free what they read instead of only that live names are not created again, which is not enough: Witnesses.TwoStaleDeletesRun is a run that keeps every promise, that one included, and overcommits a node.
- EndToEnd.SidesAgree: assumes besides that deletions free nothing else, without which Witnesses.StaleDeleteRun refutes it.
- Liveness.CallsEnd: assumes that remote calls return; a node that never answers blocks the master mutex for ever.
