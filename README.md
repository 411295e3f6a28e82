# vSphere cluster teardown core, modelled in Dafny

This project models the vSphere resource core of kops' `pkg/resources/vsphere.go`.
That core lists the virtual machines that belong to a cluster. It turns each one into a
tracker record keyed by `Type:ID` and merges the records of all list functions into one
map. It can also delete a VM through a fixed sequence of provider calls, or dump a record
for inspection.

The vSphere provider (govmomi) is not modelled. What it answers is an input:
- `GetVirtualMachines` is a function from name patterns to a reply.
- deleteVM's five calls are answered by a `Lifecycle` record.

The calls the core makes are returned as a trace of `Event`s. Go's `(value, error)` pairs
stay pairs, with `Option` standing for a nil error or a nil map.

Files:
- `wrappers.dfy`: `Option`.
- `provider.dfy`: provider errors, VM handles, query replies, call results and events.
- `tracker.dfy`: the tracker record, its key, and `DumpVMInfo`.
- `discovery.dfy`: `listVMs` and its name patterns.
- `orchestrator.dfy`: the fail-fast merge loop of `listResourcesVSphere`.
- `deletion.dfy`: `deleteVM`.

Deleter and Dumper are a dispatch on the closed `Kind` datatype, which has only `VM`.
The provider object a record owns is a typed `Handle`, so no type assertion is needed.

Facts about `vsphere.go` that the model keeps:
- A VM tracker's ID is the VM's name (`vm.Name()`, line 87), the same as its Name (line 86).
- Both name patterns go to `GetVirtualMachines` in one call (line 75).
- The result of the power-off wait is not checked (line 107). Destroy is issued once the wait returns, whatever it reports.
- `ProdScenario` assumes the provider returns the VMs `masters.prod.i-1` and `nodes.prod.i-2` for the two patterns. Which names a pattern matches is decided by the provider.

## Model

| member | source | states |
|---|---|---|
| `Tracker.Key` | pkg/resources/vsphere.go:132-134 | The key is one longer than Type and ID together, with a colon right after the Type. |
| `Tracker.KeyLayout` | pkg/resources/vsphere.go:132-134 | The key is the record's Type, then a colon at position len(Type), then its ID. |
| `Tracker.KeyInjective` | pkg/resources/vsphere.go:132-134 | If neither Type contains a colon, two keys are equal exactly when Type and ID are both equal. So records of different types never share a key. |
| `Tracker.KeyAmbiguousWithColon` | pkg/resources/vsphere.go:132-134 | Without that restriction keys collide: type `a:` with ID `b` and type `a` with ID `:b` give the same key. |
| `Tracker.DumpVMInfo` | pkg/resources/vsphere.go:124-130 | The error is always nil. The snapshot has exactly the keys `id`, `type` and `raw`, holding the record's ID, Type and provider object. |
| `Tracker.Dump` | pkg/resources/vsphere.go:89-90 | The record's Dumper, selected by its kind: no error, and a snapshot with exactly `id`, `type` and `raw`, holding the record's ID and Type. |
| `Tracker.DumpCarriesKey` | pkg/resources/vsphere.go:124-134 | A record's key can be rebuilt from its snapshot's `type` and `id` fields. |
| `Discovery.VMPatterns` | pkg/resources/vsphere.go:72-73 | Exactly two patterns, in this order: `*.masters.<cluster>*`, then `nodes.<cluster>*`. |
| `Discovery.VMTracker` | pkg/resources/vsphere.go:85-92 | A VM's tracker has Name = ID = the VM's name, so its key is `VM:` followed by that name. |
| `Discovery.VMListing` | pkg/resources/vsphere.go:69-96 | listVMs returns an error exactly when the provider reports one other than NotFoundError. It never returns NotFoundError. With an error there are no trackers; otherwise there is one tracker per VM returned. |
| `Discovery.VMListingShape` | pkg/resources/vsphere.go:75-95 | The provider is queried with `VMPatterns`. An error other than NotFoundError gives no trackers and that error. Otherwise the error is nil and there is one tracker per VM returned, in the same order. Each has Name = ID = the VM's name, Type `VM`, kind VM, and the VM as its object. |
| `Discovery.Discover` | pkg/resources/vsphere.go:52-54 | A registered list function never passes NotFoundError on, and returns no trackers when it fails. |
| `Discovery.ListVMsOf` | pkg/resources/vsphere.go:69-96 | The append loop of listVMs returns exactly `VMListing`. |
| `Discovery.NotFoundYieldsEmpty` | pkg/resources/vsphere.go:75-81 | A NotFoundError with no VMs gives no trackers and a nil error. |
| `Orchestrator.FirstError` | pkg/resources/vsphere.go:56-60 | Returns the index of the first listing with an error, or the count of listings if none has one. Every earlier listing has no error. |
| `Orchestrator.FirstErrorIs` | pkg/resources/vsphere.go:56-60 | The first-error index is determined by those two facts. |
| `Orchestrator.Merge` | pkg/resources/vsphere.go:61-63 | After the map writes, the last tracker written is stored under its own key. |
| `Orchestrator.MergeKeys` | pkg/resources/vsphere.go:44-63 | The map's keys are exactly the trackers' keys. There are no more of them than there are trackers. |
| `Orchestrator.KeySetMembers` | pkg/resources/vsphere.go:61-63 | A key is in the key set exactly when some tracker carries it. |
| `Orchestrator.MergeLastWins` | pkg/resources/vsphere.go:61-63 | A key maps to the last tracker that carries it. |
| `Orchestrator.MergeValueIsLast` | pkg/resources/vsphere.go:61-63 | Every map value is a listed tracker stored under its own key, and no later tracker carries that key. |
| `Orchestrator.MergeKeyConsistent` | pkg/resources/vsphere.go:61-63 | Every tracker in the merged map is stored under its own key. |
| `Orchestrator.FlattenMembers` | pkg/resources/vsphere.go:56-63 | A tracker is among those merged exactly when some list function returned it. |
| `Orchestrator.MergedListingsKeys` | pkg/resources/vsphere.go:56-66 | Every tracker from every list function has its key in the result. The result has no other keys, and its size is at most the total number of trackers. |
| `Orchestrator.ListResources` | pkg/resources/vsphere.go:56-66 | If some list function fails, the first failing one is the last called. The map is nil and its error is returned. Otherwise every function is called, the error is nil, and the map is `Merge` of all trackers in order. |
| `Orchestrator.ListResourcesVSphere` | pkg/resources/vsphere.go:41-67 | listVMs is the only list function. Its error gives a nil map and that error; otherwise the result is `Merge` of its trackers. |
| `Orchestrator.ProdScenario` | pkg/resources/vsphere.go:41-95 | For cluster `prod` with VMs `masters.prod.i-1` and `nodes.prod.i-2`, the result has exactly the keys `VM:masters.prod.i-1` and `VM:nodes.prod.i-2`. |
| `Deletion.DeleteVM` | pkg/resources/vsphere.go:98-122 | If PowerOff fails to start, that error is returned and nothing else is called. Otherwise the wait, the ISO deletion and Destroy follow, whatever the wait and the ISO deletion report. If Destroy fails to start, that error is returned. If Destroy's wait fails, the outcome is fatal. Otherwise the result is nil. Destroy is called exactly when PowerOff started, and only after the power-off wait. |
| `Deletion.PrefixRespectsPhases` | pkg/resources/vsphere.go:103-111 | Any trace that follows the call order, stopping early or not, issues Destroy only after PowerOff and its wait. |
| `Deletion.Delete` | pkg/resources/vsphere.go:89-122 | The record's Deleter, selected by its kind, has the same outcome and trace as `DeleteVM` on the VM the record owns. Start failures are returned as errors, a failed Destroy wait is fatal, and otherwise the result is nil. Destroy is called exactly when PowerOff started, and only after the power-off wait. |

## Left out

- The govmomi and vSphere calls (`GetVirtualMachines`, `PowerOff`, `Destroy`, `task.Wait`, `DeleteCloudInitISO`) are foreign code. Their results are inputs and the calls are trace events.
- Glob matching of the name patterns happens inside the provider. Only the pattern strings passed to it are modelled.
- `context.TODO()` and `glog` logging are left out. `glog.Fatalf` is the `Fatal` outcome; the process exit it causes is not modelled.
- The type assertions `c.Cloud.(*vsphere.VSphereCloud)` and `r.Obj.(*object.VirtualMachine)`, and the panic when they fail, are replaced by typed datatypes (`VSphereCloud`, `Handle`).
- The contents of the provider object behind a VM are an uninterpreted type parameter `R`.
- `tracker.Resource` is not part of this model beyond the fields used here. Its Deleter and Dumper function fields are the `kind` tag.
- Go maps and slices are references; the model uses Dafny values. The nil/empty distinction for slices is not kept, but the nil map on error is kept as `None`.
