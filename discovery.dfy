/** VM discovery: listVMs and the list functions the orchestrator runs. */
module Discovery {
  import opened Wrappers
  import opened Provider
  import opened Tracker

  /** clusterDiscoveryVSphere: the cloud to query and the cluster whose resources are wanted. */
  datatype ClusterDiscovery<R> = ClusterDiscovery(cloud: VSphereCloud<R>, clusterName: string)

  /** What a list function returns: its trackers and its error (nil trackers on error). */
  datatype Listing<R> = Listing(trackers: seq<Resource<R>>, err: Option<Error>)

  /** The registered list functions; listVMs is the only one. */
  datatype ListFn = ListVMs

  /** The two name patterns listVMs passes to the provider: masters first, then nodes. */
  function VMPatterns(clusterName: string): (patterns: seq<string>)
    ensures patterns == ["*.masters." + clusterName + "*", "nodes." + clusterName + "*"]
  {
    var masters := "*" + "." + "masters" + "." + clusterName + "*";
    var nodes := "nodes" + "." + clusterName + "*";
    assert "*" + "." + "masters" + "." == "*.masters." && "nodes" + "." == "nodes.";
    [masters, nodes]
  }

  /** The tracker listVMs builds for one VM: named and identified by the VM's name, so keyed `VM:` and that name. */
  function VMTracker<R>(vm: VirtualMachine<R>): (t: Resource<R>)
    ensures t.name == t.id == vm.name
    ensures Key(t) == "VM:" + vm.name
  {
    assert "VM" + ":" == "VM:";
    Resource(vm.name, vm.name, TypeVM, VM, VMHandle(vm))
  }

  /** A provider error that aborts discovery: anything but NotFoundError. */
  predicate IsFatalQueryError(err: Option<Error>)
  {
    err.Some? && !err.value.NotFoundError?
  }

  /** What listVMs returns for a cluster. */
  function VMListing<R>(d: ClusterDiscovery<R>): (l: Listing<R>)
    ensures var err := d.cloud.getVirtualMachines(VMPatterns(d.clusterName)).err;
            l.err.Some? <==> IsFatalQueryError(err)
    ensures l.err.Some? ==> l.trackers == [] && !l.err.value.NotFoundError?
    ensures l.err.None? ==> |l.trackers| == |d.cloud.getVirtualMachines(VMPatterns(d.clusterName)).vms|
  {
    var reply := d.cloud.getVirtualMachines(VMPatterns(d.clusterName));
    if IsFatalQueryError(reply.err) then Listing([], reply.err)
    else Listing(seq(|reply.vms|, i requires 0 <= i < |reply.vms| => VMTracker(reply.vms[i])), None)
  }

  /**
   * listVMs queries the provider with VMPatterns. A NotFoundError is benign;
   * any other error yields no trackers; otherwise there is one VM tracker per
   * VM, in order, named and identified by the VM's name.
   */
  lemma VMListingShape<R>(d: ClusterDiscovery<R>)
    ensures var reply := d.cloud.getVirtualMachines(VMPatterns(d.clusterName));
            var l := VMListing(d);
            && (IsFatalQueryError(reply.err) ==> l.trackers == [] && l.err == reply.err)
            && (!IsFatalQueryError(reply.err) ==> l.err == None && |l.trackers| == |reply.vms|)
            && (!IsFatalQueryError(reply.err) ==>
                  forall i :: 0 <= i < |l.trackers| ==>
                    && l.trackers[i].name == reply.vms[i].name
                    && l.trackers[i].id == reply.vms[i].name
                    && l.trackers[i].typ == "VM"
                    && l.trackers[i].kind == VM
                    && l.trackers[i].obj == VMHandle(reply.vms[i]))
  {
  }

  /** listVMs: query the provider once, then build the trackers by appending one per VM. */
  method ListVMsOf<R>(d: ClusterDiscovery<R>) returns (trackers: seq<Resource<R>>, err: Option<Error>)
    ensures Listing(trackers, err) == VMListing(d)
  {
    var reply := d.cloud.getVirtualMachines(VMPatterns(d.clusterName));
    if IsFatalQueryError(reply.err) {
      return [], reply.err;
    }
    var vms := reply.vms;
    trackers := [];
    var i := 0;
    while i < |vms|
      invariant 0 <= i <= |vms|
      invariant trackers == seq(i, j requires 0 <= j < i => VMTracker(vms[j]))
    {
      trackers := trackers + [VMTracker(vms[i])];
      i := i + 1;
    }
    err := None;
  }

  /**
   * What a registered list function returns for a cluster. No list function
   * passes a NotFoundError on, and one that fails returns no trackers.
   */
  function Discover<R>(fn: ListFn, d: ClusterDiscovery<R>): (l: Listing<R>)
    ensures l.err.Some? ==> l.trackers == [] && !l.err.value.NotFoundError?
  {
    match fn
    case ListVMs => VMListing(d)
  }

  /** Discovering a cluster with no VMs (the provider answers NotFoundError) yields nothing and no error. */
  lemma NotFoundYieldsEmpty<R>(d: ClusterDiscovery<R>, msg: string)
    requires d.cloud.getVirtualMachines(VMPatterns(d.clusterName)) == QueryReply([], Some(NotFoundError(msg)))
    ensures VMListing(d) == Listing([], None)
  {
  }
}
