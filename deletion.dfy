/**
 * deleteVM as a sequence of provider calls: power off, wait, delete the
 * cloud-init ISO, destroy, wait. The calls made are returned as a trace.
 */
module Deletion {
  import opened Wrappers
  import opened Provider
  import opened Tracker

  /** How a deletion ends: nil error, an error return, or glog.Fatalf (the process exits). */
  datatype DeleteOutcome = Deleted | Failed(err: Error) | Fatal(err: Error)

  /** Every call deleteVM can make on a VM, in the order it makes them. */
  function FullSequence(vm: string): seq<Event>
  {
    [PowerOff(vm), WaitPowerOff(vm), DeleteCloudInitISO(vm), Destroy(vm), WaitDestroy(vm)]
  }

  /** A destroy is only ever issued after a power-off of the same VM was issued and waited for. */
  ghost predicate DestroyAfterPowerOff(trace: seq<Event>)
  {
    forall i :: 0 <= i < |trace| && trace[i].Destroy? ==>
      exists j, k :: 0 <= k < j < i && trace[k] == PowerOff(trace[i].vm) && trace[j] == WaitPowerOff(trace[i].vm)
  }

  /** Any trace that follows the fixed call order, stopping early or not, respects the power-off-first rule. */
  lemma PrefixRespectsPhases(vm: string, n: nat)
    requires n <= 5
    ensures DestroyAfterPowerOff(FullSequence(vm)[..n])
  {
    var t := FullSequence(vm)[..n];
    forall i | 0 <= i < |t| && t[i].Destroy?
      ensures exists j, k :: 0 <= k < j < i && t[k] == PowerOff(t[i].vm) && t[j] == WaitPowerOff(t[i].vm)
    {
      assert i == 3;
      assert t[0] == PowerOff(vm) && t[1] == WaitPowerOff(vm);
    }
  }

  /**
   * deleteVM. A power-off that fails to start is returned and nothing else
   * is called. The results of the power-off wait and of the ISO deletion are
   * ignored. A destroy that fails to start is returned; a destroy that fails
   * while running is fatal.
   */
  method DeleteVM<R>(replies: Lifecycle, vm: VirtualMachine<R>) returns (outcome: DeleteOutcome, trace: seq<Event>)
    ensures replies.powerOff.Some? ==> outcome == Failed(replies.powerOff.value) && trace == FullSequence(vm.name)[..1]
    ensures replies.powerOff.None? && replies.destroy.Some? ==>
              outcome == Failed(replies.destroy.value) && trace == FullSequence(vm.name)[..4]
    ensures replies.powerOff.None? && replies.destroy.None? ==> trace == FullSequence(vm.name)
    ensures outcome.Fatal? <==> replies.powerOff.None? && replies.destroy.None? && replies.destroyWait.Some?
    ensures outcome.Fatal? ==> outcome.err == replies.destroyWait.value
    ensures outcome == Deleted <==> replies.powerOff.None? && replies.destroy.None? && replies.destroyWait.None?
    ensures Destroy(vm.name) in trace <==> replies.powerOff.None?
    ensures DestroyAfterPowerOff(trace)
  {
    var name := vm.name;
    trace := [PowerOff(name)];
    var err := replies.powerOff;
    if err.Some? {
      assert trace == FullSequence(name)[..1];
      PrefixRespectsPhases(name, 1);
      return Failed(err.value), trace;
    }
    trace := trace + [WaitPowerOff(name)];
    trace := trace + [DeleteCloudInitISO(name)];
    trace := trace + [Destroy(name)];
    err := replies.destroy;
    if err.Some? {
      assert trace == FullSequence(name)[..4];
      PrefixRespectsPhases(name, 4);
      return Failed(err.value), trace;
    }
    trace := trace + [WaitDestroy(name)];
    assert trace == FullSequence(name)[..5] == FullSequence(name);
    PrefixRespectsPhases(name, 5);
    err := replies.destroyWait;
    if err.Some? {
      return Fatal(err.value), trace;
    }
    return Deleted, trace;
  }

  /** The record's Deleter, selected by its kind; for a VM it behaves as DeleteVM on the VM it owns. */
  method Delete<R>(replies: Lifecycle, r: Resource<R>) returns (outcome: DeleteOutcome, trace: seq<Event>)
    ensures replies.powerOff.Some? ==> outcome == Failed(replies.powerOff.value) && trace == FullSequence(r.obj.vm.name)[..1]
    ensures replies.powerOff.None? && replies.destroy.Some? ==>
              outcome == Failed(replies.destroy.value) && trace == FullSequence(r.obj.vm.name)[..4]
    ensures replies.powerOff.None? && replies.destroy.None? ==> trace == FullSequence(r.obj.vm.name)
    ensures outcome.Fatal? <==> replies.powerOff.None? && replies.destroy.None? && replies.destroyWait.Some?
    ensures outcome.Fatal? ==> outcome.err == replies.destroyWait.value
    ensures outcome == Deleted <==> replies.powerOff.None? && replies.destroy.None? && replies.destroyWait.None?
    ensures Destroy(r.obj.vm.name) in trace <==> replies.powerOff.None?
    ensures DestroyAfterPowerOff(trace)
  {
    match r.kind {
      case VM => outcome, trace := DeleteVM(replies, r.obj.vm);
    }
  }
}
