/**
 * The vSphere provider as seen from the teardown core. None of its code is
 * modelled: what a call answers is an input (an oracle), and what the core
 * asks of it is recorded as an event.
 */
module Provider {
  import opened Wrappers

  /** An error from the provider; `NotFoundError` is govmomi's find.NotFoundError. */
  datatype Error = NotFoundError(msg: string) | OtherError(msg: string)

  /** A virtual machine handle: its name and the opaque provider object behind it. */
  datatype VirtualMachine<R> = VirtualMachine(name: string, ref: R)

  /** The answer of GetVirtualMachines: the VMs found and the error, both as the provider returns them. */
  datatype QueryReply<R> = QueryReply(vms: seq<VirtualMachine<R>>, err: Option<Error>)

  /** The vSphere cloud: GetVirtualMachines as a function of the name patterns it is given. */
  datatype VSphereCloud<R> = VSphereCloud(getVirtualMachines: seq<string> -> QueryReply<R>)

  /**
   * What the provider answers to each call deleteVM may make on one VM:
   * starting the power-off, waiting for it, deleting the cloud-init ISO,
   * starting the destroy, waiting for it. `None` is success.
   */
  datatype Lifecycle = Lifecycle(
    powerOff: Option<Error>,
    powerOffWait: Option<Error>,
    deleteISO: Option<Error>,
    destroy: Option<Error>,
    destroyWait: Option<Error>)

  /** A call the core makes on the provider, naming the VM it is about. */
  datatype Event =
    | PowerOff(vm: string)
    | WaitPowerOff(vm: string)
    | DeleteCloudInitISO(vm: string)
    | Destroy(vm: string)
    | WaitDestroy(vm: string)
}
