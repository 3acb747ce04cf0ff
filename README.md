# Device passthrough mediation (tpuproxy) in Dafny

A model of the mediation core of gVisor's `tpuproxy` package. The package
gives a sandboxed process file descriptors for passthrough devices: TPU
accelerators, generic VFIO PCI devices and the VFIO container. All real work
is done by one host file descriptor per device. The model covers two pieces:

- **Mapping mediation** (`mmap.dfy`, module `DeviceMmap`). The TPU descriptor
  and the PCI device descriptor implement the memory-mappable interface in
  exactly the same way, so they are modelled once, parameterised by
  `DeviceKind`. A guest mapping is translated, whole, onto the descriptor's
  memmap file at the same offset. That file refuses every internal mapping
  and reports the host fd, so the host maps device memory directly. Every
  other hook is a no-op.
- **VFIO container control** (`vfio.dfy`, module `Vfio`). The ioctl surface
  forwards only `VFIO_CHECK_EXTENSION`, and only for the three IOMMU models of
  the Linux VFIO UAPI (`VFIO_TYPE1_IOMMU` = 1, `VFIO_SPAPR_TCE_IOMMU` = 2,
  `VFIO_TYPE1v2_IOMMU` = 3; `VFIO_CHECK_EXTENSION` = `_IO(';', 101)` =
  0x3B65). It relays the host's answer unchanged. The waiter queue (a set of
  entries) is kept in step with the host readiness subscription. Release
  unsubscribes, then wakes waiters with a hang-up, then closes the host fd.

The host (`host.dfy`, module `Host`) is an oracle. The class `HostKernel` answers
the n-th interaction through two function-valued constants: the reply to an
ioctl, and the result of an `fdnotifier.UpdateFD`. Every interaction, and
every wake-up of waiters, is appended to `trace`, so the order of effects can
be stated. `Subscription(trace, fd)` is the host readiness subscription that
the trace leaves for `fd`. It is the mask of the last successful `UpdateFD`,
or nothing after `RemoveFD`. A failed `UpdateFD` changes nothing.

The pure functions state what each operation returns and what it appends to
the trace, given the host's answer. The functions in `Vfio` are
`ExtensionCheck`, `IoctlDispatch`, `AfterRegister`, `AfterUnregister` and
`AfterRelease`. The class `Vfio.VfioFd` performs the same operations in place
on its `queue` field and on the `HostKernel`, and is proved against those
functions. Its invariant `Valid()` says the host subscription equals the
union of the waiters' interests.

Panics are modelled as outcomes, not preconditions:

- `Ioctl` outside a task context returns `Panic`.
- A failed resync in `EventUnregister` returns the error the descriptor
  panics with.

The command and the extension code are decoded from 64-bit argument
registers the way `SyscallArgument.Uint` and `SyscallArgument.Int` do it: the
low 32 bits, unsigned or signed.

On release, `waiter.Queue.Notify(EventHUp)` wakes only the waiters whose mask
includes the hang-up event. A registered waiter that does not listen for
hang-ups is not woken (`HangUpWaiters`, `ReleaseHangsUpOnce`).

## Model

| member | source | states |
|---|---|---|
| DeviceMmap.Translate | pkg/sentry/devices/tpuproxy/tpu_mmap.go:46-56 | never fails; exactly one translation, whose source is `optional` (whatever `required` is), whose file is the descriptor's own memmap file, whose offset is `optional.Start` and whose permissions are `at` (the PCI variant, lines 105-115, is the same model) |
| DeviceMmap.TranslateIsDirect | pkg/sentry/devices/tpuproxy/tpu_mmap.go:47-56 | every offset in `optional` is backed by the host fd of the owning descriptor at that same offset, and every `required` range inside `optional` is covered |
| DeviceMmap.MemmapFileOf | pkg/sentry/devices/tpuproxy/tpu_mmap.go:63-65 | the embedded memmap file refers back to its owning descriptor |
| DeviceMmap.AddMapping | pkg/sentry/devices/tpuproxy/tpu_mmap.go:32-35 | always succeeds and leaves the descriptor unchanged (PCI variant at lines 91-94) |
| DeviceMmap.RemoveMapping | pkg/sentry/devices/tpuproxy/tpu_mmap.go:37-39 | leaves the descriptor unchanged (PCI variant at lines 96-98) |
| DeviceMmap.CopyMapping | pkg/sentry/devices/tpuproxy/tpu_mmap.go:41-44 | always succeeds and leaves the descriptor unchanged (PCI variant at lines 100-103) |
| DeviceMmap.InvalidateUnsavable | pkg/sentry/devices/tpuproxy/tpu_mmap.go:58-61 | always succeeds and leaves the descriptor unchanged (PCI variant at lines 117-120) |
| DeviceMmap.IncRef | pkg/sentry/devices/tpuproxy/tpu_mmap.go:67-69 | leaves the memmap file unchanged for every range and memory-cgroup id (PCI variant at lines 126-128) |
| DeviceMmap.DecRef | pkg/sentry/devices/tpuproxy/tpu_mmap.go:71-73 | leaves the memmap file unchanged for every range (PCI variant at lines 130-132) |
| DeviceMmap.MapInternal | pkg/sentry/devices/tpuproxy/tpu_mmap.go:75-79 | for every range and access type, fails with EINVAL and returns no blocks (PCI variant at lines 134-138) |
| DeviceMmap.FD | pkg/sentry/devices/tpuproxy/tpu_mmap.go:81-84 | is the owning descriptor's host fd (PCI variant at lines 140-143) |
| Vfio.ExtensionName | pkg/sentry/devices/tpuproxy/vfio.go:114-124 | the name is non-empty exactly for the three codes that checkExtension allows, and "" for every other code |
| Vfio.ExtensionNamesDistinct | pkg/sentry/devices/tpuproxy/vfio.go:114-124 | two codes with the same non-empty name are the same code |
| Vfio.ExtensionCheck | pkg/sentry/devices/tpuproxy/vfio.go:97-108 | the host is called if and only if the code is TYPE1, SPAPR_TCE or TYPE1v2; then exactly one VFIO_CHECK_EXTENSION ioctl with the code as argument, whose value comes back unchanged on success, or 0 with the host's own error on failure; any other code gives (0, EINVAL) |
| Vfio.RefusedCodeIgnoresHost | pkg/sentry/devices/tpuproxy/vfio.go:97-107 | for a refused code the result does not depend on the host at all |
| Vfio.ForwardedCodesAreNamed | pkg/sentry/devices/tpuproxy/vfio.go:99-102 | every code that reaches the host has a name for the failure warning |
| Vfio.Uint32Of | pkg/sentry/devices/tpuproxy/vfio.go:83 | the command is the argument register reduced to 32 bits (agrees with it modulo 2^32) |
| Vfio.Int32Of | pkg/sentry/devices/tpuproxy/vfio.go:90 | the extension code is a 32-bit signed value that agrees with the argument register modulo 2^32 |
| Vfio.ArgumentRoundTrip | pkg/sentry/devices/tpuproxy/vfio.go:90 | a 32-bit code, sign-extended or zero-extended into the register, is decoded back to itself |
| Vfio.IoctlDispatch | pkg/sentry/devices/tpuproxy/vfio.go:82-93 | panics if and only if there is no task context; otherwise VFIO_CHECK_EXTENSION is the extension check of the third argument and every other command is (0, ENOSYS) with no host call |
| Vfio.IoctlSurface | pkg/sentry/devices/tpuproxy/vfio.go:82-107 | an ioctl makes at most one host call, and only a VFIO_CHECK_EXTENSION of an allowed code on the descriptor's own host fd |
| Vfio.OthersKeepSync | pkg/sentry/devices/tpuproxy/vfio.go:40 | ioctls, wake-ups and other descriptors' calls on other host fds keep the descriptor's subscription in step with its waiters |
| Vfio.AfterRegister | pkg/sentry/devices/tpuproxy/vfio.go:54-61 | one resync with the interest of the queue including the new waiter; on success the waiter is registered, on failure the queue is back to its prior contents and the host's error is returned |
| Vfio.RegisterKeepsSync | pkg/sentry/devices/tpuproxy/vfio.go:54-61 | registration, whether its resync succeeds or fails, keeps the host subscription equal to the waiters' interest |
| Vfio.AfterUnregister | pkg/sentry/devices/tpuproxy/vfio.go:64-69 | the waiter is gone and every other waiter stays; one resync with the remaining interest; a resync failure is the error the descriptor panics with |
| Vfio.UnregisterKeepsSync | pkg/sentry/devices/tpuproxy/vfio.go:64-69 | an unregistration whose resync succeeds keeps the host subscription equal to the waiters' interest |
| Vfio.FailedUnregisterDesyncs | pkg/sentry/devices/tpuproxy/vfio.go:66-68 | when the departing waiter alone wanted some event and the resync fails, the subscription is out of step, which is why that failure is fatal |
| Vfio.RegisterThenUnregister | pkg/sentry/devices/tpuproxy/vfio.go:54-69 | registering a new waiter and unregistering it, with both resyncs succeeding, restores the queue and the host subscription after exactly two resyncs |
| Vfio.HangUpWaiters | pkg/sentry/devices/tpuproxy/vfio.go:49 | the hang-up reaches exactly the registered waiters whose mask includes it |
| Vfio.AfterRelease | pkg/sentry/devices/tpuproxy/vfio.go:47-51 | RemoveFD, then the hang-up to the waiters, then close of the host fd, in that order and nothing else |
| Vfio.ReleaseUnsubscribes | pkg/sentry/devices/tpuproxy/vfio.go:48 | after release the host keeps no readiness subscription for the fd |
| Vfio.ReleaseHangsUpOnce | pkg/sentry/devices/tpuproxy/vfio.go:47-51 | release delivers exactly one hang-up to each registered waiter that listens for it, none to any other, all before the close |
| Vfio.VfioFd.Epollable | pkg/sentry/devices/tpuproxy/vfio.go:77-79 | always true |
| Vfio.VfioFd.CheckExtension | pkg/sentry/devices/tpuproxy/vfio.go:97-108 | performed on the host, returns what ExtensionCheck says for the host's answer and appends exactly its effects to the trace |
| Vfio.VfioFd.Ioctl | pkg/sentry/devices/tpuproxy/vfio.go:82-93 | performed on the host, returns IoctlDispatch of the host's answer, appends only its effects and keeps the descriptor valid |
| Vfio.VfioFd.EventRegister | pkg/sentry/devices/tpuproxy/vfio.go:54-61 | the new queue, trace and error are those of AfterRegister, and the descriptor stays valid |
| Vfio.VfioFd.EventUnregister | pkg/sentry/devices/tpuproxy/vfio.go:64-69 | the new queue, trace and panic error are those of AfterUnregister; without a panic the descriptor stays valid |
| Vfio.VfioFd.Release | pkg/sentry/devices/tpuproxy/vfio.go:47-51 | the new queue and trace are those of AfterRelease, and the host subscription of the fd is gone |
| Host.SubscriptionFrame | pkg/sentry/devices/tpuproxy/vfio.go:56-57 | effects that are not a successful UpdateFD or a RemoveFD of the fd, such as a failed resync, leave the fd's host subscription as it was |

## Left out

- `ConfigureMMap` on both device descriptors: it only delegates to `vfs.GenericConfigureMMap`, which is not part of this model.
- `Readiness`: it only delegates to `fdnotifier.NonBlockingPoll` on the host fd, which is not part of this model.
- The host calls themselves (`ioctlInvoke`, `unix.Close`, `fdnotifier.UpdateFD`/`RemoveFD`): they are the oracle of `Host.HostKernel`, which records them and answers from its two function-valued constants. `unix.Close`'s error is discarded and `RemoveFD` returns nothing, so the trace records both calls without an answer.
- `log.Traceback` in MapInternal and `log.Warningf` in checkExtension: diagnostics only, with no effect on results.
- `kernel.TaskFromContext`: only whether a task exists matters, so it is the boolean `hasTask`.
- Waiter-queue internals, locking, and asynchronous delivery of readiness: the queue is a set of entries, operations are sequential, and the host's readiness events are not modelled.
- Waiter event masks are sets of events (`Readable`, `Priority`, `Writable`, `Error`, `HangUp`). The bit encoding of `waiter.EventMask` is not modelled.
- Vfio.VfioFd.EventRegister: requires an entry that is not already registered, since an intrusive list entry can be in only one queue. Rolling back is exact only then.
- Running `Release` once per descriptor is guaranteed by the reference-counted file description, which is not part of this model. After release the class does not refuse further calls.
- The descriptors' struct definitions, `vfioDevice` and `vfioFDMemmapFile` are not part of this model. A device descriptor is its kind and its host fd. The back-reference from the memmap file to the descriptor is the descriptor value.
- Opening the devices (`AddFD` and device discovery) is not part of this model. The `VfioFd` constructor starts from a host fd with no subscription and an empty queue.
