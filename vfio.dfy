/**
 * The VFIO container descriptor (/dev/vfio/vfio): an ioctl surface that
 * forwards only the extension check, for only the three IOMMU models of
 * the Linux VFIO UAPI, and a waiter queue whose host readiness
 * subscription is kept in step with the waiters it holds.
 *
 * The pure functions below say what each operation does to the queue and
 * to the trace of host interactions, given the host's answer; the class
 * VfioFd performs the same operations in place and is proved against them.
 */
module Vfio {
  import opened Host

  // Constants of the Linux VFIO UAPI (include/uapi/linux/vfio.h).
  const VFIO_CHECK_EXTENSION: nat := 0x3B65  // _IO(VFIO_TYPE ';', VFIO_BASE 100 + 1)
  const VFIO_TYPE1_IOMMU: Int32 := 1
  const VFIO_SPAPR_TCE_IOMMU: Int32 := 2
  const VFIO_TYPE1v2_IOMMU: Int32 := 3

  /** The IOMMU models a guest may ask the host about. */
  predicate Allowed(ext: int)
  {
    ext in {VFIO_TYPE1_IOMMU, VFIO_SPAPR_TCE_IOMMU, VFIO_TYPE1v2_IOMMU}
  }

  /** extension.String: the display name of an extension code, "" when it has none. */
  function ExtensionName(ext: Int32): (s: string)
    ensures s != "" <==> Allowed(ext)
  {
    if ext == VFIO_TYPE1_IOMMU then "VFIO_TYPE1_IOMMU"
    else if ext == VFIO_SPAPR_TCE_IOMMU then "VFIO_SPAPR_TCE_IOMMU"
    else if ext == VFIO_TYPE1v2_IOMMU then "VFIO_TYPE1v2_IOMMU"
    else ""
  }

  /** Distinct allowed codes have distinct names. */
  lemma ExtensionNamesDistinct(a: Int32, b: Int32)
    requires ExtensionName(a) == ExtensionName(b) != ""
    ensures a == b
  {
  }

  /** What an ioctl returns to the guest, and the host interactions it made. */
  datatype IoctlResult = IoctlResult(ret: Word, err: Option<Errno>, effects: seq<Effect>)

  /**
   * checkExtension: an allowed code is forwarded to the host as exactly one
   * VFIO_CHECK_EXTENSION ioctl whose answer (`reply`) comes back unchanged;
   * any other code is refused with EINVAL before the host is asked.
   */
  function ExtensionCheck(hostFd: Int32, ext: Int32, reply: Reply): (r: IoctlResult)
    ensures r.effects != [] <==> Allowed(ext)
    ensures !Allowed(ext) ==> r.ret == 0 && r.err == Some(EINVAL)
    ensures Allowed(ext) ==> r.effects == [Invoked(hostFd, VFIO_CHECK_EXTENSION, ext, reply)]
    ensures Allowed(ext) && reply.Ok? ==> r.ret == reply.value && r.err.None?
    ensures Allowed(ext) && reply.Failed? ==> r.ret == 0 && r.err == Some(reply.errno)
  {
    if Allowed(ext) then
      var effects := [Invoked(hostFd, VFIO_CHECK_EXTENSION, ext, reply)];
      match reply
      case Failed(errno) => IoctlResult(0, Some(errno), effects)
      case Ok(value) => IoctlResult(value, None, effects)
    else
      IoctlResult(0, Some(EINVAL), [])
  }

  /** For a refused code, the host's behaviour cannot influence the answer. */
  lemma RefusedCodeIgnoresHost(hostFd: Int32, ext: Int32, reply1: Reply, reply2: Reply)
    requires !Allowed(ext)
    ensures ExtensionCheck(hostFd, ext, reply1) == ExtensionCheck(hostFd, ext, reply2)
  {
  }

  /** Every code that is forwarded to the host has a display name for the warning. */
  lemma ForwardedCodesAreNamed(hostFd: Int32, ext: Int32, reply: Reply)
    requires ExtensionCheck(hostFd, ext, reply).effects != []
    ensures ExtensionName(ext) != ""
  {
  }

  /** SyscallArgument.Uint: the low 32 bits of an argument register. */
  function Uint32Of(w: Word): (r: Uint32)
    ensures (w - r) % 0x1_0000_0000 == 0
  {
    w % 0x1_0000_0000
  }

  /** SyscallArgument.Int: the low 32 bits of an argument register, as a signed value. */
  function Int32Of(w: Word): (r: Int32)
    ensures (w - r) % 0x1_0000_0000 == 0
  {
    var u := w % 0x1_0000_0000;
    if u < 0x8000_0000 then u else u - 0x1_0000_0000
  }

  /** The register word that holds a 32-bit value sign-extended to 64 bits. */
  function SignExtended(x: Int32): Word
  {
    if x < 0 then x + 0x1_0000_0000_0000_0000 else x
  }

  /** A 32-bit code the guest passes reaches the extension check unchanged. */
  lemma ArgumentRoundTrip(x: Int32)
    ensures Int32Of(SignExtended(x)) == x
    ensures Int32Of(x % 0x1_0000_0000) == x
  {
    if x < 0 {
      assert SignExtended(x) % 0x1_0000_0000 == x + 0x1_0000_0000;
    }
  }

  /** The outcome of an ioctl: it returns, or the sentry panics. */
  datatype Dispatch = Done(result: IoctlResult) | Panic(msg: string)

  /**
   * Ioctl: called off a task context it panics; the command is the low 32
   * bits of the second argument, and only VFIO_CHECK_EXTENSION (with the
   * third argument as the code) is served; anything else is ENOSYS.
   */
  function IoctlDispatch(hasTask: bool, hostFd: Int32, args: seq<Word>, reply: Reply): (r: Dispatch)
    requires |args| == 6
    ensures !hasTask <==> r.Panic?
    ensures hasTask && Uint32Of(args[1]) != VFIO_CHECK_EXTENSION ==>
      r == Done(IoctlResult(0, Some(ENOSYS), []))
    ensures hasTask && Uint32Of(args[1]) == VFIO_CHECK_EXTENSION ==>
      r == Done(ExtensionCheck(hostFd, Int32Of(args[2]), reply))
  {
    var cmd := Uint32Of(args[1]);
    if !hasTask then Panic("Ioctl should be called from a task context")
    else if cmd == VFIO_CHECK_EXTENSION then Done(ExtensionCheck(hostFd, Int32Of(args[2]), reply))
    else Done(IoctlResult(0, Some(ENOSYS), []))
  }

  /**
   * The whole host surface of the container ioctl: at most one host call,
   * and it is the extension check of an allowed code on this descriptor's
   * host fd.
   */
  lemma IoctlSurface(hasTask: bool, hostFd: Int32, args: seq<Word>, reply: Reply)
    requires |args| == 6
    ensures var d := IoctlDispatch(hasTask, hostFd, args, reply);
      d.Done? ==>
        |d.result.effects| <= 1 &&
        forall e <- d.result.effects ::
          e.Invoked? && e.fd == hostFd && e.cmd == VFIO_CHECK_EXTENSION && Allowed(e.arg)
  {
  }

  // ---- Waiter queue and host readiness subscription ----

  /** The events some waiter in `q` is interested in. */
  function Interest(q: set<Entry>): EventMask
  {
    set e, ev | e in q && ev in e.mask :: ev
  }

  /** The descriptor's state: its waiters and the trace of its host interactions. */
  datatype Control = Control(queue: set<Entry>, trace: seq<Effect>)

  /** The host subscription of `hostFd` is exactly what the waiters are interested in. */
  predicate Synced(hostFd: Int32, c: Control)
  {
    Subscription(c.trace, hostFd) == Interest(c.queue)
  }

  /**
   * Each descriptor owns its host fd: ioctls, wake-ups and whatever other
   * descriptors do with their own host fds leave this descriptor in step.
   */
  lemma OthersKeepSync(hostFd: Int32, c: Control, u: seq<Effect>)
    requires Synced(hostFd, c)
    requires forall i :: 0 <= i < |u| ==> u[i].Invoked? || u[i].Notified? || u[i].fd != hostFd
    ensures Synced(hostFd, Control(c.queue, c.trace + u))
  {
    SubscriptionFrame(c.trace, u, hostFd);
  }

  /** The state after an operation, and the error it returns (or panics with). */
  datatype Step = Step(next: Control, err: Option<Errno>)

  /**
   * EventRegister: add the waiter, then resync the host subscription with
   * the queue's interest. If the resync fails (`result` is the host's
   * answer) the waiter is removed again and the error returned.
   */
  function AfterRegister(hostFd: Int32, c: Control, e: Entry, result: Option<Errno>): (r: Step)
    requires e !in c.queue
    ensures r.err == result
    ensures r.next.trace == c.trace + [Updated(hostFd, Interest(c.queue + {e}), result)]
    ensures result.Some? ==> r.next.queue == c.queue
    ensures result.None? ==> r.next.queue == c.queue + {e}
  {
    var q := c.queue + {e};
    var t := c.trace + [Updated(hostFd, Interest(q), result)];
    if result.Some? then Step(Control(q - {e}, t), result) else Step(Control(q, t), None)
  }

  /** Registration keeps the host subscription in step with the waiters, whether the resync succeeds or not. */
  lemma RegisterKeepsSync(hostFd: Int32, c: Control, e: Entry, result: Option<Errno>)
    requires Synced(hostFd, c) && e !in c.queue
    ensures Synced(hostFd, AfterRegister(hostFd, c, e, result).next)
  {
    SubscriptionStep(c.trace, Updated(hostFd, Interest(c.queue + {e}), result), hostFd);
  }

  /**
   * EventUnregister: remove the waiter, then resync once. A failed resync
   * is fatal: `err` is the error the descriptor panics with.
   */
  function AfterUnregister(hostFd: Int32, c: Control, e: Entry, result: Option<Errno>): (r: Step)
    ensures r.err == result
    ensures e !in r.next.queue && r.next.queue + {e} == c.queue + {e}
    ensures r.next.trace == c.trace + [Updated(hostFd, Interest(r.next.queue), result)]
  {
    var q := c.queue - {e};
    Step(Control(q, c.trace + [Updated(hostFd, Interest(q), result)]), result)
  }

  /** An unregistration that does not panic keeps the subscription in step. */
  lemma UnregisterKeepsSync(hostFd: Int32, c: Control, e: Entry, result: Option<Errno>)
    requires Synced(hostFd, c) && result.None?
    ensures Synced(hostFd, AfterUnregister(hostFd, c, e, result).next)
  {
    var q := c.queue - {e};
    SubscriptionStep(c.trace, Updated(hostFd, Interest(q), result), hostFd);
  }

  /**
   * Why a failed resync must be fatal: when the departing waiter was the
   * only one interested in some event, the host would go on reporting that
   * event to a queue that no longer wants it.
   */
  lemma FailedUnregisterDesyncs(hostFd: Int32, c: Control, e: Entry, ev: Event, err: Errno)
    requires Synced(hostFd, c) && e in c.queue && ev in e.mask
    requires ev !in Interest(c.queue - {e})
    ensures !Synced(hostFd, AfterUnregister(hostFd, c, e, Some(err)).next)
  {
    var q := c.queue - {e};
    SubscriptionStep(c.trace, Updated(hostFd, Interest(q), Some(err)), hostFd);
    assert ev in Interest(c.queue);
  }

  /**
   * Registering a new waiter and unregistering it again, both resyncs
   * succeeding, restores the queue and the host subscription, at the cost
   * of exactly two resyncs.
   */
  lemma RegisterThenUnregister(hostFd: Int32, c: Control, e: Entry)
    requires Synced(hostFd, c) && e !in c.queue
    ensures var c' := AfterUnregister(hostFd, AfterRegister(hostFd, c, e, None).next, e, None).next;
      c'.queue == c.queue &&
      Subscription(c'.trace, hostFd) == Subscription(c.trace, hostFd) &&
      c'.trace == c.trace + [Updated(hostFd, Interest(c.queue + {e}), None), Updated(hostFd, Interest(c.queue), None)]
  {
    var c1 := AfterRegister(hostFd, c, e, None).next;
    RegisterKeepsSync(hostFd, c, e, None);
    UnregisterKeepsSync(hostFd, c1, e, None);
    assert c1.queue - {e} == c.queue;
  }

  /** The waiters a hang-up reaches: those interested in it (waiter.Queue.Notify). */
  function HangUpWaiters(q: set<Entry>): (w: set<Entry>)
    ensures w <= q && forall e <- q :: e in w <==> HangUp in e.mask
  {
    set e | e in q && HangUp in e.mask
  }

  /**
   * Release: drop the host readiness subscription, then wake the waiters
   * with a hang-up, then close the host fd, in that order.
   */
  function AfterRelease(hostFd: Int32, c: Control): (r: Control)
    ensures r.queue == c.queue
    ensures r.trace == c.trace + [Removed(hostFd), Notified(HangUpWaiters(c.queue), {HangUp}), Closed(hostFd)]
  {
    Control(c.queue, c.trace + [Removed(hostFd), Notified(HangUpWaiters(c.queue), {HangUp}), Closed(hostFd)])
  }

  /** How many hang-ups the effects `t` deliver to waiter `w`. */
  function HangUpsTo(t: seq<Effect>, w: Entry): nat
  {
    if t == [] then 0
    else (if t[0].Notified? && w in t[0].waiters && HangUp in t[0].events then 1 else 0) + HangUpsTo(t[1..], w)
  }

  /** After release the host no longer reports readiness for the fd. */
  lemma ReleaseUnsubscribes(hostFd: Int32, c: Control)
    ensures Subscription(AfterRelease(hostFd, c).trace, hostFd) == {}
  {
    var t := c.trace + [Removed(hostFd)];
    SubscriptionStep(c.trace, Removed(hostFd), hostFd);
    SubscriptionStep(t, Notified(HangUpWaiters(c.queue), {HangUp}), hostFd);
    assert t + [Notified(HangUpWaiters(c.queue), {HangUp})] + [Closed(hostFd)] == AfterRelease(hostFd, c).trace;
    SubscriptionStep(t + [Notified(HangUpWaiters(c.queue), {HangUp})], Closed(hostFd), hostFd);
  }

  /**
   * Release delivers exactly one hang-up to every registered waiter that
   * listens for it, none to any other, and does so before the host fd is
   * closed.
   */
  lemma ReleaseHangsUpOnce(hostFd: Int32, c: Control, w: Entry)
    ensures var t := AfterRelease(hostFd, c).trace[|c.trace|..];
      HangUpsTo(t, w) == (if w in c.queue && HangUp in w.mask then 1 else 0) &&
      HangUpsTo(t[..2], w) == HangUpsTo(t, w) && t[2] == Closed(hostFd)
  {
    var n := Notified(HangUpWaiters(c.queue), {HangUp});
    var t := AfterRelease(hostFd, c).trace[|c.trace|..];
    assert t == [Removed(hostFd), n, Closed(hostFd)];
    var k := if w in c.queue && HangUp in w.mask then 1 else 0;
    assert HangUpsTo([], w) == 0;
    assert HangUpsTo([Closed(hostFd)], w) == 0;
    assert [n, Closed(hostFd)][1..] == [Closed(hostFd)];
    assert HangUpsTo([n, Closed(hostFd)], w) == k;
    assert t[1..] == [n, Closed(hostFd)];
    assert [n][1..] == [];
    assert HangUpsTo([n], w) == k;
    assert t[..2] == [Removed(hostFd), n] && t[..2][1..] == [n];
  }

  /**
   * The container descriptor. `queue` is the waiter queue; `host` answers
   * the descriptor's host calls and records them. Valid() is the invariant
   * that the host subscription matches the waiters.
   */
  class VfioFd {
    const hostFd: Int32
    const host: HostKernel
    var queue: set<Entry>

    ghost function State(): Control
      reads this, host
    {
      Control(queue, host.trace)
    }

    ghost predicate Valid()
      reads this, host
    {
      Synced(hostFd, State())
    }

    /** A descriptor opened on a host fd with no readiness subscription yet. */
    constructor (hostFd: Int32, host: HostKernel)
      requires Subscription(host.trace, hostFd) == {}
      ensures this.hostFd == hostFd && this.host == host && queue == {}
      ensures Valid()
    {
      this.hostFd := hostFd;
      this.host := host;
      queue := {};
      assert Interest({}) == {};
    }

    /** Epollable: the descriptor always takes part in epoll. */
    function Epollable(): (r: bool)
      ensures r
    {
      true
    }

    /** checkExtension, performed against the host. */
    method CheckExtension(ext: Int32) returns (ret: Word, err: Option<Errno>)
      requires Valid()
      modifies host
      ensures Valid()
      ensures var r := ExtensionCheck(hostFd, ext, host.ioctlReply(|old(host.trace)|));
        ret == r.ret && err == r.err && host.trace == old(host.trace) + r.effects
    {
      if Allowed(ext) {
        SubscriptionStep(host.trace, Invoked(hostFd, VFIO_CHECK_EXTENSION, ext, host.ioctlReply(|host.trace|)), hostFd);
        var reply := host.Invoke(hostFd, VFIO_CHECK_EXTENSION, ext);
        var r := ExtensionCheck(hostFd, ext, reply);
        ret, err := r.ret, r.err;
      } else {
        ret, err := 0, Some(EINVAL);
      }
    }

    /** Ioctl, performed against the host. */
    method Ioctl(hasTask: bool, args: seq<Word>) returns (d: Dispatch)
      requires Valid() && |args| == 6
      modifies host
      ensures Valid()
      ensures d == IoctlDispatch(hasTask, hostFd, args, host.ioctlReply(|old(host.trace)|))
      ensures host.trace == old(host.trace) + (if d.Done? then d.result.effects else [])
    {
      var cmd := Uint32Of(args[1]);
      if !hasTask {
        return Panic("Ioctl should be called from a task context");
      }
      if cmd == VFIO_CHECK_EXTENSION {
        var before := |host.trace|;
        var ret, err := CheckExtension(Int32Of(args[2]));
        d := Done(IoctlResult(ret, err, host.trace[before..]));
      } else {
        d := Done(IoctlResult(0, Some(ENOSYS), []));
      }
    }

    /** EventRegister, performed against the host. */
    method EventRegister(e: Entry) returns (err: Option<Errno>)
      requires Valid() && e !in queue
      modifies this, host
      ensures Valid()
      ensures Step(State(), err) == AfterRegister(hostFd, old(State()), e, host.updateResult(|old(host.trace)|))
    {
      ghost var c := State();
      RegisterKeepsSync(hostFd, c, e, host.updateResult(|host.trace|));
      queue := queue + {e};
      err := host.UpdateFD(hostFd, Interest(queue));
      if err.Some? {
        queue := queue - {e};
      }
    }

    /**
     * EventUnregister, performed against the host. `panicked` is the
     * resync error the descriptor panics with; without one it stays valid.
     */
    method EventUnregister(e: Entry) returns (panicked: Option<Errno>)
      requires Valid()
      modifies this, host
      ensures Step(State(), panicked) == AfterUnregister(hostFd, old(State()), e, host.updateResult(|old(host.trace)|))
      ensures panicked.None? ==> Valid()
    {
      ghost var c := State();
      if host.updateResult(|host.trace|).None? {
        UnregisterKeepsSync(hostFd, c, e, None);
      }
      queue := queue - {e};
      panicked := host.UpdateFD(hostFd, Interest(queue));
    }

    /** Release, performed against the host. */
    method Release()
      modifies host
      ensures State() == AfterRelease(hostFd, old(State()))
      ensures Subscription(host.trace, hostFd) == {}
    {
      ReleaseUnsubscribes(hostFd, State());
      host.RemoveFD(hostFd);
      host.Wake(HangUpWaiters(queue), {HangUp});
      host.Close(hostFd);
    }
  }
}
