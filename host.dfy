/**
 * The world outside the passthrough descriptors: the host kernel (ioctl,
 * close), the readiness bridge to it (fdnotifier) and the waiters that a
 * descriptor wakes. None of it is modelled in detail: the host answers
 * each interaction through an oracle, and everything the outside world
 * observes is appended, in order, to one trace.
 */
module Host {

  /** A machine word (Go `uintptr`, a syscall argument register). */
  type Word = x: int | 0 <= x < 0x1_0000_0000_0000_0000

  /** A Go `uint32`. */
  type Uint32 = x: int | 0 <= x < 0x1_0000_0000

  /** A Go `int32`, e.g. a host file descriptor or an extension code. */
  type Int32 = x: int | -0x8000_0000 <= x < 0x8000_0000

  /** A Linux error number. */
  datatype Errno = Errno(code: nat)

  const EINVAL := Errno(22)
  const ENOSYS := Errno(38)

  /** What a host ioctl returns: a value, or an error number. */
  datatype Reply = Ok(value: Word) | Failed(errno: Errno)

  /** The readiness events a waiter can be interested in. */
  datatype Event = Readable | Priority | Writable | Error | HangUp

  type EventMask = set<Event>

  /** A waiter-queue entry: an identity and the events it waits for. */
  datatype Entry = Entry(id: nat, mask: EventMask)

  /** One interaction of a descriptor with the outside world. */
  datatype Effect =
    | Invoked(fd: int, cmd: nat, arg: int, reply: Reply)       // host ioctl and its reply
    | Updated(fd: int, mask: EventMask, result: Option<Errno>) // fdnotifier.UpdateFD
    | Removed(fd: int)                                         // fdnotifier.RemoveFD
    | Notified(waiters: set<Entry>, events: EventMask)         // waiters woken by the queue
    | Closed(fd: int)                                          // close(2) on the host fd

  datatype Option<T> = None | Some(value: T)

  /** True when `e` decides the host's readiness subscription of `fd`. */
  predicate Touches(e: Effect, fd: int)
  {
    (e.Updated? && e.fd == fd && e.result.None?) || (e.Removed? && e.fd == fd)
  }

  /**
   * The host readiness subscription of `fd` after the effects `t`: the mask
   * of the last successful UpdateFD, or nothing once the fd is removed. A
   * failed UpdateFD leaves the previous subscription in place.
   */
  function Subscription(t: seq<Effect>, fd: int): EventMask
  {
    if t == [] then {}
    else
      var last := t[|t| - 1];
      if last.Updated? && last.fd == fd && last.result.None? then last.mask
      else if last.Removed? && last.fd == fd then {}
      else Subscription(t[..|t| - 1], fd)
  }

  /** One effect appended: only an effect that touches `fd` changes its subscription. */
  lemma SubscriptionStep(t: seq<Effect>, e: Effect, fd: int)
    ensures Subscription(t + [e], fd) ==
      if e.Updated? && e.fd == fd && e.result.None? then e.mask
      else if e.Removed? && e.fd == fd then {}
      else Subscription(t, fd)
  {
    assert (t + [e])[..|t|] == t;
  }

  /** Effects that do not touch `fd` leave its subscription as it was. */
  lemma {:induction false} SubscriptionFrame(t: seq<Effect>, u: seq<Effect>, fd: int)
    requires forall i :: 0 <= i < |u| ==> !Touches(u[i], fd)
    ensures Subscription(t + u, fd) == Subscription(t, fd)
  {
    if u != [] {
      var v := u[..|u| - 1];
      assert t + u == (t + v) + [u[|u| - 1]];
      SubscriptionStep(t + v, u[|u| - 1], fd);
      SubscriptionFrame(t, v, fd);
    } else {
      assert t + u == t;
    }
  }

  /**
   * The host seen by a descriptor. `ioctlReply(n)` and `updateResult(n)` are
   * the host's answers to an ioctl or an UpdateFD issued as the n-th
   * interaction; any host behaviour is one choice of these two functions.
   */
  class HostKernel {
    var trace: seq<Effect>
    const ioctlReply: nat -> Reply
    const updateResult: nat -> Option<Errno>

    constructor (ioctlReply: nat -> Reply, updateResult: nat -> Option<Errno>)
      ensures trace == []
      ensures this.ioctlReply == ioctlReply && this.updateResult == updateResult
    {
      trace := [];
      this.ioctlReply := ioctlReply;
      this.updateResult := updateResult;
    }

    /** ioctlInvoke: one ioctl on a host fd, answered by the oracle. */
    method Invoke(fd: int, cmd: nat, arg: int) returns (r: Reply)
      modifies this
      ensures r == ioctlReply(|old(trace)|)
      ensures trace == old(trace) + [Invoked(fd, cmd, arg, r)]
    {
      r := ioctlReply(|trace|);
      trace := trace + [Invoked(fd, cmd, arg, r)];
    }

    /** fdnotifier.UpdateFD: resubscribe `fd` for `mask`; it may fail. */
    method UpdateFD(fd: int, mask: EventMask) returns (err: Option<Errno>)
      modifies this
      ensures err == updateResult(|old(trace)|)
      ensures trace == old(trace) + [Updated(fd, mask, err)]
    {
      err := updateResult(|trace|);
      trace := trace + [Updated(fd, mask, err)];
    }

    /** fdnotifier.RemoveFD: drop the readiness subscription of `fd`. */
    method RemoveFD(fd: int)
      modifies this
      ensures trace == old(trace) + [Removed(fd)]
    {
      trace := trace + [Removed(fd)];
    }

    /** Wake the given waiters with the given events. */
    method Wake(waiters: set<Entry>, events: EventMask)
      modifies this
      ensures trace == old(trace) + [Notified(waiters, events)]
    {
      trace := trace + [Notified(waiters, events)];
    }

    /** close(2) on a host fd; its error is discarded by the caller. */
    method Close(fd: int)
      modifies this
      ensures trace == old(trace) + [Closed(fd)]
    {
      trace := trace + [Closed(fd)];
    }
  }
}
