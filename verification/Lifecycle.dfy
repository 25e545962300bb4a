/** Starting, stopping and restarting contexts over a small kernel model
    (src/vcd/methods/vx/vx_start.c, vx_stop.c, vx_restart.c, src/vshelper/main.c).

A context exists while it has tasks or its PERSISTENT bit; the bits NXF_PERSISTENT and VXF_PERSISTENT
are the same, as the helper uses them interchangeably.
*/
module Lifecycle {
  import opened Wrappers
  import opened Rebirth

  // ----- the kernel

  /** A context or network context; `born` tells apart successive contexts with the same id. */
  datatype Ctx = Ctx(tasks: nat, pinned: bool, born: nat)

  /** The kernel's view of one id, and how many contexts it has created so far. */
  datatype Kernel = Kernel(net: Option<Ctx>, ctx: Option<Ctx>, births: nat)

  /** A context without tasks and without the bit is gone. */
  function Reap(c: Option<Ctx>): Option<Ctx> {
    if c.Some? && c.value.tasks == 0 && !c.value.pinned then None else c
  }

  function Unpin(c: Option<Ctx>): Option<Ctx> {
    if c.Some? then Reap(Some(c.value.(pinned := false))) else None
  }

  ghost predicate Living(c: Option<Ctx>, births: nat) {
    c.Some? ==> (c.value.tasks > 0 || c.value.pinned) && c.value.born < births
  }

  ghost predicate Sane(k: Kernel) {
    Living(k.net, k.births) && Living(k.ctx, k.births)
  }

  predicate Pinned(c: Option<Ctx>) {
    c.Some? && c.value.pinned
  }

  function ClearPins(k: Kernel): Kernel {
    k.(net := Unpin(k.net), ctx := Unpin(k.ctx))
  }

  datatype Fault = NoFault | Stopped | Running | Busy | SysError | ExecFailed

  /** How the calls of vx.start end: fork, and nx_create and vx_create in the child, which only prints their
      failures. */
  datatype Calls = Calls(forks: bool, netMade: bool, made: bool)

  /** vx.start once the id is known. */
  method VxStart(k: Kernel, calls: Calls) returns (out: Kernel, fault: Fault)
    requires Sane(k)
    ensures Sane(out) && out == StartKernel(k, calls)
    ensures fault == Running <==> k.ctx.Some? && k.ctx.value.tasks > 0
    ensures fault == NoFault <==> fault != Running && calls.forks
    ensures fault == NoFault ==> out.births == k.births + 1 && out.ctx == if calls.made then Some(Ctx(0, true, k.births)) else None
    ensures fault == NoFault && calls.netMade ==> out.net.Some?
    ensures fault != NoFault ==> out == ClearPins(k) && !Pinned(out.ctx) && !Pinned(out.net)
    ensures k.ctx.Some? && k.ctx.value.tasks == 0 ==> out.ctx.None? || out.ctx.value.born > k.ctx.value.born
    ensures k.net.Some? && k.net.value.tasks == 0 ==> out.net.None? || out.net.value.born > k.net.value.born
  {
    // clear the bit in case an earlier helper failed
    out := k.(net := Unpin(k.net));
    out := out.(ctx := Unpin(out.ctx));
    if out.ctx.Some? {
      return out, Running;
    }
    if !calls.forks {
      return out, SysError;
    }
    // nx_create fails on an existing network context
    if out.net.None? && calls.netMade {
      out := out.(net := Some(Ctx(0, true, k.births)));
    }
    if calls.made {
      out := out.(ctx := Some(Ctx(0, true, k.births)));
    }
    return out.(births := k.births + 1), NoFault;
  }

  /** The poll loop of the startup helper, run after init was forked into the context. `seen(n)` is the
      kernel at poll n and `answers(n)` whether vx_stat works. Both ways out clear the bits. */
  method HelperStartupLoop(seen: nat -> Kernel, answers: nat -> bool) returns (out: Kernel, ok: bool, polls: nat)
    ensures polls <= 15 && out == ClearPins(seen(polls))
    ensures !Pinned(out.ctx) && !Pinned(out.net)
    ensures ok <==> exists n: nat | 1 <= n <= 15 :: answers(n) && seen(n).ctx.Some? && seen(n).ctx.value.tasks > 1
    ensures ok ==> forall n: nat | 1 <= n < polls :: !(answers(n) && seen(n).ctx.Some? && seen(n).ctx.value.tasks > 1)
  {
    var n: nat := 0;
    while n < 15
      invariant n <= 15
      invariant forall m: nat | 1 <= m <= n :: !(answers(m) && seen(m).ctx.Some? && seen(m).ctx.value.tasks > 1)
    {
      n := n + 1;
      if answers(n) && seen(n).ctx.Some? && seen(n).ctx.value.tasks > 1 {
        return ClearPins(seen(n)), true, n;
      }
    }
    return ClearPins(seen(n)), false, n;
  }

  // ----- whole histories of one context id

  datatype Helper = Idle | Working | GaveUpEarly

  datatype World = World(k: Kernel, helper: Helper)

  datatype Event =
    | Start(calls: Calls)     // vx.start
    | EarlyReturn             // the startup helper fails before its poll loop
    | LoopExit                // the poll loop ends
    | HaltOrRestart           // vshelper_halt, vshelper_restart: clear the bits
    | Fork | Die              // a task of the context is created or ends
    | NetFork | NetDie        // a task of the network context is created or ends

  predicate Possible(w: World, e: Event) {
    match e
    case EarlyReturn => w.helper == Working
    case LoopExit => w.helper == Working
    case Fork => w.k.ctx.Some?
    case Die => w.k.ctx.Some? && w.k.ctx.value.tasks > 0
    case NetFork => w.k.net.Some?
    case NetDie => w.k.net.Some? && w.k.net.value.tasks > 0
    case _ => true
  }

  function StartKernel(k: Kernel, calls: Calls): Kernel {
    var c := ClearPins(k);
    if c.ctx.Some? || !calls.forks then c
    else Kernel(if c.net.None? && calls.netMade then Some(Ctx(0, true, k.births)) else c.net,
                if calls.made then Some(Ctx(0, true, k.births)) else None, k.births + 1)
  }

  function Tasks(c: Option<Ctx>, n: int): Option<Ctx>
    requires c.Some? && c.value.tasks + n >= 0
  {
    Reap(Some(c.value.(tasks := c.value.tasks + n)))
  }

  /** The kernel calls the startup helper for a new context; without one, a new network context has nobody
      to look after it. */
  function HelperAfterStart(w: World, k: Kernel): Helper {
    if k.births == w.k.births then w.helper else if k.ctx.Some? then Working else GaveUpEarly
  }

  function Next(w: World, e: Event): World
    requires Possible(w, e)
  {
    match e
    case Start(calls) =>
      var k := StartKernel(w.k, calls);
      World(k, HelperAfterStart(w, k))
    case EarlyReturn => w.(helper := GaveUpEarly)
    case LoopExit => World(ClearPins(w.k), Idle)
    case HaltOrRestart => w.(k := ClearPins(w.k))
    case Fork => w.(k := w.k.(ctx := Tasks(w.k.ctx, 1)))
    case Die => w.(k := w.k.(ctx := Tasks(w.k.ctx, -1)))
    case NetFork => w.(k := w.k.(net := Tasks(w.k.net, 1)))
    case NetDie => w.(k := w.k.(net := Tasks(w.k.net, -1)))
  }

  /** A pinned context or network context is either being set up by its helper or was given up early. */
  ghost predicate PinsExplained(w: World) {
    Sane(w.k) && (Pinned(w.k.ctx) ==> w.helper != Idle) && (Pinned(w.k.net) ==> w.helper != Idle)
  }

  lemma NextKeeps(w: World, e: Event)
    requires PinsExplained(w) && Possible(w, e)
    ensures PinsExplained(Next(w, e))
    ensures Next(w, e).k.births >= w.k.births
  {
  }

  ghost predicate IsHistory(ws: seq<World>, es: seq<Event>) {
    && |ws| == |es| + 1 && ws[0] == World(Kernel(None, None, 0), Idle)
    && forall i {:trigger es[i]} | 0 <= i < |es| :: Possible(ws[i], es[i]) && ws[i + 1] == Next(ws[i], es[i])
  }

  lemma {:induction false} HistoryKeeps(ws: seq<World>, es: seq<Event>, i: nat)
    requires IsHistory(ws, es) && i < |ws|
    ensures PinsExplained(ws[i])
  {
    if i > 0 {
      HistoryKeeps(ws, es, i - 1);
      NextKeeps(ws[i - 1], es[i - 1]);
    }
  }

  /** What the start makes of an earlier context or network context: without tasks it does not survive,
      whatever pinned it; with tasks it stays, and is not pinned any more. */
  ghost predicate Released(before: Option<Ctx>, after: Option<Ctx>) {
    before.Some? ==> if before.value.tasks == 0 then after.None? || after.value.born > before.value.born
                     else after == Some(before.value.(pinned := false))
  }

  /** No taskless context and no taskless network context outlives the next vx.start; afterwards only what
      that start has created is pinned, and its helper is at work or has nothing to work on. */
  lemma NoPinOutlivesStart(ws: seq<World>, es: seq<Event>, i: nat)
    requires IsHistory(ws, es) && i < |es| && es[i].Start?
    ensures Released(ws[i].k.ctx, ws[i + 1].k.ctx) && Released(ws[i].k.net, ws[i + 1].k.net)
    ensures Pinned(ws[i + 1].k.ctx) ==> ws[i + 1].k.ctx.value.born == ws[i].k.births && ws[i + 1].helper == Working
    ensures Pinned(ws[i + 1].k.net) ==> ws[i + 1].k.net.value.born == ws[i].k.births && ws[i + 1].helper != Idle
    ensures ws[i + 1].helper == if (ws[i].k.ctx.Some? && ws[i].k.ctx.value.tasks > 0) || !es[i].calls.forks then ws[i].helper
                                else if es[i].calls.made then Working else GaveUpEarly
  {
    HistoryKeeps(ws, es, i);
  }

  /** What remains of a context or network context whose pin is cleared. */
  ghost predicate Cleared(before: Option<Ctx>, after: Option<Ctx>) {
    after == if before.Some? && before.value.tasks > 0 then Some(before.value.(pinned := false)) else None
  }

  /** vshelper's halt and restart events and both ways out of the poll loop clear the pins: what has tasks stays,
      unpinned, and the rest is gone. A helper that returns early clears nothing. */
  lemma PinsCleared(ws: seq<World>, es: seq<Event>, i: nat)
    requires IsHistory(ws, es) && i < |es|
    ensures es[i].HaltOrRestart? || es[i].LoopExit? ==>
              Cleared(ws[i].k.ctx, ws[i + 1].k.ctx) && Cleared(ws[i].k.net, ws[i + 1].k.net)
    ensures es[i].LoopExit? ==> ws[i + 1].helper == Idle
    ensures es[i].HaltOrRestart? ==> ws[i + 1].helper == ws[i].helper
    ensures es[i].EarlyReturn? ==> ws[i + 1].k == ws[i].k && ws[i + 1].helper == GaveUpEarly
  {
    HistoryKeeps(ws, es, i);
  }

  /** The end of the last task ends a context or network context, unless it is pinned. */
  lemma LastTaskEnds(ws: seq<World>, es: seq<Event>, i: nat)
    requires IsHistory(ws, es) && i < |es|
    ensures es[i].Die? ==> ws[i].k.ctx.Some? && ws[i + 1].k.net == ws[i].k.net
                           && (ws[i + 1].k.ctx.None? <==> ws[i].k.ctx.value.tasks == 1 && !ws[i].k.ctx.value.pinned)
    ensures es[i].NetDie? ==> ws[i].k.net.Some? && ws[i + 1].k.ctx == ws[i].k.ctx
                              && (ws[i + 1].k.net.None? <==> ws[i].k.net.value.tasks == 1 && !ws[i].k.net.value.pinned)
    ensures es[i].Fork? ==> Pinned(ws[i + 1].k.ctx) == Pinned(ws[i].k.ctx) && ws[i + 1].k.ctx.Some? && ws[i + 1].k.ctx.value.tasks > 0
    ensures es[i].NetFork? ==> Pinned(ws[i + 1].k.net) == Pinned(ws[i].k.net) && ws[i + 1].k.net.Some? && ws[i + 1].k.net.value.tasks > 0
  {
    HistoryKeeps(ws, es, i);
  }

  // ----- stopping and restarting

  /** The context was seen gone within the timeout, and nothing went wrong before. */
  ghost predicate GoneWithin(info: nat -> Poll, timeout: int, k: nat) {
    1 <= k <= timeout && info(k) == Gone && forall m: nat | 1 <= m < k :: info(m) == Alive
  }

  /** vx.stop: `info(0)` is the check before the halt command, `info(n)` the n-th poll after it. */
  method VxStop(info: nat -> Poll, stored: Option<int>, halts: bool) returns (fault: Fault, polls: nat)
    ensures var timeout := if stored.Some? && stored.value >= 1 then stored.value else 15;
            && polls <= timeout
            && (fault == NoFault <==> info(0) == Alive && halts && exists k: nat :: GoneWithin(info, timeout, k))
            && (fault == Busy <==> info(0) == Alive && halts && forall k: nat | 1 <= k <= timeout :: info(k) == Alive)
            && (fault == Stopped <==> info(0) == Gone)
            && (fault == NoFault ==> GoneWithin(info, timeout, polls))
  {
    polls := 0;
    if info(0) == Gone {
      return Stopped, 0;
    }
    if info(0) == Failed {
      return SysError, 0;
    }
    var timeout := 15;
    if stored.Some? {
      timeout := stored.value;
      timeout := if timeout < 1 then 15 else timeout;
    }
    if !halts {
      return ExecFailed, 0;
    }
    var left := timeout;
    while left > 0
      invariant 0 <= left <= timeout && polls == timeout - left
      invariant forall m: nat | 1 <= m <= polls :: info(m) == Alive
    {
      left := left - 1;
      polls := polls + 1;
      if info(polls) == Gone {
        assert GoneWithin(info, timeout, polls);
        return NoFault, polls;
      }
      if info(polls) == Failed {
        return SysError, polls;
      }
    }
    return Busy, polls;
  }

  /** vx.restart: start is reached only after a stop that saw the context gone within the timeout; a
      fault of the stop ends the request. `after` is the kernel when the stop returns. */
  method VxRestart(info: nat -> Poll, stored: Option<int>, halts: bool, after: Kernel, calls: Calls)
    returns (out: Kernel, fault: Fault, started: bool)
    requires Sane(after)
    ensures var timeout := if stored.Some? && stored.value >= 1 then stored.value else 15;
            started <==> info(0) == Alive && halts && exists k: nat :: GoneWithin(info, timeout, k)
    ensures !started ==> out == after && fault != NoFault
    ensures started ==> (fault == NoFault <==> calls.forks && !(after.ctx.Some? && after.ctx.value.tasks > 0))
  {
    var polls;
    fault, polls := VxStop(info, stored, halts);
    if fault != NoFault {
      return after, fault, false;
    }
    started := true;
    out, fault := VxStart(after, calls);
  }

  // ----- nested calls and the lock

  /** A method call with the internal calls it makes; `locks` is the flag M_LOCK. */
  datatype CallTree = CallTree(locks: bool, calls: seq<CallTree>)

  /** One request process; `locked` says whether method_lock has taken its lock. */
  class Process {
    var locked: bool
    var attempts: nat
    var fault: bool

    constructor ()
      ensures !locked && attempts == 0 && !fault
    {
      locked, attempts, fault := false, 0, false;
    }

    /** method_init and the body of a method; once a fault is set, nothing else happens. `admitted` says
        whether an external call passes login, capability, name and owner checks, `free` whether F_TEST would
        find the lock free. */
    method Invoke(c: CallTree, internal: bool, admitted: bool, free: bool)
      modifies this
      ensures attempts == old(attempts) + (if !internal && admitted && c.locks && !old(fault) then 1 else 0)
      ensures internal ==> locked == old(locked)
      ensures old(fault) ==> fault && locked == old(locked)
      ensures fault <==> old(fault) || (!internal && (!admitted || (c.locks && (old(locked) || !free))))
      ensures locked <==> old(locked) || (!old(fault) && !internal && admitted && c.locks && free)
      ensures locked && !old(locked) ==> !internal && admitted && c.locks && free
      decreases c
    {
      if fault {
        return;
      }
      if !internal {
        if !admitted {
          fault := true;
          return;
        }
        if c.locks {
          attempts := attempts + 1;
          if locked || !free {
            fault := true;
          } else {
            locked := true;
          }
        }
      }
      var i := 0;
      while i < |c.calls| && !fault
        invariant 0 <= i <= |c.calls|
        invariant attempts == old(attempts) + (if !internal && c.locks then 1 else 0)
        invariant internal ==> locked == old(locked)
        invariant locked && !old(locked) ==> !internal && c.locks && free
        invariant fault <==> !internal && c.locks && (old(locked) || !free)
        invariant locked <==> old(locked) || (!internal && c.locks && free)
      {
        Invoke(c.calls[i], true, true, free);
        i := i + 1;
      }
    }
  }

  /** One external request tries to take a lock at most once, however its calls are nested: once iff it is
      admitted and its own method has M_LOCK, even if the methods it calls have it too. It ends with the lock
      iff that was free, and is refused iff it is not admitted or finds the lock taken. */
  method ServeRequest(c: CallTree, admitted: bool, free: bool) returns (attempts: nat, locked: bool, refused: bool)
    ensures attempts <= 1 && (attempts == 1 <==> admitted && c.locks)
    ensures locked <==> attempts == 1 && free
    ensures refused <==> !admitted || (c.locks && !free)
  {
    var p := new Process();
    p.Invoke(c, false, admitted, free);
    return p.attempts, p.locked, p.fault;
  }
}
