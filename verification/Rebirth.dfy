/** Automatic restart of contexts: helper.restart records a request, helper.shutdown consumes it and
    waits in a child process before it starts the context again
    (src/vcd/methods/helper/helper_restart.c, helper_shutdown.c). */
module Rebirth {

  /** What nx_info or vx_info reports: still there, ESRCH, or another error. */
  datatype Poll = Alive | Gone | Failed

  datatype Outcome = Start | NetBusy | ContextBusy | SysFault

  /** The child may start the context: the network context was seen gone at poll i and the context at
      the later poll j, with nothing but "still there" before. */
  ghost predicate StartsAt(nx: nat -> Poll, vx: nat -> Poll, timeout: int, i: nat, j: nat) {
    && 1 <= i < j <= timeout && nx(i) == Gone && vx(j) == Gone
    && (forall k: nat | 1 <= k < i :: nx(k) == Alive)
    && (forall k: nat | i < k < j :: vx(k) == Alive)
  }

  /** The network context was seen gone at poll i, the context itself never. */
  ghost predicate NetGoneOnly(nx: nat -> Poll, vx: nat -> Poll, timeout: int, i: nat) {
    && 1 <= i <= timeout && nx(i) == Gone
    && (forall k: nat | 1 <= k < i :: nx(k) == Alive)
    && (forall k: nat | i < k <= timeout :: vx(k) == Alive)
  }

  /** The two loops of the child; nx(n) and vx(n) are what the n-th poll would see. One counter runs
      through both loops. */
  method WaitForExit(nx: nat -> Poll, vx: nat -> Poll, timeout: int) returns (out: Outcome, polls: nat)
    requires timeout >= 1
    ensures polls <= timeout
    ensures out == Start <==> exists i: nat, j: nat :: StartsAt(nx, vx, timeout, i, j)
    ensures out == NetBusy <==> forall k: nat | 1 <= k <= timeout :: nx(k) == Alive
    ensures out == ContextBusy <==> exists i: nat :: NetGoneOnly(nx, vx, timeout, i)
  {
    polls := 0;
    var n: nat := 0;
    var netGone := false;
    while n < timeout
      invariant n <= timeout && polls == n && !netGone
      invariant forall k: nat | 1 <= k <= n :: nx(k) == Alive
    {
      n := n + 1;
      polls := polls + 1;
      if nx(n) == Failed {
        return SysFault, polls;
      }
      if nx(n) == Gone {
        netGone := true;
        break;
      }
    }
    if !netGone {
      return NetBusy, polls;
    }
    var i := n;
    while n < timeout
      invariant i <= n <= timeout && polls == n
      invariant forall k: nat | i < k <= n :: vx(k) == Alive
    {
      n := n + 1;
      polls := polls + 1;
      if vx(n) == Failed {
        return SysFault, polls;
      }
      if vx(n) == Gone {
        assert StartsAt(nx, vx, timeout, i, n);
        return Start, polls;
      }
    }
    assert NetGoneOnly(nx, vx, timeout, i);
    return ContextBusy, polls;
  }

  /** init.timeout as the child uses it. */
  function EffectiveTimeout(stored: int): int {
    if stored < 1 then 15 else stored
  }

  /** Both loops need a poll of their own, so a context with a stored timeout of one second is never
      started again, whatever the kernel reports; any other stored timeout leaves it a chance. */
  lemma RestartPossibleIff(stored: int)
    ensures (exists nx: nat -> Poll, vx: nat -> Poll, i: nat, j: nat :: StartsAt(nx, vx, EffectiveTimeout(stored), i, j))
            <==> stored != 1
  {
    if stored != 1 {
      assert StartsAt(_ => Gone, _ => Gone, EffectiveTimeout(stored), 1, 2);
    }
  }

  /** The latest poll that can still start the context is the stored timeout, and the fifteenth if none is
      stored; the earliest is the second. */
  lemma StartsAtPollIff(stored: int, j: nat)
    ensures (exists nx: nat -> Poll, vx: nat -> Poll, i: nat :: StartsAt(nx, vx, EffectiveTimeout(stored), i, j))
            <==> 2 <= j <= (if stored < 1 then 15 else stored)
  {
    if 2 <= j <= (if stored < 1 then 15 else stored) {
      assert StartsAt(_ => Gone, k => if k == j then Gone else Alive, EffectiveTimeout(stored), 1, j);
    }
  }
}
