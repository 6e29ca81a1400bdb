/**
 * Node selection in the distributed engine: the round-robin scheduling
 * strategy (an index advanced in place), the least-loaded balancing
 * strategy and heartbeat failure detection.
 *
 * Load scores are 32-bit floats in the source; here they are integers and
 * the starting bound `f32::MAX` is the integer value of that float.
 * Timestamps are milliseconds supplied by the caller.
 */
module Distributed {
  import opened Wrappers

  datatype NodeStatus = Online | Offline | Failed | Maintenance | Starting | Stopping

  datatype Node = Node(id: string, address: string, port: nat, status: NodeStatus)

  /** The scheduler that hands tasks to nodes in turn. */
  class RoundRobinStrategy {
    var currentIndex: nat

    constructor()
      ensures currentIndex == 0
    {
      currentIndex := 0;
    }

    /**
     * `select_node`: no node for an empty list; otherwise the node at the
     * current index modulo the list length, after which the index advances.
     */
    method SelectNode(nodes: seq<Node>) returns (r: Option<string>)
      modifies this
      ensures nodes == [] ==> r.None? && currentIndex == old(currentIndex)
      ensures nodes != [] ==>
        r == Some(nodes[old(currentIndex) % |nodes|].id) && currentIndex == old(currentIndex) + 1
    {
      if nodes == [] {
        return None;
      }
      var selected := nodes[currentIndex % |nodes|];
      currentIndex := currentIndex + 1;
      r := Some(selected.id);
    }
  }

  /** The position round-robin picks on its `j`-th call after starting at index `k`. */
  function RoundRobinPick(k: nat, j: nat, n: nat): (r: nat)
    requires n > 0
    ensures r < n
  {
    (k + j) % n
  }

  /**
   * Fairness: over any `n` consecutive calls on the same `n` nodes every
   * node is picked, whatever the index was at the start.
   */
  lemma RoundRobinCoversAll(k: nat, n: nat, t: nat)
    requires 0 < n && t < n
    ensures exists j :: 0 <= j < n && RoundRobinPick(k, j, n) == t
  {
    var q, m := k / n, k % n;
    var j := if t >= m then t - m else t + n - m;
    if t >= m {
      assert k + j == q * n + t;
    } else {
      assert k + j == (q + 1) * n + t;
    }
    ModOfMultiple(if t >= m then q else q + 1, n, t);
    assert RoundRobinPick(k, j, n) == t;
  }

  lemma {:induction false} ModOfMultiple(q: nat, n: nat, r: nat)
    requires r < n
    ensures (q * n + r) % n == r
    decreases q
  {
    if q > 0 {
      ModOfMultiple(q - 1, n, r);
      assert q * n + r == (q - 1) * n + r + n;
      ModAddDivisor((q - 1) * n + r, n);
    }
  }

  lemma ModAddDivisor(x: int, n: int)
    requires n > 0
    ensures (x + n) % n == x % n
  {
    var qa, a := x / n, x % n;
    var qb, b := (x + n) / n, (x + n) % n;
    var c := qb - qa - 1;
    assert c * n == a - b;
    assert c > 0 ==> c * n >= n;
    assert c < 0 ==> c * n <= -n;
  }

  const F32Max: int := 340282346638528859811704183484516925440

  /** The load recorded for a node, 0 when it has none. */
  function LoadOf(loads: map<string, int>, id: string): int {
    if id in loads then loads[id] else 0
  }

  /** An online node that the strategy may choose: its load is below the starting bound. */
  predicate Eligible(n: Node, loads: map<string, int>) {
    n.status == Online && LoadOf(loads, n.id) < F32Max
  }

  /**
   * `select_best_node`: scans the nodes in order and keeps the online
   * node with the strictly lowest load, so the first of several equal
   * minima wins; no node when no online node is below the bound.
   */
  method SelectBestNode(nodes: seq<Node>, loads: map<string, int>) returns (r: Option<string>)
    ensures r.None? <==> forall i :: 0 <= i < |nodes| ==> !Eligible(nodes[i], loads)
    ensures r.Some? ==> exists i :: (0 <= i < |nodes| && nodes[i].id == r.value && Eligible(nodes[i], loads)
      && (forall j :: 0 <= j < |nodes| && nodes[j].status == Online ==> LoadOf(loads, nodes[i].id) <= LoadOf(loads, nodes[j].id))
      && (forall j :: 0 <= j < i && nodes[j].status == Online ==> LoadOf(loads, nodes[i].id) < LoadOf(loads, nodes[j].id)))
  {
    var best: Option<string> := None;
    var lowest := F32Max;
    ghost var at: nat := 0;
    var k := 0;
    while k < |nodes|
      invariant k <= |nodes|
      invariant best.None? ==> lowest == F32Max && forall i :: 0 <= i < k ==> !Eligible(nodes[i], loads)
      invariant best.Some? ==> (at < k && nodes[at].id == best.value && Eligible(nodes[at], loads)
        && lowest == LoadOf(loads, nodes[at].id)
        && (forall j :: 0 <= j < k && nodes[j].status == Online ==> lowest <= LoadOf(loads, nodes[j].id))
        && (forall j :: 0 <= j < at && nodes[j].status == Online ==> lowest < LoadOf(loads, nodes[j].id)))
    {
      var node := nodes[k];
      if node.status == Online {
        var load := LoadOf(loads, node.id);
        if load < lowest {
          lowest := load;
          best := Some(node.id);
          at := k;
        }
      }
      k := k + 1;
    }
    r := best;
  }

  /**
   * `detect_failure` of the heartbeat strategy: a node has failed when its
   * last check lies more than 60 whole seconds in the past.
   */
  function HeartbeatFailed(now: int, lastCheck: int): (r: bool)
    ensures r <==> now - lastCheck >= 61000
  {
    WholeSeconds(now - lastCheck) > 60
  }

  /** `num_seconds`: whole seconds, truncated toward zero. */
  function WholeSeconds(ms: int): (r: int)
    ensures ms >= 0 ==> r * 1000 <= ms < r * 1000 + 1000
    ensures ms < 0 ==> r <= 0
  {
    if ms >= 0 then ms / 1000 else -((-ms) / 1000)
  }
}

/**
 * The distributed lock manager: a map from lock id to lock, owned by one
 * node. Time is a number supplied by the caller; a lock expires once the
 * current time is past its expiry.
 */
module DistributedLocks {
  import opened Wrappers

  datatype LockType = Exclusive | Shared

  datatype LockRequest = LockRequest(requester: string, requestedAt: nat, lockType: LockType, timeout: nat)

  datatype DistributedLock = DistributedLock(
    id: string, holder: string, acquiredAt: nat, expiresAt: nat,
    lockType: LockType, waitingQueue: seq<LockRequest>)

  datatype LockResult = Acquired | Timeout | Conflict | LockError(message: string)

  /**
   * `acquire_lock` on the lock table: an absent lock is created for this
   * node; an expired one is taken over (its waiters stay queued); a shared
   * lock is shared with a shared request without recording it; any other
   * request is queued and reported as a conflict.
   */
  function AcquireStep(locks: map<string, DistributedLock>, node: string, id: string, t: LockType, timeout: nat, now: nat)
    : (r: (map<string, DistributedLock>, LockResult))
    ensures id !in locks ==> r.1 == Acquired && r.0 == locks[id := DistributedLock(id, node, now, now + timeout, t, [])]
    ensures id in locks && now > locks[id].expiresAt ==>
      r.1 == Acquired
      && r.0 == locks[id := locks[id].(holder := node, acquiredAt := now, expiresAt := now + timeout, lockType := t)]
    ensures id in locks && now <= locks[id].expiresAt ==>
      ((r.1 == Acquired) <==> (locks[id].lockType == Shared && t == Shared))
    ensures id in locks && now <= locks[id].expiresAt && r.1 == Acquired ==> r.0 == locks
    ensures r.1 != Acquired ==>
      r.1 == Conflict && id in locks
      && r.0 == locks[id := locks[id].(waitingQueue := locks[id].waitingQueue + [LockRequest(node, now, t, timeout)])]
  {
    if id in locks then
      var l := locks[id];
      if now > l.expiresAt then
        (locks[id := l.(holder := node, acquiredAt := now, expiresAt := now + timeout, lockType := t)], Acquired)
      else if l.lockType == Shared && t == Shared then (locks, Acquired)
      else (locks[id := l.(waitingQueue := l.waitingQueue + [LockRequest(node, now, t, timeout)])], Conflict)
    else (locks[id := DistributedLock(id, node, now, now + timeout, t, [])], Acquired)
  }

  /**
   * `release_lock` on the lock table: only the holder's release has an
   * effect; the lock then passes to the most recently queued request, or
   * disappears when nobody waits.
   */
  function ReleaseStep(locks: map<string, DistributedLock>, node: string, id: string, now: nat)
    : (r: map<string, DistributedLock>)
    ensures id !in locks || locks[id].holder != node ==> r == locks
    ensures id in locks && locks[id].holder == node && locks[id].waitingQueue == [] ==> r == locks - {id}
    ensures id in locks && locks[id].holder == node && locks[id].waitingQueue != [] ==>
      var q := locks[id].waitingQueue;
      var next := q[|q| - 1];
      id in r && r[id].holder == next.requester && r[id].lockType == next.lockType
      && r[id].expiresAt == now + next.timeout && r[id].waitingQueue == q[..|q| - 1]
    ensures forall other :: other != id ==> (other in r <==> other in locks)
    ensures forall other :: other != id && other in locks ==> r[other] == locks[other]
  {
    if id in locks && locks[id].holder == node then
      var l := locks[id];
      if l.waitingQueue != [] then
        var next := l.waitingQueue[|l.waitingQueue| - 1];
        locks[id := l.(holder := next.requester, acquiredAt := now, expiresAt := now + next.timeout,
                       lockType := next.lockType, waitingQueue := l.waitingQueue[..|l.waitingQueue| - 1])]
      else locks - {id}
    else locks
  }

  /** `cleanup_expired_locks`: exactly the locks not yet past their expiry remain. */
  function Unexpired(locks: map<string, DistributedLock>, now: nat): (r: map<string, DistributedLock>)
    ensures forall id :: id in r <==> id in locks && now <= locks[id].expiresAt
    ensures forall id :: id in r ==> r[id] == locks[id]
  {
    map id | id in locks && now <= locks[id].expiresAt :: locks[id]
  }

  class DistributedLockManager {
    var locks: map<string, DistributedLock>
    const nodeId: string
    const lockTimeout: nat

    /** `new`: no locks and a 30-second default timeout. */
    constructor(nodeId: string)
      ensures locks == map[] && this.nodeId == nodeId && lockTimeout == 30000
    {
      locks := map[];
      this.nodeId := nodeId;
      lockTimeout := 30000;
    }

    method AcquireLock(id: string, t: LockType, timeout: nat, now: nat) returns (r: LockResult)
      modifies this
      ensures (locks, r) == AcquireStep(old(locks), nodeId, id, t, timeout, now)
    {
      if id in locks {
        var existing := locks[id];
        if now > existing.expiresAt {
          locks := locks[id := existing.(holder := nodeId, acquiredAt := now, expiresAt := now + timeout, lockType := t)];
          return Acquired;
        }
        if existing.lockType == Shared && t == Shared {
          return Acquired;
        }
        locks := locks[id := existing.(waitingQueue := existing.waitingQueue + [LockRequest(nodeId, now, t, timeout)])];
        return Conflict;
      }
      locks := locks[id := DistributedLock(id, nodeId, now, now + timeout, t, [])];
      r := Acquired;
    }

    method ReleaseLock(id: string, now: nat)
      modifies this
      ensures locks == ReleaseStep(old(locks), nodeId, id, now)
    {
      if id in locks {
        var l := locks[id];
        if l.holder == nodeId {
          if l.waitingQueue != [] {
            var next := l.waitingQueue[|l.waitingQueue| - 1];
            locks := locks[id := l.(holder := next.requester, acquiredAt := now, expiresAt := now + next.timeout,
                                    lockType := next.lockType, waitingQueue := l.waitingQueue[..|l.waitingQueue| - 1])];
          } else {
            locks := locks - {id};
          }
        }
      }
    }

    /** `check_lock`: the lock under that id, if any. */
    function CheckLock(id: string): (r: Option<DistributedLock>)
      reads this
      ensures r.Some? <==> id in locks
      ensures r.Some? ==> r.value == locks[id]
    {
      if id in locks then Some(locks[id]) else None
    }

    method CleanupExpiredLocks(now: nat)
      modifies this
      ensures locks == Unexpired(old(locks), now)
    {
      locks := map id | id in locks && now <= locks[id].expiresAt :: locks[id];
    }
  }

  /** Mutual exclusion: an unexpired exclusive lock is never granted again, not even to its holder. */
  lemma ExclusiveExcludes(locks: map<string, DistributedLock>, node: string, id: string, t: LockType, timeout: nat, now: nat)
    requires id in locks && now <= locks[id].expiresAt
    requires locks[id].lockType == Exclusive || t == Exclusive
    ensures AcquireStep(locks, node, id, t, timeout, now).1 == Conflict
    ensures AcquireStep(locks, node, id, t, timeout, now).0[id].holder == locks[id].holder
  {
  }

  /** Taking a free lock and releasing it with nobody waiting leaves the table as it was. */
  lemma AcquireReleaseRoundTrip(locks: map<string, DistributedLock>, node: string, id: string, t: LockType, timeout: nat, now: nat, later: nat)
    requires id !in locks
    ensures ReleaseStep(AcquireStep(locks, node, id, t, timeout, now).0, node, id, later) == locks
  {
    var m := AcquireStep(locks, node, id, t, timeout, now).0;
    assert m - {id} == locks;
  }

  /** Cleaning up twice at the same time removes nothing more. */
  lemma CleanupIdempotent(locks: map<string, DistributedLock>, now: nat)
    ensures Unexpired(Unexpired(locks, now), now) == Unexpired(locks, now)
  {
  }
}
