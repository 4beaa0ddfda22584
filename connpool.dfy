/** The fixed-size pool of AWS client handles of `_connpool.py`, run sequentially: the
    `asyncio.Queue` is a sequence the methods reassign (`put` appends, `get` takes the
    head), and the lock that serialises `initialize` and `close` has nothing to guard. */
module ConnPool {

  import opened Wrappers

  /** A backend client handle. `closeCount` counts the `close()` calls it received. */
  class Client {
    var closeCount: nat

    constructor ()
      ensures closeCount == 0
    {
      closeCount := 0;
    }
  }

  ghost predicate Distinct(s: seq<Client>) {
    forall i, j :: 0 <= i < j < |s| ==> s[i] != s[j]
  }

  class ClientPool {
    const maxsize: nat
    /** The clients waiting in the queue, head first. */
    var queue: seq<Client>
    /** The clients taken by `acquire` and not yet given back by `release`. */
    ghost var out: set<Client>

    ghost predicate Valid()
      reads this
    {
      && |queue| + |out| <= maxsize
      && Distinct(queue)
      && (forall c :: c in queue ==> c !in out)
    }

    /** `AWSClientConnectionPool(maxsize)`: an empty bounded queue. */
    constructor (maxsize: nat)
      ensures Valid() && this.maxsize == maxsize && queue == [] && out == {}
    {
      this.maxsize := maxsize;
      queue := [];
      out := {};
    }

    /** `initialize()`: creates `maxsize` new clients and enqueues each. A second call, or a
        call while clients are queued, would block on the full queue, so the pool must be
        empty and nothing checked out. */
    method Initialize()
      requires Valid() && queue == [] && out == {}
      modifies this
      ensures Valid() && |queue| == maxsize && out == {}
      ensures forall c :: c in queue ==> fresh(c) && c.closeCount == 0
    {
      var i := 0;
      while i < maxsize
        invariant 0 <= i <= maxsize && |queue| == i && out == {}
        invariant Distinct(queue)
        invariant forall c :: c in queue ==> fresh(c) && c.closeCount == 0
      {
        var c := new Client();
        queue := queue + [c];
        i := i + 1;
      }
    }

    /** `acquire()`: takes the client at the head of the queue. On an empty queue the
        source suspends until another task releases one; the sequential model answers
        `None` there and changes nothing. */
    method Acquire() returns (c: Option<Client>)
      requires Valid()
      modifies this
      ensures Valid()
      ensures old(queue) == [] ==> c == None && queue == [] && out == old(out)
      ensures old(queue) != [] ==>
                c == Some(old(queue)[0]) && queue == old(queue)[1..] && out == old(out) + {c.value}
    {
      if queue == [] {
        c := None;
      } else {
        c := Some(queue[0]);
        queue := queue[1..];
        out := out + {c.value};
      }
    }

    /** `release(c)`: enqueues `c` at the tail. Putting into a full queue would block, and
        the pool discipline releases each acquired client exactly once, so `c` must not
        be queued already. */
    method Release(c: Client)
      requires Valid() && c !in queue && |queue| + |out - {c}| < maxsize
      modifies this
      ensures Valid() && queue == old(queue) + [c] && out == old(out) - {c}
    {
      queue := queue + [c];
      out := out - {c};
    }

    /** `close()`: dequeues until the queue is empty, closing each dequeued client once.
        Clients that are checked out stay open. */
    method Close()
      requires Valid()
      modifies this, queue
      ensures Valid() && queue == [] && out == old(out)
      ensures forall c :: c in old(queue) ==> c.closeCount == old(c.closeCount) + 1
      ensures forall c :: c in old(out) ==> c.closeCount == old(c.closeCount)
    {
      ghost var q0 := queue;
      ghost var i := 0;
      while queue != []
        invariant 0 <= i <= |q0| && queue == q0[i..] && Valid() && out == old(out)
        invariant forall k :: 0 <= k < i ==> q0[k].closeCount == old(q0[k].closeCount) + 1
        invariant forall k :: i <= k < |q0| ==> q0[k].closeCount == old(q0[k].closeCount)
        decreases |queue|
      {
        var c := queue[0];
        assert c == q0[i];
        queue := queue[1..];
        c.closeCount := c.closeCount + 1;
        i := i + 1;
      }
      assert forall c :: c in old(queue) ==> exists k :: 0 <= k < |q0| && q0[k] == c;
    }

    /** `client()`: a scope manager bound to this pool. */
    method Scope() returns (m: ClientManager)
      ensures fresh(m) && m.pool == this && m.client == None
    {
      m := new ClientManager(this);
    }
  }

  /** `AWSClientConnectionManager`: `async with pool.client() as c` holds one client. */
  class ClientManager {
    const pool: ClientPool
    var client: Option<Client>

    constructor (pool: ClientPool)
      ensures this.pool == pool && client == None
    {
      this.pool := pool;
      client := None;
    }

    /** `__aenter__`: acquires a client and remembers it. */
    method Enter() returns (c: Option<Client>)
      requires pool.Valid() && client == None
      modifies this, pool
      ensures pool.Valid() && c == client
      ensures old(pool.queue) == [] ==> c == None && pool.queue == [] && pool.out == old(pool.out)
      ensures old(pool.queue) != [] ==>
                c == Some(old(pool.queue)[0]) && pool.queue == old(pool.queue)[1..]
                && pool.out == old(pool.out) + {c.value}
    {
      c := pool.Acquire();
      client := c;
    }

    /** `__aexit__`: releases the remembered client and forgets it. `raised` says whether
        the body ended with an exception; the source ignores it, so both exits are alike. */
    method Exit(raised: bool)
      requires pool.Valid() && client.Some? && client.value in pool.out
      requires client.value !in pool.queue && |pool.queue| + |pool.out| <= pool.maxsize
      modifies this, pool
      ensures pool.Valid() && client == None
      ensures pool.queue == old(pool.queue) + [old(client).value]
      ensures pool.out == old(pool.out) - {old(client).value}
    {
      var c := client.value;
      assert |pool.out - {c}| == |pool.out| - 1;
      pool.Release(c);
      client := None;
    }
  }

  /** One scoped use of a client from a non-empty pool, whether the body completes or
      raises: the client taken from the head of the queue goes back to its tail, and
      nothing stays checked out. */
  method UseOnce(pool: ClientPool, raised: bool) returns (used: Client)
    requires pool.Valid() && pool.queue != []
    modifies pool
    ensures pool.Valid() && used == old(pool.queue)[0]
    ensures pool.queue == old(pool.queue)[1..] + [used] && pool.out == old(pool.out)
  {
    var m := pool.Scope();
    var c := m.Enter();
    used := c.value;
    m.Exit(raised);
  }
}
