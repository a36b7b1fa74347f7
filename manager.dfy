/**
 * The message dispatcher: a FIFO queue of pending messages and the set of
 * keys (users or chats) a worker is busy with. Modelled on manager.go with
 * the mutex and the condition variable stripped: every operation is one
 * atomic step.
 */
module MessageManager {
  import opened Wrappers
  import opened TelegramTypes

  /** A *telegram.Message: messages are told apart by identity, not by value. */
  class MessageRef {
    const msg: Message

    constructor (msg: Message)
      ensures this.msg == msg
    {
      this.msg := msg;
    }
  }

  /** The key a message is serialised under: getUID(msg).Identifier(). */
  function KeyOf(getUID: Message -> Recipient, r: MessageRef): string
  {
    Identifier(getUID(r.msg))
  }

  /**
   * getFirstNew on values: the index of the first queued message whose key
   * is not running, or None when every queued key is running.
   */
  function FirstNew(q: seq<MessageRef>, running: set<string>, getUID: Message -> Recipient): (r: Option<nat>)
    ensures r.Some? ==> r.value < |q| && KeyOf(getUID, q[r.value]) !in running
    ensures r.Some? ==> forall j :: 0 <= j < r.value ==> KeyOf(getUID, q[j]) in running
    ensures r.None? ==> forall j :: 0 <= j < |q| ==> KeyOf(getUID, q[j]) in running
    decreases |q|
  {
    if |q| == 0 then None
    else if KeyOf(getUID, q[0]) !in running then Some(0)
    else
      match FirstNew(q[1..], running, getUID)
      case None => None
      case Some(i) => Some(i + 1)
  }

  /** The scan that stops at the first non-running key agrees with FirstNew. */
  lemma {:induction false} FirstNewAt(q: seq<MessageRef>, running: set<string>, getUID: Message -> Recipient, i: nat)
    requires i <= |q| && forall j :: 0 <= j < i ==> KeyOf(getUID, q[j]) in running
    requires i < |q| ==> KeyOf(getUID, q[i]) !in running
    ensures FirstNew(q, running, getUID) == if i < |q| then Some(i) else None
    decreases i
  {
    if i > 0 {
      FirstNewAt(q[1..], running, getUID, i - 1);
    }
  }

  /**
   * Keys that each belong to some queued message are no more than the
   * queued messages: distinct keys need distinct messages.
   */
  lemma {:induction false} KeysWithinQueue(q: seq<MessageRef>, ks: set<string>, getUID: Message -> Recipient)
    requires forall k :: k in ks ==> exists i :: 0 <= i < |q| && KeyOf(getUID, q[i]) == k
    ensures |ks| <= |q|
    decreases |q|
  {
    if |q| == 0 {
      assert forall k :: k !in ks;
      assert ks == {};
    } else {
      var init := q[..|q| - 1];
      var rest := ks - {KeyOf(getUID, q[|q| - 1])};
      forall k | k in rest
        ensures exists i :: 0 <= i < |init| && KeyOf(getUID, init[i]) == k
      {
        var i :| 0 <= i < |q| && KeyOf(getUID, q[i]) == k;
        assert init[i] == q[i];
      }
      KeysWithinQueue(init, rest, getUID);
    }
  }

  /**
   * Per-key FIFO: the claimed message is the earliest queued message with
   * its key, because every earlier message's key is already running.
   */
  lemma ClaimIsEarliestOfItsKey(q: seq<MessageRef>, running: set<string>, getUID: Message -> Recipient)
    requires FirstNew(q, running, getUID).Some?
    ensures var i := FirstNew(q, running, getUID).value;
            forall j :: 0 <= j < i ==> KeyOf(getUID, q[j]) != KeyOf(getUID, q[i])
  {
  }

  /**
   * Mutual exclusion: once a key is claimed, a further claim never hands out
   * a message with that key until the key is released.
   */
  lemma ClaimExcludesRunningKey(q: seq<MessageRef>, running: set<string>, getUID: Message -> Recipient)
    requires FirstNew(q, running, getUID).Some?
    ensures var i := FirstNew(q, running, getUID).value;
            var k := KeyOf(getUID, q[i]);
            var second := FirstNew(q, running + {k}, getUID);
            second.Some? ==> KeyOf(getUID, q[second.value]) != k
  {
  }

  /** The position of the first node holding exactly `m`. */
  function IndexOf(q: seq<MessageRef>, m: MessageRef): (i: nat)
    requires m in q
    ensures i < |q| && q[i] == m && m !in q[..i]
  {
    if q[0] == m then 0 else 1 + IndexOf(q[1..], m)
  }

  /** Commit's list surgery: the first node holding `m` is unlinked, the rest keep their order. */
  function RemoveFirst(q: seq<MessageRef>, m: MessageRef): (r: seq<MessageRef>)
    requires m in q
    ensures |r| == |q| - 1
  {
    var i := IndexOf(q, m);
    q[..i] + q[i + 1..]
  }

  /** Removing a message takes out exactly one occurrence of it and nothing else. */
  lemma RemoveFirstIsOneLess(q: seq<MessageRef>, m: MessageRef)
    requires m in q
    ensures multiset(RemoveFirst(q, m)) + multiset{m} == multiset(q)
  {
    var i := IndexOf(q, m);
    assert q == q[..i] + [q[i]] + q[i + 1..];
  }

  /** The other messages keep their relative order: q is RemoveFirst(q, m) with `m` put back. */
  lemma RemoveFirstKeepsOrder(q: seq<MessageRef>, m: MessageRef)
    requires m in q
    ensures var i := IndexOf(q, m);
            RemoveFirst(q, m)[..i] + [m] + RemoveFirst(q, m)[i..] == q
  {
    var i := IndexOf(q, m);
    var r := RemoveFirst(q, m);
    assert r[..i] == q[..i];
    assert r[i..] == q[i + 1..];
    assert q == q[..i] + [q[i]] + q[i + 1..];
  }

  /** Unlinking a message keeps a queued message for every other key. */
  lemma RemoveFirstKeepsOtherKeys(q: seq<MessageRef>, m: MessageRef, getUID: Message -> Recipient, k: string)
    requires m in q && k != KeyOf(getUID, m)
    requires exists i :: 0 <= i < |q| && KeyOf(getUID, q[i]) == k
    ensures exists i :: 0 <= i < |RemoveFirst(q, m)| && KeyOf(getUID, RemoveFirst(q, m)[i]) == k
  {
    var i :| 0 <= i < |q| && KeyOf(getUID, q[i]) == k;
    var x := IndexOf(q, m);
    var r := RemoveFirst(q, m);
    if i < x {
      assert r[i] == q[i];
    } else {
      assert i != x;
      assert r[i - 1] == q[i];
    }
  }

  /** manager: the queue (the msgq list), the running set and the counter. */
  class Manager {
    const size: int
    const getUID: Message -> Recipient
    /** runningUsers: a map[string]bool that only ever holds true, so a set of keys. */
    var runningUsers: set<string>
    /** The msgq linked list from root to tail. */
    var queue: seq<MessageRef>
    var qsize: int

    /**
     * qsize counts the queue, and every running key belongs to a queued
     * message (the one its worker will commit).
     */
    ghost predicate Valid()
      reads this
    {
      qsize == |queue|
      && forall k :: k in runningUsers ==> exists i :: 0 <= i < |queue| && Key(queue[i]) == k
    }

    function Key(r: MessageRef): string
    {
      KeyOf(getUID, r)
    }

    /** newManager: an empty queue and no running key. */
    constructor (getUID: Message -> Recipient, size: int)
      ensures Valid() && this.getUID == getUID && this.size == size
      ensures runningUsers == {} && queue == [] && qsize == 0
    {
      this.size := size;
      this.getUID := getUID;
      runningUsers, queue, qsize := {}, [], 0;
    }

    /** add: walks to the tail and links the message there; the counter is feed's job. */
    method Add(m: MessageRef)
      modifies this
      ensures queue == old(queue) + [m]
      ensures runningUsers == old(runningUsers) && qsize == old(qsize)
    {
      queue := queue + [m];
    }

    /** feed without its wait: add, then count the message. */
    method Feed(m: MessageRef)
      requires Valid()
      modifies this
      ensures Valid()
      ensures queue == old(queue) + [m] && qsize == old(qsize) + 1
      ensures runningUsers == old(runningUsers)
    {
      Add(m);
      qsize := qsize + 1;
      assert forall i :: 0 <= i < |old(queue)| ==> queue[i] == old(queue)[i];
    }

    /** Every running key owns a queued message, so there are never more running keys than queued messages. */
    lemma RunningWithinQueue()
      ensures Valid() ==> |runningUsers| <= qsize
    {
      if Valid() {
        KeysWithinQueue(queue, runningUsers, getUID);
      }
    }

    /**
     * The condition feed waits for before it returns: room in the queue and
     * among the workers. Since running keys never outnumber queued messages,
     * the queue limit alone decides it.
     */
    predicate FeedMayReturn(): (r: bool)
      reads this
      ensures r ==> qsize < size && |runningUsers| < size
      ensures Valid() ==> (r <==> qsize < size)
    {
      RunningWithinQueue();
      !(qsize >= size || |runningUsers| >= size)
    }

    /**
     * getFirstNew: claims the first queued message whose key is not running
     * and marks that key running; nil when every queued key is running.
     */
    method GetFirstNew() returns (ret: Option<MessageRef>)
      requires Valid()
      modifies this
      ensures Valid()
      ensures var i := FirstNew(old(queue), old(runningUsers), getUID);
              (ret.None? <==> i.None?) && (i.Some? ==> ret == Some(old(queue)[i.value]))
      ensures ret.Some? ==> Key(ret.value) !in old(runningUsers)
      ensures runningUsers == if ret.Some? then old(runningUsers) + {Key(ret.value)} else old(runningUsers)
      ensures queue == old(queue) && qsize == old(qsize)
    {
      var q, running := queue, runningUsers;
      var i := 0;
      while i < |q| && KeyOf(getUID, q[i]) in running
        invariant 0 <= i <= |q|
        invariant forall j :: 0 <= j < i ==> KeyOf(getUID, q[j]) in running
      {
        i := i + 1;
      }
      FirstNewAt(q, running, getUID, i);
      if i == |q| {
        return None;
      }
      runningUsers := running + {KeyOf(getUID, q[i])};
      ret := Some(q[i]);
    }

    /**
     * Commit: frees the key and unlinks the first node holding this very
     * message. A message that is not queued is a fatal error in the source,
     * hence the precondition.
     */
    method Commit(m: MessageRef)
      requires Valid() && m in queue
      modifies this
      ensures Valid()
      ensures queue == RemoveFirst(old(queue), m) && qsize == old(qsize) - 1
      ensures runningUsers == old(runningUsers) - {Key(m)}
    {
      runningUsers := runningUsers - {Key(m)};
      var i := 0;
      while i < |queue| && queue[i] != m
        invariant i <= IndexOf(queue, m)
      {
        i := i + 1;
      }
      queue := queue[..i] + queue[i + 1..];
      qsize := qsize - 1;
      forall k | k in runningUsers
        ensures exists j :: 0 <= j < |queue| && Key(queue[j]) == k
      {
        RemoveFirstKeepsOtherKeys(old(queue), m, getUID, k);
      }
    }


    /** Rollback: frees the key, if it is running; the queue keeps the message. */
    method Rollback(m: MessageRef)
      requires Valid()
      modifies this
      ensures Valid()
      ensures runningUsers == old(runningUsers) - {Key(m)}
      ensures queue == old(queue) && qsize == old(qsize)
      ensures Key(m) !in old(runningUsers) ==> runningUsers == old(runningUsers)
    {
      if Key(m) !in runningUsers {
        return;
      }
      runningUsers := runningUsers - {Key(m)};
    }
  }
}
