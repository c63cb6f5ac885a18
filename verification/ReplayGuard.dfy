/** Replay protection by message id (packages/protocol/src/replay-guard.ts), and
    the history it stands for, with a non-decreasing clock. */
module ReplayGuard {
  type MessageId = nat

  datatype Call = Call(id: MessageId, at: int)

  type Seen = map<MessageId, int>

  function Evict(seen: Seen, ttlMs: nat, now: int): Seen {
    map id | id in seen && now - seen[id] <= ttlMs :: seen[id]
  }

  function Record(seen: Seen, ttlMs: nat, call: Call): Seen {
    var kept := Evict(seen, ttlMs, call.at);
    if call.id in kept then kept else kept[call.id := call.at]
  }

  /** The map after a history of calls. */
  function After(ttlMs: nat, calls: seq<Call>): Seen {
    if calls == [] then map[] else Record(After(ttlMs, calls[..|calls| - 1]), ttlMs, calls[|calls| - 1])
  }

  predicate Rejected(ttlMs: nat, calls: seq<Call>, i: nat)
    requires i < |calls|
  {
    calls[i].id in Evict(After(ttlMs, calls[..i]), ttlMs, calls[i].at)
  }

  class InMemoryReplayGuard {
    const ttlMs: nat
    var seenAt: Seen
    ghost var calls: seq<Call>

    ghost predicate Valid()
      reads this
    {
      seenAt == After(ttlMs, calls)
    }

    constructor (ttlMs: nat)
      ensures Valid() && this.ttlMs == ttlMs && calls == []
    {
      this.ttlMs := ttlMs;
      seenAt, calls := map[], [];
    }

    /** True if this message id has already been seen; records it otherwise. */
    method CheckAndRecord(messageId: MessageId, receivedAt: int) returns (alreadySeen: bool)
      requires Valid()
      modifies this
      ensures Valid() && calls == old(calls) + [Call(messageId, receivedAt)]
      ensures alreadySeen == Rejected(ttlMs, calls, |old(calls)|)
    {
      EvictExpired(receivedAt);
      calls := calls + [Call(messageId, receivedAt)];
      assert calls[..|calls| - 1] == old(calls);
      alreadySeen := messageId in seenAt;
      if !alreadySeen {
        seenAt := seenAt[messageId := receivedAt];
      }
    }

    /** The eviction loop: every entry is visited once, in any order. */
    method EvictExpired(now: int)
      modifies this
      ensures seenAt == Evict(old(seenAt), ttlMs, now) && calls == old(calls)
    {
      var todo := seenAt.Keys;
      while todo != {}
        invariant todo <= old(seenAt).Keys && calls == old(calls)
        invariant seenAt == map id | id in old(seenAt) && (id in todo || now - old(seenAt)[id] <= ttlMs) :: old(seenAt)[id]
        decreases todo
      {
        var id :| id in todo;
        todo := todo - {id};
        if now - seenAt[id] > ttlMs {
          seenAt := map k | k in seenAt && k != id :: seenAt[k];
        }
      }
    }
  }

  // --------------------------------------------------------- the history

  ghost predicate NonDecreasing(calls: seq<Call>) {
    forall i, j :: 0 <= i <= j < |calls| ==> calls[i].at <= calls[j].at
  }

  /** Call i accepted this id, at this time, not longer than ttl before now. */
  ghost predicate AcceptedWithin(ttlMs: nat, calls: seq<Call>, i: nat, id: MessageId, now: int) {
    i < |calls| && calls[i].id == id && !Rejected(ttlMs, calls, i) && now - calls[i].at <= ttlMs
  }

  lemma PrefixAcceptance(ttlMs: nat, calls: seq<Call>, n: nat, i: nat, id: MessageId, now: int)
    requires i < n <= |calls|
    ensures AcceptedWithin(ttlMs, calls[..n], i, id, now) <==> AcceptedWithin(ttlMs, calls, i, id, now)
  {
    assert calls[..n][..i] == calls[..i];
  }

  /** The map holds exactly the ids accepted within ttl of the last call, each
      with the time of its acceptance. */
  lemma {:induction false} MapIsRecentAcceptances(ttlMs: nat, calls: seq<Call>, id: MessageId)
    requires NonDecreasing(calls) && calls != []
    ensures var now := calls[|calls| - 1].at;
            && (id in After(ttlMs, calls) <==> exists i: nat :: AcceptedWithin(ttlMs, calls, i, id, now))
            && forall i: nat :: AcceptedWithin(ttlMs, calls, i, id, now) ==> After(ttlMs, calls)[id] == calls[i].at
  {
    var n := |calls| - 1;
    var front, now := calls[..n], calls[n].at;
    if n > 0 {
      MapIsRecentAcceptances(ttlMs, front, id);
    }
    forall i: nat | AcceptedWithin(ttlMs, calls, i, id, now)
      ensures id in After(ttlMs, calls) && After(ttlMs, calls)[id] == calls[i].at
    {
      if i < n {
        PrefixAcceptance(ttlMs, calls, n, i, id, now);
        assert AcceptedWithin(ttlMs, front, i, id, front[n - 1].at);
      }
    }
    if id in After(ttlMs, calls) {
      if id in Evict(After(ttlMs, front), ttlMs, now) {
        var i: nat :| AcceptedWithin(ttlMs, front, i, id, front[n - 1].at);
        assert After(ttlMs, front)[id] == front[i].at;
        PrefixAcceptance(ttlMs, calls, n, i, id, now);
      } else {
        assert AcceptedWithin(ttlMs, calls, n, id, now);
      }
    }
  }

  /** A call is rejected exactly when its id was accepted within ttl before it. */
  lemma RejectedIffSeen(ttlMs: nat, calls: seq<Call>, i: nat)
    requires NonDecreasing(calls) && i < |calls|
    ensures Rejected(ttlMs, calls, i)
       <==> exists j: nat :: j < i && AcceptedWithin(ttlMs, calls, j, calls[i].id, calls[i].at)
  {
    var before, id, now := calls[..i], calls[i].id, calls[i].at;
    if i > 0 {
      MapIsRecentAcceptances(ttlMs, before, id);
      forall j: nat | j < i ensures AcceptedWithin(ttlMs, before, j, id, now) <==> AcceptedWithin(ttlMs, calls, j, id, now) {
        PrefixAcceptance(ttlMs, calls, i, j, id, now);
      }
      if Rejected(ttlMs, calls, i) {
        var j: nat :| AcceptedWithin(ttlMs, before, j, id, before[i - 1].at);
        assert AcceptedWithin(ttlMs, before, j, id, now);
      }
      if j: nat :| j < i && AcceptedWithin(ttlMs, calls, j, id, now) {
        assert AcceptedWithin(ttlMs, before, j, id, before[i - 1].at);
      }
    }
  }

  /** Two acceptances of one id are always more than ttl apart. */
  lemma AcceptancesAreApart(ttlMs: nat, calls: seq<Call>, j: nat, i: nat)
    requires NonDecreasing(calls) && j < i < |calls| && calls[j].id == calls[i].id
    requires !Rejected(ttlMs, calls, j) && !Rejected(ttlMs, calls, i)
    ensures calls[i].at - calls[j].at > ttlMs
  {
    RejectedIffSeen(ttlMs, calls, i);
    assert !AcceptedWithin(ttlMs, calls, j, calls[i].id, calls[i].at);
  }
}
