/** The Redis work queue as one client sees it: a stream, a consumer group's
    pending list and a dead-letter stream (backend/libs/adapters/queue_redis.py:61-127). */
module JobQueue {

  datatype Dead = Dead(entry: nat, error: string)

  /** The entries from `lo` up to `hi`, all owned by one consumer. */
  function GivenTo(consumer: string, lo: nat, hi: nat): (m: map<nat, string>)
    ensures forall id: nat :: id in m <==> lo <= id < hi
    ensures forall id: nat :: lo <= id < hi ==> m[id] == consumer
    decreases hi - lo
  {
    if lo >= hi then map[] else GivenTo(consumer, lo, hi - 1)[hi - 1 := consumer]
  }

  /** What is pending once entries lo..hi are added to what was held. */
  function Leased(held: map<nat, string>, consumer: string, lo: nat, hi: nat): map<nat, string> {
    held + GivenTo(consumer, lo, hi)
  }

  lemma LeaseSettled(held: map<nat, string>, consumer: string, lo: nat, hi: nat)
    requires lo < hi && lo !in held
    ensures Leased(held, consumer, lo, hi) - {lo} == Leased(held, consumer, lo + 1, hi)
  {
  }

  lemma LeaseGrows(held: map<nat, string>, consumer: string, lo: nat, hi: nat)
    requires lo <= hi
    ensures Leased(held, consumer, lo, hi)[hi := consumer] == Leased(held, consumer, lo, hi + 1)
    ensures forall id: nat :: id in Leased(held, consumer, lo, hi) ==> id in held || id < hi
  {
  }

  lemma AllSettled(held: map<nat, string>, consumer: string, hi: nat)
    ensures Leased(held, consumer, hi, hi) == held
  {
  }

  /** An entry's id is its place in the stream. */
  class RedisQueue {
    var stream: seq<string>
    var delivered: nat              // the group's last-delivered position
    var pending: map<nat, string>   // delivered and unacknowledged: who owns it
    var dead: seq<Dead>
    var groupReady: bool

    ghost predicate Valid()
      reads this
    {
      delivered <= |stream| && forall id: nat :: id in pending ==> id < delivered
    }

    constructor ()
      ensures Valid() && stream == [] && delivered == 0 && pending == map[] && dead == []
    {
      stream, delivered, pending, dead, groupReady := [], 0, map[], [], false;
    }

    method EnsureGroup()
      modifies this`groupReady
      ensures groupReady
    {
      if groupReady { return; }
      groupReady := true;
    }

    method Enqueue(job: string)
      requires Valid()
      modifies this`stream, this`groupReady
      ensures Valid() && stream == old(stream) + [job]
    {
      EnsureGroup();
      stream := stream + [job];
    }

    method Depth() returns (n: nat)
      requires Valid()
      modifies this`groupReady
      ensures n == |pending|
    {
      EnsureGroup();
      n := |pending|;
    }

    /** Reads only entries no consumer has been given: the next `count` of them. */
    method Consume(consumer: string, count: nat) returns (jobs: seq<(nat, string)>)
      requires Valid()
      modifies this`delivered, this`pending, this`groupReady
      ensures Valid()
      ensures |jobs| == (if old(delivered) + count <= |stream| then count else |stream| - old(delivered))
      ensures delivered == old(delivered) + |jobs|
      ensures forall k :: 0 <= k < |jobs| ==> jobs[k] == (old(delivered) + k, stream[old(delivered) + k])
      ensures pending == Leased(old(pending), consumer, old(delivered), delivered)
    {
      hide Leased;
      EnsureGroup();
      jobs := [];
      AllSettled(pending, consumer, delivered);
      while |jobs| < count && delivered < |stream|
        invariant |jobs| <= count && old(delivered) <= delivered <= |stream| && delivered == old(delivered) + |jobs|
        invariant forall k :: 0 <= k < |jobs| ==> jobs[k] == (old(delivered) + k, stream[old(delivered) + k])
        invariant pending == Leased(old(pending), consumer, old(delivered), delivered)
        decreases |stream| - delivered
      {
        jobs := jobs + [(delivered, stream[delivered])];
        LeaseGrows(old(pending), consumer, old(delivered), delivered);
        pending := pending[delivered := consumer];
        delivered := delivered + 1;
      }
      LeaseGrows(old(pending), consumer, old(delivered), delivered);
    }

    method Ack(entry: nat)
      requires Valid()
      modifies this`pending
      ensures Valid() && pending == old(pending) - {entry}
    {
      pending := pending - {entry};
    }

    method DeadLetter(entry: nat, error: string)
      requires Valid()
      modifies this`pending, this`dead
      ensures Valid() && dead == old(dead) + [Dead(entry, error)] && pending == old(pending) - {entry}
    {
      dead := dead + [Dead(entry, error)];
      Ack(entry);
    }

    /** XAUTOCLAIM: stalled entries change owner, and nothing else happens. */
    method ReclaimStalled(consumer: string, stalled: set<nat>) returns (n: nat)
      requires Valid()
      modifies this`pending, this`groupReady
      ensures Valid()
      ensures pending == map id | id in old(pending) :: if id in stalled then consumer else old(pending)[id]
    {
      EnsureGroup();
      var taken := set id | id in pending && id in stalled;
      pending := map id | id in pending :: if id in stalled then consumer else pending[id];
      n := |taken|;
    }

    /** One turn of the worker's loop over a batch: ack what was handled,
        dead-letter (and so ack) what failed. `failed(k)` is handle's verdict. */
    method Serve(consumer: string, count: nat, failed: nat -> bool) returns (jobs: seq<(nat, string)>)
      requires Valid()
      modifies this
      ensures Valid() && stream == old(stream)
      ensures delivered == old(delivered) + |jobs|
      ensures pending == old(pending)
      ensures dead == old(dead) + Failures(old(delivered), |jobs|, failed)
    {
      hide Leased;
      jobs := Consume(consumer, count);
      for k := 0 to |jobs|
        invariant Valid() && stream == old(stream) && delivered == old(delivered) + |jobs|
        invariant pending == Leased(old(pending), consumer, old(delivered) + k, delivered)
        invariant dead == old(dead) + Failures(old(delivered), k, failed)
      {
        assert jobs[k].0 == old(delivered) + k;
        LeaseSettled(old(pending), consumer, old(delivered) + k, delivered);
        if failed(k) { DeadLetter(jobs[k].0, "failed"); } else { Ack(jobs[k].0); }
      }
      AllSettled(old(pending), consumer, delivered);
    }
  }

  /** The dead-letter records of the first k entries of a batch. */
  function Failures(first: nat, k: nat, failed: nat -> bool): seq<Dead> {
    if k == 0 then []
    else Failures(first, k - 1, failed) + (if failed(k - 1) then [Dead(first + k - 1, "failed")] else [])
  }
}
