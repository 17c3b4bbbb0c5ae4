/** The ready queue's storage: a ring of transaction slots with a ticket counter, and its
    refinement to an unbounded numbered log. */

module ReadyQueues {

  /** A pointer to a reply cell. */
  datatype Cell = Null | Ref(id: nat)

  /** One queued transaction. */
  datatype Info = Info(stamp: int, ticket: nat, done: Cell, rc: Cell, request: nat)

  /** What the user and the system wrappers hand to the queue. */
  function UserInfo(request: nat, stamp: int, done: Cell, rc: Cell): Info {
    Info(stamp, 0, done, rc, request)
  }

  function SystemInfo(request: nat, stamp: int): Info {
    Info(stamp, 0, Null, Null, request)
  }

  datatype Ring = Ring(slots: seq<Info>, occupied: nat, nextIn: nat, nextOut: nat, ticketReq: nat)

  /** The occupied slots run from `nextOut` to just before `nextIn`, around the end of the array. */
  predicate Wf(r: Ring) {
    && r.occupied <= |r.slots| && r.nextOut < |r.slots| && r.nextIn == Slot(r, r.occupied)
  }

  function EmptyRing(slots: seq<Info>): Ring {
    Ring(slots, 0, 0, 0, 0)
  }

  lemma EmptyRingIsEmpty(slots: seq<Info>)
    requires 0 < |slots|
    ensures Wf(EmptyRing(slots)) && Contents(EmptyRing(slots)) == []
  {
  }

  /** The slot of the `i`-th queued transaction. */
  function Slot(r: Ring, i: nat): (k: nat)
    requires r.nextOut < |r.slots| && i <= |r.slots|
    ensures k < |r.slots|
  {
    var k := r.nextOut + i;
    if k < |r.slots| then k else k - |r.slots|
  }

  /** The queued transactions, oldest first. */
  function Contents(r: Ring): (c: seq<Info>)
    requires Wf(r)
    ensures |c| == r.occupied
  {
    seq(r.occupied, i requires 0 <= i < r.occupied => r.slots[Slot(r, i)])
  }

  /** The critical section of `chronos_enqueue_transaction`. */
  function Put(r: Ring, info: Info): Ring
    requires Wf(r) && r.occupied < |r.slots|
  {
    Ring(r.slots[r.nextIn := info.(ticket := r.ticketReq + 1)],
         r.occupied + 1, (r.nextIn + 1) % |r.slots|, r.nextOut, r.ticketReq + 1)
  }

  /** The critical section of `chronos_dequeue_transaction`. */
  function Take(r: Ring): (Info, Ring)
    requires Wf(r) && r.occupied > 0
  {
    (r.slots[r.nextOut], r.(nextOut := (r.nextOut + 1) % |r.slots|, occupied := r.occupied - 1))
  }

  /** Queued tickets are consecutive and end with the last one issued. */
  ghost predicate Numbered(r: Ring)
    requires Wf(r)
  {
    forall i :: 0 <= i < r.occupied ==> Contents(r)[i].ticket == r.ticketReq - r.occupied + i + 1
  }

  /** An index advanced modulo the capacity wraps to 0 at the end and only there. */
  lemma Advanced(k: nat, n: nat)
    requires k < n
    ensures (k + 1) % n == if k + 1 < n then k + 1 else 0
  {
    if k + 1 < n {
      SmallMod(k + 1, n);
    }
  }

  lemma SmallMod(a: nat, n: nat)
    requires a < n
    ensures a % n == a
  {
  }

  /** The three indices determine each other: `nextIn` is `nextOut + occupied` modulo the
      capacity. */
  lemma IndexEquation(r: Ring)
    requires Wf(r)
    ensures r.nextIn == (r.nextOut + r.occupied) % |r.slots|
  {
    var n, a := |r.slots|, r.nextOut + r.occupied;
    if a < n {
      SmallMod(a, n);
    } else {
      AddOnce(a - n, n);
    }
  }

  lemma AddOnce(a: nat, n: nat)
    requires a < n
    ensures (a + n) % n == a
  {
    assert a + n == n * ((a + n) / n) + (a + n) % n;
    Multiples(n, (a + n) / n);
  }

  lemma Multiples(n: nat, q: int)
    ensures q >= 2 ==> n * q >= 2 * n
    ensures q <= 0 ==> n * q <= 0
  {
  }

  /** Distinct queue positions never share a slot. */
  lemma SlotsDiffer(r: Ring, i: nat, k: nat)
    requires r.nextOut < |r.slots| && i < k < |r.slots|
    ensures Slot(r, i) != Slot(r, k)
  {
  }

  /** An enqueue appends one transaction that carries the next ticket. */
  lemma PutAppends(r: Ring, info: Info)
    requires Wf(r) && r.occupied < |r.slots|
    ensures Wf(Put(r, info))
    ensures Contents(Put(r, info)) == Contents(r) + [info.(ticket := r.ticketReq + 1)]
    ensures Numbered(r) ==> Numbered(Put(r, info))
  {
    var t := Put(r, info);
    Advanced(r.nextIn, |r.slots|);
    forall i | 0 <= i < r.occupied ensures Contents(t)[i] == Contents(r)[i] {
      SlotsDiffer(r, i, r.occupied);
    }
    assert Contents(t)[r.occupied] == info.(ticket := r.ticketReq + 1);
  }

  /** A dequeue removes and returns the oldest transaction. */
  lemma TakeRemovesOldest(r: Ring)
    requires Wf(r) && r.occupied > 0
    ensures Wf(Take(r).1)
    ensures Contents(r) == [Take(r).0] + Contents(Take(r).1)
    ensures Numbered(r) ==> Numbered(Take(r).1)
  {
    Advanced(r.nextOut, |r.slots|);
    var t := Take(r).1;
    var rest := Contents(t);
    assert forall i :: 0 <= i < t.occupied ==> Contents(r)[i + 1] == rest[i];
    assert Contents(r)[0] == Take(r).0;
  }

  /** What a handler hands to the queue comes out last of all that is queued, with its own time
      stamp, its pointers each in its place, and its request. */
  lemma UserPointersAreKept(r: Ring, request: nat, stamp: int, done: Cell, rc: Cell)
    requires Wf(r) && r.occupied < |r.slots|
    ensures var t := Put(r, UserInfo(request, stamp, done, rc));
      && Wf(t) && |Contents(t)| == r.occupied + 1
      && var info := Contents(t)[r.occupied];
      && info.done == done && info.rc == rc && info.stamp == stamp && info.request == request
      && info.ticket == r.ticketReq + 1
  {
    PutAppends(r, UserInfo(request, stamp, done, rc));
  }

  /** The queue object. The caller holds the mutex, so each method is one critical section. */
  class ReadyQueue {
    const slots: array<Info>
    var occupied: nat
    var nextIn: nat
    var nextOut: nat
    var ticketReq: nat

    function AsRing(): Ring
      reads this, slots
    {
      Ring(slots[..], occupied, nextIn, nextOut, ticketReq)
    }

    ghost predicate Valid()
      reads this, slots
    {
      Wf(AsRing()) && Numbered(AsRing())
    }

    ghost function Queued(): seq<Info>
      reads this, slots
      requires Valid()
    {
      Contents(AsRing())
    }

    constructor (capacity: nat)
      requires 0 < capacity
      ensures Valid() && fresh(slots) && slots.Length == capacity
      ensures Queued() == [] && ticketReq == 0
    {
      slots := new Info[capacity](_ => Info(0, 0, Null, Null, 0));
      occupied, nextIn, nextOut, ticketReq := 0, 0, 0, 0;
      new;
      EmptyRingIsEmpty(slots[..]);
    }

    /** One pass through the enqueue section: stores the transaction under the next ticket, or
        reports that the producer must wait because every slot is taken. */
    method TryEnqueue(info: Info) returns (stored: bool, ticket: nat)
      requires Valid()
      modifies this, slots
      ensures Valid() && stored == (old(occupied) < slots.Length)
      ensures !stored ==> AsRing() == old(AsRing())
      ensures stored ==> AsRing() == Put(old(AsRing()), info)
      ensures stored ==> ticket == old(ticketReq) + 1 == ticketReq
      ensures stored ==> Queued() == old(Queued()) + [info.(ticket := ticket)]
    {
      ghost var before := AsRing();
      if occupied >= slots.Length {
        return false, 0;
      }
      PutAppends(before, info);
      slots[nextIn] := info;
      ticketReq := ticketReq + 1;
      slots[nextIn] := slots[nextIn].(ticket := ticketReq);
      ticket := ticketReq;
      nextIn := nextIn + 1;
      nextIn := nextIn % slots.Length;
      occupied := occupied + 1;
      stored := true;
      assert slots[..] == Put(before, info).slots;
    }

    /** One pass through the dequeue section: hands out the oldest transaction, or reports that
        the consumer must wait because nothing is queued. */
    method TryDequeue() returns (taken: bool, info: Info)
      requires Valid()
      modifies this
      ensures Valid() && taken == (old(occupied) > 0)
      ensures !taken ==> AsRing() == old(AsRing())
      ensures taken ==> (info, AsRing()) == Take(old(AsRing()))
      ensures taken ==> old(Queued()) == [info] + Queued()
      ensures taken ==> info.ticket == old(ticketReq - occupied) + 1
    {
      if occupied <= 0 {
        return false, Info(0, 0, Null, Null, 0);
      }
      TakeRemovesOldest(AsRing());
      info := slots[nextOut];
      assert info == Queued()[0];
      nextOut := nextOut + 1;
      nextOut := nextOut % slots.Length;
      occupied := occupied - 1;
      taken := true;
    }
  }
}
