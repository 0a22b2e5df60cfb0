/** The snowflake id generator of cerebro/snowflake.h. */
module Snowflake {
  import opened Bits

  const WORKER_ID_BITS: nat := 5
  const DATACENTER_ID_BITS: nat := 5
  const SEQUENCE_BITS: nat := 12
  const MAX_WORKER_ID: nat := 31
  const MAX_DATACENTER_ID: nat := 31
  const WORKER_ID_SHIFT: nat := SEQUENCE_BITS
  const DATACENTER_ID_SHIFT: nat := SEQUENCE_BITS + WORKER_ID_BITS
  const TIMESTAMP_LEFT_SHIFT: nat := SEQUENCE_BITS + WORKER_ID_BITS + DATACENTER_ID_BITS
  const SEQUENCE_MASK: nat := 4095

  /** Milliseconds since the epoch of the generator that still fit into the id. */
  const TIMESTAMP_LIMIT: nat := 0x200_0000_0000

  /** The 64-bit signed integer that keeps the low 64 bits. */
  function ToInt64(x: nat): (r: int)
  {
    var low := x % 0x1_0000_0000_0000_0000;
    if low < 0x8000_0000_0000_0000 then low else low - 0x1_0000_0000_0000_0000
  }

  /** The four fields shifted into place and combined bit by bit. */
  function Pack(elapsed: nat, datacenter: nat, worker: nat, sequence: nat): (id: int)
  {
    ToInt64(Or(Or(Or(Shl(elapsed, TIMESTAMP_LEFT_SHIFT), Shl(datacenter, DATACENTER_ID_SHIFT)),
                  Shl(worker, WORKER_ID_SHIFT)),
               sequence))
  }

  predicate ValidFields(datacenter: nat, worker: nat, sequence: nat)
  {
    datacenter <= MAX_DATACENTER_ID && worker <= MAX_WORKER_ID && sequence <= SEQUENCE_MASK
  }

  lemma Powers()
    ensures Pow2(5) == 32 && Pow2(12) == 4096 && Pow2(17) == 131072 && Pow2(22) == 4194304
    ensures Shl(1, 12) == 4096
  {
    assert Pow2(4) == 16;
    assert Pow2(8) == 256;
    assert Pow2(12) == 4096;
    assert Pow2(16) == 65536;
    assert Pow2(20) == 1048576;
    ShlIs(1, 12);
  }

  /** The fields fill the 63 bits above the sign: 41 for time, five each for data centre and worker,
      twelve for the sequence number. */
  lemma FieldsFill()
    ensures MAX_WORKER_ID + 1 == Pow2(WORKER_ID_BITS) == 32 && MAX_DATACENTER_ID + 1 == Pow2(DATACENTER_ID_BITS) == 32
    ensures SEQUENCE_MASK + 1 == Pow2(SEQUENCE_BITS) == 4096
    ensures TIMESTAMP_LIMIT * Pow2(TIMESTAMP_LEFT_SHIFT) == 0x8000_0000_0000_0000
  {
    Powers();
  }

  function SumOf(elapsed: nat, datacenter: nat, worker: nat, sequence: nat): (x: nat)
  {
    ((elapsed * 32 + datacenter) * 32 + worker) * 4096 + sequence
  }

  /** The combination of the shifted fields is their sum: no field touches another. */
  lemma OrIsSum(elapsed: nat, datacenter: nat, worker: nat, sequence: nat)
    requires ValidFields(datacenter, worker, sequence)
    ensures Or(Or(Or(Shl(elapsed, 22), Shl(datacenter, 17)), Shl(worker, 12)), sequence)
         == SumOf(elapsed, datacenter, worker, sequence)
  {
    hide Or, Shl, Pow2;
    Powers();
    ShlIs(elapsed, 22);
    ShlIs(datacenter, 17);
    ShlIs(worker, 12);
    var a := elapsed * 32 + datacenter;
    var b := a * 32 + worker;
    OrDisjoint(elapsed, 22, Shl(datacenter, 17));
    ShlIs(a, 17);
    OrDisjoint(a, 17, Shl(worker, 12));
    ShlIs(b, 12);
    OrDisjoint(b, 12, sequence);
  }

  lemma PartsOfSum(elapsed: nat, datacenter: nat, worker: nat, sequence: nat)
    requires ValidFields(datacenter, worker, sequence)
    ensures var x := SumOf(elapsed, datacenter, worker, sequence);
            && x / 4194304 == elapsed && (x / 131072) % 32 == datacenter
            && (x / 4096) % 32 == worker && x % 4096 == sequence
  {
    var x := SumOf(elapsed, datacenter, worker, sequence);
    Remainder(x, 4194304, elapsed, datacenter * 131072 + worker * 4096 + sequence);
    Remainder(x, 131072, elapsed * 32 + datacenter, worker * 4096 + sequence);
    Remainder(elapsed * 32 + datacenter, 32, elapsed, datacenter);
    Remainder(x, 4096, (elapsed * 32 + datacenter) * 32 + worker, sequence);
    Remainder((elapsed * 32 + datacenter) * 32 + worker, 32, elapsed * 32 + datacenter, worker);
  }

  /** Within the timestamp limit the id is the sum of its fields. */
  lemma PackIsSum(elapsed: nat, datacenter: nat, worker: nat, sequence: nat)
    requires ValidFields(datacenter, worker, sequence) && elapsed < TIMESTAMP_LIMIT
    ensures Pack(elapsed, datacenter, worker, sequence) == SumOf(elapsed, datacenter, worker, sequence)
    ensures 0 <= Pack(elapsed, datacenter, worker, sequence) < 0x8000_0000_0000_0000
  {
    hide Or, Shl;
    OrIsSum(elapsed, datacenter, worker, sequence);
    var x := SumOf(elapsed, datacenter, worker, sequence);
    assert x < 0x8000_0000_0000_0000;
  }

  /** Packing is lossless: every field can be read back from the id. */
  lemma PackIsLossless(elapsed: nat, datacenter: nat, worker: nat, sequence: nat)
    requires ValidFields(datacenter, worker, sequence) && elapsed < TIMESTAMP_LIMIT
    ensures var id := Pack(elapsed, datacenter, worker, sequence);
            && 0 <= id < 0x8000_0000_0000_0000
            && Shr(id, TIMESTAMP_LEFT_SHIFT) == elapsed
            && And(Shr(id, DATACENTER_ID_SHIFT), MAX_DATACENTER_ID) == datacenter
            && And(Shr(id, WORKER_ID_SHIFT), MAX_WORKER_ID) == worker
            && And(id, SEQUENCE_MASK) == sequence
  {
    hide Pack, And, Shr, Pow2, SumOf;
    PackIsSum(elapsed, datacenter, worker, sequence);
    PartsOfSum(elapsed, datacenter, worker, sequence);
    Powers();
    var id := Pack(elapsed, datacenter, worker, sequence);
    ShrIs(id, 22);
    ShrIs(id, 17);
    ShrIs(id, 12);
    AndLow(id / 131072, 5);
    AndLow(id / 4096, 5);
    AndLow(id, 12);
  }

  /** What an id is made from: the moment, the fields of its generator and the sequence number. */
  datatype Issue = Issue(timestamp: int, datacenter: nat, worker: nat, sequence: nat)

  predicate ValidIssue(a: Issue, epoch: int)
  {
    a.timestamp >= epoch && ValidFields(a.datacenter, a.worker, a.sequence)
  }

  function IdOf(a: Issue, epoch: int): (id: int)
    requires ValidIssue(a, epoch)
  {
    Pack(a.timestamp - epoch, a.datacenter, a.worker, a.sequence)
  }

  /** Later in time, or later within a millisecond. */
  predicate Before(a: Issue, b: Issue)
  {
    a.timestamp < b.timestamp || (a.timestamp == b.timestamp && a.sequence < b.sequence)
  }

  /** The fields in the order in which they are packed. */
  predicate FieldsLess(a: Issue, b: Issue)
  {
    || a.timestamp < b.timestamp
    || (a.timestamp == b.timestamp
        && (|| a.datacenter < b.datacenter
            || (a.datacenter == b.datacenter
                && (a.worker < b.worker || (a.worker == b.worker && a.sequence < b.sequence)))))
  }

  /** Within the timestamp limit ids are ordered like their fields, and are different when any of
      these is. */
  lemma IdOrder(a: Issue, b: Issue, epoch: int)
    requires ValidIssue(a, epoch) && ValidIssue(b, epoch)
    requires a.timestamp < epoch + TIMESTAMP_LIMIT && b.timestamp < epoch + TIMESTAMP_LIMIT
    ensures IdOf(a, epoch) < IdOf(b, epoch) <==> FieldsLess(a, b)
    ensures IdOf(a, epoch) == IdOf(b, epoch) <==> a == b
  {
    hide Pack;
    PackIsSum(a.timestamp - epoch, a.datacenter, a.worker, a.sequence);
    PackIsSum(b.timestamp - epoch, b.datacenter, b.worker, b.sequence);
  }

  /** The limit is sharp: the first timestamp beyond it makes a negative id. */
  lemma LimitIsSharp(datacenter: nat, worker: nat, sequence: nat)
    requires ValidFields(datacenter, worker, sequence)
    ensures Pack(TIMESTAMP_LIMIT, datacenter, worker, sequence) < 0
  {
    hide Or, Shl;
    OrIsSum(TIMESTAMP_LIMIT, datacenter, worker, sequence);
  }

  /** Exactly when an id is not negative, for any time after the epoch. */
  lemma SignOfId(elapsed: nat, datacenter: nat, worker: nat, sequence: nat)
    requires ValidFields(datacenter, worker, sequence)
    ensures Pack(elapsed, datacenter, worker, sequence) >= 0 <==> elapsed % (2 * TIMESTAMP_LIMIT) < TIMESTAMP_LIMIT
  {
    hide Or, Shl;
    OrIsSum(elapsed, datacenter, worker, sequence);
    var low := (datacenter * 32 + worker) * 4096 + sequence;
    var q, r := elapsed / (2 * TIMESTAMP_LIMIT), elapsed % (2 * TIMESTAMP_LIMIT);
    assert elapsed == 2 * TIMESTAMP_LIMIT * q + r;
    Remainder(SumOf(elapsed, datacenter, worker, sequence), 0x1_0000_0000_0000_0000, q, r * 4194304 + low);
  }

  ghost predicate Passes(clock: nat -> int, t: int)
  {
    exists n: nat :: clock(n) > t
  }

  /** A steady clock: its readings never go back and pass every bound. */
  ghost predicate Steady(clock: nat -> int, epoch: int)
  {
    && (forall m: nat, n: nat :: m <= n ==> clock(m) <= clock(n))
    && (forall t: int :: Passes(clock, t))
    && (forall n: nat :: clock(n) >= epoch)
  }

  predicate Increasing(issued: seq<Issue>)
  {
    forall i, j :: 0 <= i < j < |issued| ==> Before(issued[i], issued[j])
  }

  /** The masked successor: zero after the last number of a millisecond. */
  lemma NextSequence(sequence: nat)
    requires sequence <= SEQUENCE_MASK
    ensures And(sequence + 1, SEQUENCE_MASK) == if sequence == SEQUENCE_MASK then 0 else sequence + 1
  {
    hide And, Pow2;
    Powers();
    AndLow(sequence + 1, SEQUENCE_BITS);
  }

  class Generator {
    const epoch: int
    const clock: nat -> int
    var readings: nat
    var lastTimestamp: int
    var workerId: nat
    var datacenterId: nat
    var sequence: nat
    /** All ids made so far, and what each was made from. */
    ghost var ids: seq<int>
    ghost var issued: seq<Issue>

    ghost predicate Valid()
      reads this
    {
      && Steady(clock, epoch) && ValidFields(datacenterId, workerId, sequence)
      && Increasing(issued) && |ids| == |issued|
      && (forall i :: 0 <= i < |issued| ==> ValidIssue(issued[i], epoch) && ids[i] == IdOf(issued[i], epoch))
      && (issued == [] ==> lastTimestamp == -1 && sequence == 0)
      && (issued != [] ==> issued[|issued| - 1].timestamp == lastTimestamp <= clock(readings)
                           && issued[|issued| - 1].sequence == sequence)
    }

    constructor (epoch: int, clock: nat -> int)
      requires Steady(clock, epoch)
      ensures Valid() && ids == [] && this.epoch == epoch && this.clock == clock
      ensures readings == 0 && lastTimestamp == -1 && sequence == 0
    {
      this.epoch, this.clock := epoch, clock;
      readings, lastTimestamp, workerId, datacenterId, sequence := 0, -1, 0, 0, 0;
      ids, issued := [], [];
    }

    /** Refuses ids that do not fit; the result is false for the exception. */
    method Init(worker: int, datacenter: int) returns (ok: bool)
      requires Valid()
      modifies this`workerId, this`datacenterId
      ensures Valid()
      ensures ok <==> 0 <= worker < 32 && 0 <= datacenter < 32
      ensures if ok then workerId == worker && datacenterId == datacenter
              else workerId == old(workerId) && datacenterId == old(datacenterId)
    {
      if worker > MAX_WORKER_ID || worker < 0 {
        return false;
      }
      if datacenter > MAX_DATACENTER_ID || datacenter < 0 {
        return false;
      }
      workerId, datacenterId := worker, datacenter;
      ok := true;
    }

    method Millisecond() returns (t: int)
      modifies this`readings
      ensures t == clock(old(readings)) && readings == old(readings) + 1
    {
      t := clock(readings);
      readings := readings + 1;
    }

    /** Reads the clock until it has passed `last`; this ends because the clock does. */
    method WaitNextMillis(last: int) returns (t: int)
      requires Steady(clock, epoch)
      modifies this`readings
      ensures t > last && readings > old(readings) && t == clock(readings - 1)
    {
      assert Passes(clock, last);
      ghost var n: nat :| clock(n) > last;
      t := Millisecond();
      while t <= last
        invariant readings > old(readings) && t == clock(readings - 1)
        decreases n - readings
      {
        assert clock(readings - 1) <= last < clock(n);
        assert readings - 1 < n;
        t := Millisecond();
      }
    }

    /** The next id.  In a millisecond that was used before, the sequence number goes on; when it
        wraps around, the next millisecond is waited for. */
    method NextId() returns (id: int)
      requires Valid()
      modifies this`readings, this`lastTimestamp, this`sequence, this`ids, this`issued
      ensures Valid() && lastTimestamp >= epoch
      ensures ids == old(ids) + [id]
      ensures issued == old(issued) + [Issue(lastTimestamp, datacenterId, workerId, sequence)]
      ensures readings > old(readings)
      ensures if clock(old(readings)) != old(lastTimestamp) then
                lastTimestamp == clock(old(readings)) && sequence == 0 && readings == old(readings) + 1
              else if old(sequence) < 4095 then
                lastTimestamp == old(lastTimestamp) && sequence == old(sequence) + 1 && readings == old(readings) + 1
              else
                lastTimestamp > old(lastTimestamp) && sequence == 0 && lastTimestamp == clock(readings - 1)
    {
      hide Pack, And;
      var timestamp := Millisecond();
      if lastTimestamp == timestamp {
        NextSequence(sequence);
        sequence := And(sequence + 1, SEQUENCE_MASK);
        if sequence == 0 {
          timestamp := WaitNextMillis(lastTimestamp);
        }
      } else {
        sequence := 0;
      }
      lastTimestamp := timestamp;
      issued := issued + [Issue(lastTimestamp, datacenterId, workerId, sequence)];
      id := Pack(timestamp - epoch, datacenterId, workerId, sequence);
      ids := ids + [id];
    }
  }

  // ---- Runs --------------------------------------------------------------------------------

  /** All ids made so far were made before the limit. */
  ghost predicate InTime(g: Generator)
    reads g
  {
    g.lastTimestamp < g.epoch + TIMESTAMP_LIMIT
  }

  lemma IssuedInTime(g: Generator, i: nat)
    requires g.Valid() && InTime(g) && i < |g.ids|
    ensures g.issued[i].timestamp < g.epoch + TIMESTAMP_LIMIT
  {
    var n := |g.issued| - 1;
    assert i < n ==> Before(g.issued[i], g.issued[n]);
  }

  /** No generator ever makes an id twice, not even when it is initialised again; and exactly when
      an id is larger than an earlier one: time has gone on, or the fields have not gone down. */
  lemma IdsOfOneGenerator(g: Generator, i: nat, j: nat)
    requires g.Valid() && InTime(g) && i < j < |g.ids|
    ensures g.ids[i] != g.ids[j]
    ensures g.ids[i] < g.ids[j] <==>
      var a, b := g.issued[i], g.issued[j];
      || a.timestamp < b.timestamp
      || a.datacenter < b.datacenter
      || (a.datacenter == b.datacenter && a.worker <= b.worker)
  {
    hide IdOf;
    IssuedInTime(g, i);
    IssuedInTime(g, j);
    assert Before(g.issued[i], g.issued[j]);
    IdOrder(g.issued[i], g.issued[j], g.epoch);
  }

  /** As long as a generator keeps its fields, its ids increase strictly. */
  lemma IdsIncrease(g: Generator)
    requires g.Valid() && InTime(g)
    requires forall i :: 0 <= i < |g.issued| ==>
      g.issued[i].datacenter == g.datacenterId && g.issued[i].worker == g.workerId
    ensures forall i, j :: 0 <= i < j < |g.ids| ==> g.ids[i] < g.ids[j]
  {
    forall i, j | 0 <= i < j < |g.ids| ensures g.ids[i] < g.ids[j] {
      IdsOfOneGenerator(g, i, j);
    }
  }

  /** Ids that were made with different data centres or workers are different, whichever generators
      made them, and whenever. */
  lemma GeneratorsNeverCollide(g: Generator, h: Generator, i: nat, j: nat)
    requires g.Valid() && InTime(g) && i < |g.ids|
    requires h.Valid() && InTime(h) && j < |h.ids|
    requires g.issued[i].datacenter != h.issued[j].datacenter || g.issued[i].worker != h.issued[j].worker
    ensures g.ids[i] != h.ids[j]
  {
    hide IdOf;
    IssuedInTime(g, i);
    IssuedInTime(h, j);
    Relative(g.issued[i], g.epoch);
    Relative(h.issued[j], h.epoch);
    IdOrder(g.issued[i].(timestamp := g.issued[i].timestamp - g.epoch),
            h.issued[j].(timestamp := h.issued[j].timestamp - h.epoch), 0);
  }

  lemma Relative(a: Issue, epoch: int)
    requires ValidIssue(a, epoch)
    ensures IdOf(a, epoch) == IdOf(a.(timestamp := a.timestamp - epoch), 0)
  {
    hide Pack;
  }

  lemma HalfSpeed()
    ensures Steady((n: nat) => n / 2, 0)
  {
    var clock := (n: nat) => n / 2;
    forall t: int ensures Passes(clock, t) {
      var n: nat := if t < 0 then 0 else 2 * t + 2;
      assert clock(n) > t;
    }
  }

  /** Initialising a generator again between two ids of one millisecond can make them fall. */
  method FallingIds() returns (first: int, second: int)
    ensures second < first
  {
    hide Pack, Steady;
    HalfSpeed();
    var g := new Generator(0, (n: nat) => n / 2);
    var ok := g.Init(5, 0);
    first := g.NextId();
    ok := g.Init(1, 0);
    second := g.NextId();
    IdsOfOneGenerator(g, 0, 1);
  }
}
