/**
 * The Snowflake id generator of `src-tauri/src/utils/snowflake.rs`.
 *
 * An id is a 64-bit value that packs, from high to low bits, the milliseconds
 * elapsed since a custom epoch (shift 22), a 5-bit datacenter id (shift 17),
 * a 5-bit worker id (shift 12) and a 12-bit sequence number that tells apart
 * the ids minted within one millisecond.
 *
 * The generator's mutex-protected state is the pair (last timestamp,
 * sequence). Calls to `NextId` are linearised by that mutex, so the model is a
 * class whose methods own the two fields exclusively. The wall clock is not
 * read by the model: each call receives the successive readings the clock
 * gives it.
 */
module SnowflakeIds {
  import opened Wrappers
  import opened Bits

  const WorkerIdBits: nat := 5
  const DatacenterIdBits: nat := 5
  const SequenceBits: nat := 12

  const MaxWorkerId: U64 := Pow2(WorkerIdBits) - 1              // (1 << 5) - 1 == 31
  const MaxDatacenterId: U64 := Pow2(DatacenterIdBits) - 1      // (1 << 5) - 1 == 31

  const WorkerIdShift: nat := SequenceBits                                        // 12
  const DatacenterIdShift: nat := SequenceBits + WorkerIdBits                     // 17
  const TimestampShift: nat := SequenceBits + WorkerIdBits + DatacenterIdBits     // 22

  /** Keeps the sequence within one millisecond in [0, 4095]. */
  const SequenceMask: U64 := Pow2(SequenceBits) - 1             // (1 << 12) - 1 == 4095

  /** 2020-01-01T00:00:00Z in milliseconds since the Unix epoch. */
  const CustomEpoch: U64 := 1577836800000

  const ClockMovedBackwards := "Clock moved backwards. Refusing to generate id."
  const WorkerIdOutOfRange := "Worker ID must be between 0 and 31"
  const DatacenterIdOutOfRange := "Datacenter ID must be between 0 and 31"

  /** The mutex-protected state of a generator. */
  datatype State = State(lastTimestamp: U64, sequence: U64)

  /**
   * A clock reading whose offset from the custom epoch survives the packing:
   * not before the epoch, and small enough for the 42 bits above the shift.
   */
  predicate InEpochRange(timestamp: U64) {
    CustomEpoch <= timestamp && timestamp - CustomEpoch < 0x400_0000_0000
  }

  /** Lexicographic order on (timestamp, sequence): the order in which ids are minted. */
  predicate Precedes(a: State, b: State) {
    a.lastTimestamp < b.lastTimestamp || (a.lastTimestamp == b.lastTimestamp && a.sequence < b.sequence)
  }

  ghost predicate StrictlyIncreasing(states: seq<State>) {
    forall i, j :: 0 <= i < j < |states| ==> Precedes(states[i], states[j])
  }

  /**
   * The panic message of `Snowflake::new` for the given ids, or None when the
   * ids are accepted. The worker id is checked first.
   */
  function ConfigPanic(workerId: U64, datacenterId: U64): (r: Option<string>)
    ensures r == None <==> workerId <= 31 && datacenterId <= 31
    ensures workerId > 31 ==> r == Some(WorkerIdOutOfRange)
    ensures workerId <= 31 && datacenterId > 31 ==> r == Some(DatacenterIdOutOfRange)
  {
    if workerId > MaxWorkerId then Some(WorkerIdOutOfRange)
    else if datacenterId > MaxDatacenterId then Some(DatacenterIdOutOfRange)
    else None
  }

  /** `(sequence + 1) & SEQUENCE_MASK`: the successor modulo 4096. */
  function NextSequence(sequence: U64): (r: U64)
    ensures r == (sequence + 1) % 4096
  {
    AndLowMask(sequence + 1, SequenceBits);
    And(sequence + 1, SequenceMask)
  }

  /** The id for a timestamp, the generator's two ids and a sequence number. */
  function Pack(timestamp: U64, datacenterId: U64, workerId: U64, sequence: U64): U64 {
    var t := Shl(WrappingSub(timestamp, CustomEpoch), TimestampShift);
    var d := Shl(datacenterId, DatacenterIdShift);
    var w := Shl(workerId, WorkerIdShift);
    OrOfU64(t, d);
    var td := Or(t, d);
    OrOfU64(td, w);
    var tdw := Or(td, w);
    OrOfU64(tdw, sequence);
    Or(tdw, sequence)
  }

  /** For in-range fields the four bit fields do not overlap, so the id is their weighted sum. */
  lemma PackValue(timestamp: U64, datacenterId: U64, workerId: U64, sequence: U64)
    requires InEpochRange(timestamp)
    requires datacenterId <= MaxDatacenterId && workerId <= MaxWorkerId && sequence <= SequenceMask
    ensures Pack(timestamp, datacenterId, workerId, sequence)
         == (timestamp - CustomEpoch) * 4194304 + datacenterId * 131072 + workerId * 4096 + sequence
    ensures Pack(timestamp, datacenterId, workerId, sequence) < TwoTo64
  {
    Pow2Values();
    var offset := timestamp - CustomEpoch;
    var t := Shl(WrappingSub(timestamp, CustomEpoch), TimestampShift);
    var d := Shl(datacenterId, DatacenterIdShift);
    var w := Shl(workerId, WorkerIdShift);
    assert t == offset * 4194304;
    assert d == datacenterId * 131072;
    assert w == workerId * 4096;
    OrIntoZeroLowBits(offset, d, 22);
    var td := Or(t, d);
    assert td == (offset * 32 + datacenterId) * Pow2(17);
    OrIntoZeroLowBits(offset * 32 + datacenterId, w, 17);
    var tdw := Or(td, w);
    assert tdw == (offset * 1024 + datacenterId * 32 + workerId) * Pow2(12);
    OrIntoZeroLowBits(offset * 1024 + datacenterId * 32 + workerId, sequence, 12);
  }

  /**
   * Decoding is lossless: masking and shifting the id as the tests do gives
   * back the sequence, the worker id, the datacenter id and the timestamp offset.
   */
  lemma PackDecodes(timestamp: U64, datacenterId: U64, workerId: U64, sequence: U64)
    requires InEpochRange(timestamp)
    requires datacenterId <= MaxDatacenterId && workerId <= MaxWorkerId && sequence <= SequenceMask
    ensures var id := Pack(timestamp, datacenterId, workerId, sequence);
      && And(id, SequenceMask) == sequence
      && And(Shr(id, WorkerIdShift), MaxWorkerId) == workerId
      && And(Shr(id, DatacenterIdShift), MaxDatacenterId) == datacenterId
      && Shr(id, TimestampShift) == timestamp - CustomEpoch
  {
    Pow2Values();
    var id := Pack(timestamp, datacenterId, workerId, sequence);
    var offset := timestamp - CustomEpoch;
    PackValue(timestamp, datacenterId, workerId, sequence);
    AndLowMask(id, SequenceBits);
    ModUnique(id, 4096, offset * 1024 + datacenterId * 32 + workerId, sequence);
    assert Shr(id, WorkerIdShift) == offset * 1024 + datacenterId * 32 + workerId;
    AndLowMask(Shr(id, WorkerIdShift), WorkerIdBits);
    ModUnique(Shr(id, WorkerIdShift), 32, offset * 32 + datacenterId, workerId);
    assert Shr(id, DatacenterIdShift) == offset * 32 + datacenterId;
    AndLowMask(Shr(id, DatacenterIdShift), DatacenterIdBits);
    ModUnique(Shr(id, DatacenterIdShift), 32, offset, datacenterId);
    assert Shr(id, TimestampShift) == offset;
  }

  /** Incrementing the sequence at `now` exhausts the current millisecond. */
  predicate Wraps(st: State, now: U64) {
    now == st.lastTimestamp && NextSequence(st.sequence) == 0
  }

  /** Some reading after the first one is later than `last`. */
  predicate ClockPasses(readings: seq<U64>, last: U64) {
    exists k :: 1 <= k < |readings| && readings[k] > last
  }

  /**
   * The readings one call of `next_id` takes from the clock: the first is
   * always taken; when the millisecond is exhausted the wait loop takes more
   * until one is later than the last timestamp, so such a reading must come.
   */
  predicate CanAdvance(st: State, readings: seq<U64>) {
    |readings| > 0 && (Wraps(st, readings[0]) ==> ClockPasses(readings, st.lastTimestamp))
  }

  /** The index of the first reading at or after `from` that is later than `last`. */
  function FirstLaterIndex(readings: seq<U64>, last: U64, from: nat): (k: nat)
    requires exists j :: from <= j < |readings| && readings[j] > last
    ensures from <= k < |readings| && readings[k] > last
    ensures forall j :: from <= j < k ==> readings[j] <= last
    decreases |readings| - from
  {
    if readings[from] > last then from else FirstLaterIndex(readings, last, from + 1)
  }

  /**
   * One call of `next_id` on the state `st`: the new state, or the error for a
   * clock that went backwards. The id minted is `Pack` of the new state.
   */
  function Advance(st: State, readings: seq<U64>): (r: Result<State, string>)
    requires CanAdvance(st, readings)
    ensures r.Failure? <==> readings[0] < st.lastTimestamp
    ensures r.Failure? ==> r.error == ClockMovedBackwards
    ensures r.Success? ==> r.value.sequence <= SequenceMask
    ensures r.Success? && st.sequence <= SequenceMask ==> Precedes(st, r.value)
    ensures readings[0] > st.lastTimestamp ==> r == Success(State(readings[0], 0))
    ensures readings[0] == st.lastTimestamp ==>
      r.Success? && r.value.sequence == (st.sequence + 1) % 4096
    ensures readings[0] == st.lastTimestamp && !Wraps(st, readings[0]) ==>
      r.Success? && r.value.lastTimestamp == readings[0]
    ensures Wraps(st, readings[0]) ==>
      r.Success? && r.value.lastTimestamp == readings[FirstLaterIndex(readings, st.lastTimestamp, 1)]
  {
    var now := readings[0];
    if now < st.lastTimestamp then Failure(ClockMovedBackwards)
    else if now == st.lastTimestamp then
      var sequence := NextSequence(st.sequence);
      if sequence == 0 then Success(State(readings[FirstLaterIndex(readings, st.lastTimestamp, 1)], 0))
      else Success(State(now, sequence))
    else Success(State(now, 0))
  }

  /** Packing is strictly monotone in (timestamp, sequence) for in-range fields. */
  lemma PackPreservesOrder(a: State, b: State, datacenterId: U64, workerId: U64)
    requires InEpochRange(a.lastTimestamp) && InEpochRange(b.lastTimestamp)
    requires a.sequence <= SequenceMask && b.sequence <= SequenceMask
    requires datacenterId <= MaxDatacenterId && workerId <= MaxWorkerId
    requires Precedes(a, b)
    ensures Pack(a.lastTimestamp, datacenterId, workerId, a.sequence)
          < Pack(b.lastTimestamp, datacenterId, workerId, b.sequence)
  {
    PackValue(a.lastTimestamp, datacenterId, workerId, a.sequence);
    PackValue(b.lastTimestamp, datacenterId, workerId, b.sequence);
  }

  /**
   * Two successive ids of one generator: the second is larger; if both carry
   * the same timestamp they differ by exactly one; after a new millisecond the
   * timestamp field grows and the sequence field is zero.
   */
  lemma SuccessiveIds(st: State, readings: seq<U64>, datacenterId: U64, workerId: U64)
    requires CanAdvance(st, readings) && Advance(st, readings).Success?
    requires st.sequence <= SequenceMask
    requires datacenterId <= MaxDatacenterId && workerId <= MaxWorkerId
    requires InEpochRange(st.lastTimestamp) && InEpochRange(Advance(st, readings).value.lastTimestamp)
    ensures var next := Advance(st, readings).value;
      var a := Pack(st.lastTimestamp, datacenterId, workerId, st.sequence);
      var b := Pack(next.lastTimestamp, datacenterId, workerId, next.sequence);
      && a < b
      && (Shr(a, TimestampShift) == Shr(b, TimestampShift) ==> b - a == 1)
      && (readings[0] > st.lastTimestamp ==> Shr(a, TimestampShift) < Shr(b, TimestampShift) && And(b, SequenceMask) == 0)
  {
    var next := Advance(st, readings).value;
    var a := Pack(st.lastTimestamp, datacenterId, workerId, st.sequence);
    var b := Pack(next.lastTimestamp, datacenterId, workerId, next.sequence);
    assert a < b by {
      PackPreservesOrder(st, next, datacenterId, workerId);
    }
    assert Shr(a, TimestampShift) == st.lastTimestamp - CustomEpoch
        && Shr(b, TimestampShift) == next.lastTimestamp - CustomEpoch
        && And(b, SequenceMask) == next.sequence by {
      PackDecodes(st.lastTimestamp, datacenterId, workerId, st.sequence);
      PackDecodes(next.lastTimestamp, datacenterId, workerId, next.sequence);
    }
    if next.lastTimestamp == st.lastTimestamp {
      assert readings[0] == st.lastTimestamp && !Wraps(st, readings[0]);
      assert next.sequence == st.sequence + 1;
      assert b - a == 1 by {
        PackValue(st.lastTimestamp, datacenterId, workerId, st.sequence);
        PackValue(next.lastTimestamp, datacenterId, workerId, next.sequence);
      }
    }
  }

  /** Ids packed from a strictly increasing run of in-range states strictly increase, so they are pairwise distinct. */
  lemma MintedIdsStrictlyIncrease(minted: seq<State>, datacenterId: U64, workerId: U64)
    requires StrictlyIncreasing(minted)
    requires forall i :: 0 <= i < |minted| ==> InEpochRange(minted[i].lastTimestamp) && minted[i].sequence <= SequenceMask
    requires datacenterId <= MaxDatacenterId && workerId <= MaxWorkerId
    ensures forall i, j :: 0 <= i < j < |minted| ==>
      Pack(minted[i].lastTimestamp, datacenterId, workerId, minted[i].sequence)
      < Pack(minted[j].lastTimestamp, datacenterId, workerId, minted[j].sequence)
  {
    forall i, j | 0 <= i < j < |minted|
      ensures Pack(minted[i].lastTimestamp, datacenterId, workerId, minted[i].sequence)
            < Pack(minted[j].lastTimestamp, datacenterId, workerId, minted[j].sequence)
    {
      PackPreservesOrder(minted[i], minted[j], datacenterId, workerId);
    }
  }

  /**
   * Every id a valid generator has minted at in-range clock readings is
   * larger than the ids it minted before, so no id is minted twice.
   */
  lemma GeneratorIdsDistinct(g: Snowflake)
    requires g.Valid()
    requires forall i :: 0 <= i < |g.minted| ==> InEpochRange(g.minted[i].lastTimestamp)
    ensures forall i, j :: 0 <= i < j < |g.minted| ==>
      Pack(g.minted[i].lastTimestamp, g.datacenterId, g.workerId, g.minted[i].sequence)
      < Pack(g.minted[j].lastTimestamp, g.datacenterId, g.workerId, g.minted[j].sequence)
  {
    MintedIdsStrictlyIncrease(g.minted, g.datacenterId, g.workerId);
  }

  /** The generator (`Snowflake`) with its mutex-protected state. */
  class Snowflake {
    const workerId: U64
    const datacenterId: U64
    var lastTimestamp: U64
    var sequence: U64
    /** The state after each successful call, in order; the ids minted are their packings. */
    ghost var minted: seq<State>

    ghost function Current(): State
      reads this
    {
      State(lastTimestamp, sequence)
    }

    ghost predicate Valid()
      reads this
    {
      && ConfigPanic(workerId, datacenterId) == None
      && sequence <= SequenceMask
      && StrictlyIncreasing(minted)
      && (forall i :: 0 <= i < |minted| ==> minted[i].sequence <= SequenceMask)
      && (minted != [] ==> minted[|minted| - 1] == Current())
    }

    constructor (workerId: U64, datacenterId: U64)
      requires ConfigPanic(workerId, datacenterId) == None
      ensures Valid()
      ensures this.workerId == workerId && this.datacenterId == datacenterId
      ensures Current() == State(0, 0) && minted == []
    {
      this.workerId := workerId;
      this.datacenterId := datacenterId;
      lastTimestamp := 0;
      sequence := 0;
      minted := [];
    }

    /** `Snowflake::new`: the panic for an out-of-range id is the Failure case. */
    static method New(workerId: U64, datacenterId: U64) returns (r: Result<Snowflake, string>)
      ensures r.Success? <==> workerId <= MaxWorkerId && datacenterId <= MaxDatacenterId
      ensures r.Failure? ==> ConfigPanic(workerId, datacenterId) == Some(r.error)
      ensures r.Success? ==> fresh(r.value) && r.value.Valid()
      ensures r.Success? ==> r.value.workerId == workerId && r.value.datacenterId == datacenterId
      ensures r.Success? ==> r.value.Current() == State(0, 0) && r.value.minted == []
    {
      var panic := ConfigPanic(workerId, datacenterId);
      if panic.Some? {
        return Failure(panic.value);
      }
      var generator := new Snowflake(workerId, datacenterId);
      return Success(generator);
    }

    /**
     * `next_id`: `readings` are the successive clock readings the call takes.
     * The new state and the result are those of `Advance`; a failed call
     * changes nothing, a successful one appends its state to `minted`.
     */
    method NextId(readings: seq<U64>) returns (r: Result<U64, string>)
      requires Valid() && CanAdvance(Current(), readings)
      modifies this
      ensures Valid()
      ensures var next := Advance(old(Current()), readings);
        && (next.Failure? ==> r == Failure(ClockMovedBackwards) && Current() == old(Current()) && minted == old(minted))
        && (next.Success? ==> Current() == next.value && minted == old(minted) + [next.value]
                              && r == Success(Pack(lastTimestamp, datacenterId, workerId, sequence)))
    {
      var timestamp := readings[0];
      if timestamp < lastTimestamp {
        return Failure(ClockMovedBackwards);
      }
      if timestamp == lastTimestamp {
        sequence := NextSequence(sequence);
        if sequence == 0 {
          timestamp := TilNextMillis(readings, lastTimestamp);
        }
      } else {
        sequence := 0;
      }
      lastTimestamp := timestamp;
      minted := minted + [Current()];
      var id := Pack(timestamp, datacenterId, workerId, sequence);
      return Success(id);
    }

    /**
     * `til_next_millis`: reads the clock (from `readings[1]` on) until a
     * reading is later than `lastTimestamp`, and returns the first such one.
     */
    method TilNextMillis(readings: seq<U64>, lastTimestamp: U64) returns (timestamp: U64)
      requires ClockPasses(readings, lastTimestamp)
      ensures timestamp == readings[FirstLaterIndex(readings, lastTimestamp, 1)]
    {
      var k := 1;
      timestamp := readings[k];
      while timestamp <= lastTimestamp
        invariant 1 <= k < |readings| && timestamp == readings[k]
        invariant exists j :: k <= j < |readings| && readings[j] > lastTimestamp
        invariant FirstLaterIndex(readings, lastTimestamp, 1) == FirstLaterIndex(readings, lastTimestamp, k)
        decreases |readings| - k
      {
        k := k + 1;
        timestamp := readings[k];
      }
    }
  }

  /**
   * The first id of a fresh generator with worker id 5 and datacenter id 10,
   * minted at an in-range clock reading: its fields decode to 5, 10 and
   * sequence 0, and its timestamp field is the reading's offset from the epoch.
   */
  method MintFirstId(readings: seq<U64>) returns (r: Result<U64, string>)
    requires |readings| > 0 && InEpochRange(readings[0])
    ensures r.Success?
    ensures And(r.value, SequenceMask) == 0
    ensures And(Shr(r.value, WorkerIdShift), MaxWorkerId) == 5
    ensures And(Shr(r.value, DatacenterIdShift), MaxDatacenterId) == 10
    ensures Shr(r.value, TimestampShift) == readings[0] - CustomEpoch
  {
    var created := Snowflake.New(5, 10);
    var generator := created.value;
    r := generator.NextId(readings);
    PackDecodes(readings[0], 10, 5, 0);
  }
}
