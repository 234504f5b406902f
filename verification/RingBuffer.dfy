/** The circular byte buffer of a pipe, as a value and as the array the kernel updates in place. */
module RingBuffer {
  const PIPE_BUFFER_SIZE: nat := 100

  datatype RawRing = RawRing(buffer: seq<char>, readIdx: nat, writeIdx: nat, count: nat)

  predicate RingOk(r: RawRing) {
    && |r.buffer| == PIPE_BUFFER_SIZE
    && r.readIdx < PIPE_BUFFER_SIZE
    && r.count <= PIPE_BUFFER_SIZE
    && r.writeIdx == Slot(r.readIdx, r.count)
  }

  /** The array index `k` places after `from`. */
  function Slot(from: nat, k: nat): (i: nat)
    ensures i < PIPE_BUFFER_SIZE
  {
    (from + k) % PIPE_BUFFER_SIZE
  }

  type Ring = r: RawRing | RingOk(r) witness EmptyRing()

  function EmptyRing(): RawRing {
    RawRing(seq(PIPE_BUFFER_SIZE, _ => '\0'), 0, 0, 0)
  }

  /** The stored bytes, oldest first. */
  function Contents(r: Ring): (s: seq<char>)
  {
    seq(r.count, i requires 0 <= i < r.count => r.buffer[Slot(r.readIdx, i)])
  }

  lemma SlotStep(from: nat, k: nat)
    requires from < PIPE_BUFFER_SIZE && k < PIPE_BUFFER_SIZE
    ensures Slot(Slot(from, k), 1) == Slot(from, k + 1)
    ensures Slot(Slot(from, 1), k) == Slot(from, k + 1)
  {
    hide Slot;
    SlotCases(from, k);
    SlotCases(from, 1);
    SlotCases(from, k + 1);
    SlotCases(Slot(from, k), 1);
    SlotCases(Slot(from, 1), k);
  }

  /** At most one wrap-around. */
  lemma SlotCases(from: nat, k: nat)
    requires from < PIPE_BUFFER_SIZE && k <= PIPE_BUFFER_SIZE
    ensures Slot(from, k) == if from + k < PIPE_BUFFER_SIZE then from + k else from + k - PIPE_BUFFER_SIZE
  {
  }

  lemma SlotsDiffer(from: nat, i: nat, j: nat)
    requires from < PIPE_BUFFER_SIZE && i < j < PIPE_BUFFER_SIZE
    ensures Slot(from, i) != Slot(from, j)
  {
    hide Slot;
    SlotCases(from, i);
    SlotCases(from, j);
  }

  function Store(r: Ring, c: char): Ring
    requires r.count < PIPE_BUFFER_SIZE
  {
    SlotStep(r.readIdx, r.count);
    RawRing(r.buffer[r.writeIdx := c], r.readIdx, Slot(r.writeIdx, 1), r.count + 1)
  }

  function First(r: Ring): char { r.buffer[r.readIdx] }

  function Consume(r: Ring): Ring
    requires r.count > 0
  {
    SlotStep(r.readIdx, r.count - 1);
    RawRing(r.buffer, Slot(r.readIdx, 1), r.writeIdx, r.count - 1)
  }

  function Reset(r: Ring): Ring {
    RawRing(r.buffer, 0, 0, 0)
  }

  /** Storing appends. */
  lemma StoreAppends(r: Ring, c: char)
    requires r.count < PIPE_BUFFER_SIZE
    ensures Contents(Store(r, c)) == Contents(r) + [c]
  {
    hide Slot;
    var r' := Store(r, c);
    forall i | 0 <= i < r.count ensures Contents(r')[i] == Contents(r)[i] {
      SlotsDiffer(r.readIdx, i, r.count);
    }
  }

  /** Consuming removes the oldest byte. */
  lemma ConsumeTakesFirst(r: Ring)
    requires r.count > 0
    ensures Contents(r) == [First(r)] + Contents(Consume(r))
  {
    hide Slot;
    var r' := Consume(r);
    SlotCases(r.readIdx, 0);
    forall i | 0 <= i < r'.count ensures Contents(r')[i] == Contents(r)[i + 1] {
      SlotStep(r.readIdx, i);
    }
  }

  /** pipe_t's buffer fields. */
  class PipeBuffer {
    const buffer: array<char>
    var readIdx: nat
    var writeIdx: nat
    var count: nat

    ghost predicate Valid()
      reads this, buffer
    {
      buffer.Length == PIPE_BUFFER_SIZE && RingOk(RawRing(buffer[..], readIdx, writeIdx, count))
    }

    ghost function View(): Ring
      requires Valid()
      reads this, buffer
    {
      RawRing(buffer[..], readIdx, writeIdx, count)
    }

    constructor ()
      ensures Valid() && fresh(buffer) && Contents(View()) == []
    {
      buffer := new char[PIPE_BUFFER_SIZE];
      readIdx, writeIdx, count := 0, 0, 0;
    }

    /** The critical section of pipeRead: nothing happens when the buffer is empty. */
    method Take() returns (ok: bool, c: char)
      requires Valid()
      modifies this`readIdx, this`count
      ensures Valid()
      ensures ok == (old(count) > 0)
      ensures ok ==> old(Contents(View())) == [c] + Contents(View()) && View() == Consume(old(View()))
      ensures !ok ==> View() == old(View())
    {
      ok, c := false, '\0';
      if count > 0 {
        ConsumeTakesFirst(View());
        SlotStep(readIdx, count - 1);
        c := buffer[readIdx];
        readIdx := (readIdx + 1) % PIPE_BUFFER_SIZE;
        count := count - 1;
        ok := true;
      }
    }

    /** The critical section of pipeWrite: nothing happens when the buffer is full. */
    method Put(c: char) returns (ok: bool)
      requires Valid()
      modifies this`writeIdx, this`count, buffer
      ensures Valid()
      ensures ok == (old(count) < PIPE_BUFFER_SIZE)
      ensures ok ==> Contents(View()) == old(Contents(View())) + [c] && View() == Store(old(View()), c)
      ensures !ok ==> View() == old(View())
    {
      ok := false;
      if count < PIPE_BUFFER_SIZE {
        ghost var r: Ring := View();
        StoreAppends(r, c);
        SlotStep(readIdx, count);
        buffer[writeIdx] := c;
        assert buffer[..] == r.buffer[writeIdx := c];
        writeIdx := (writeIdx + 1) % PIPE_BUFFER_SIZE;
        count := count + 1;
        ok := true;
      }
    }

    method Clear()
      requires Valid()
      modifies this`readIdx, this`writeIdx, this`count
      ensures Valid() && View() == Reset(old(View())) && Contents(View()) == []
      ensures readIdx == 0 && writeIdx == 0 && count == 0
    {
      readIdx, writeIdx, count := 0, 0, 0;
    }
  }
}
