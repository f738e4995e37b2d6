/** Values of the native mixer: 16-bit samples, sounds, and the value of one
    channel's ring buffer of timed sounds (`Sounds` in the C source), with the
    ring invariant that its producer and consumer steps keep.

    Times are counted in sample frames throughout, so the source's
    `len * samplelen` seconds is `len` frames here. */
module SoundQueue {

  datatype Option<T> = None | Some(value: T)

  /** A signed 16-bit PCM sample (`Int16`). */
  type Sample = x: int | -0x8000 <= x < 0x8000

  /** Storing an `int` into an `Int16`: two's-complement truncation to 16 bits. */
  function Wrap16(x: int): (r: Sample)
    ensures (x - r) % 0x1_0000 == 0
    ensures -0x8000 <= x < 0x8000 ==> r == x
  {
    (x + 0x8000) % 0x1_0000 - 0x8000
  }

  /** A sound handed over for playback: `len` frames, the left channel's
      samples followed by the right channel's. */
  datatype Sound = Sound(buffer: seq<Sample>, len: int)

  predicate ValidSound(x: Sound) {
    0 <= x.len && |x.buffer| == 2 * x.len
  }

  /** A sound waiting in or playing from a channel: `start` is the frame at
      which it should start (non-positive: as soon as possible) and `offset`
      the number of its frames already mixed into the output. */
  datatype TimedSound = TimedSound(buffer: seq<Sample>, start: int, offset: int, len: int)

  predicate Playable(s: TimedSound) {
    0 <= s.len && |s.buffer| == 2 * s.len && 0 <= s.offset
  }

  /** `newTimedSound`: a timed sound that shares the sound's samples and has
      played nothing yet. */
  function NewTimedSound(x: Sound, start: int): (r: TimedSound)
    ensures r.offset == 0 && r.start == start
    ensures r.buffer == x.buffer && r.len == x.len
    ensures Playable(r) <==> ValidSound(x)
  {
    TimedSound(x.buffer, start, 0, x.len)
  }

  /** One channel: a fixed array of slots (`None` is a free slot), the pause
      flag, the consumer and producer indices and the frame at which the
      channel will have finished what it has been given. */
  datatype Queue = Queue(slots: seq<Option<TimedSound>>, paused: bool,
                         consumer: int, producer: int, doneAt: int)

  predicate Indexed(q: Queue) {
    |q.slots| > 0 && 0 <= q.consumer < |q.slots| && 0 <= q.producer < |q.slots|
  }

  predicate AllPlayable(q: Queue) {
    forall i :: 0 <= i < |q.slots| && q.slots[i].Some? ==> Playable(q.slots[i].value)
  }

  predicate WellFormed(q: Queue) {
    Indexed(q) && AllPlayable(q)
  }

  /** The index after `i` in a ring of `n` slots: `i++`, then back to 0 at `n`. */
  function Next(i: int, n: int): (r: int)
    requires 0 <= i < n
    ensures 0 <= r < n
    ensures r == (i + 1) % n
  {
    if i + 1 == n then 0 else i + 1
  }

  /** Position of slot `i` in queue order, counted from the consumer. */
  function Rank(q: Queue, i: int): (r: int)
    requires Indexed(q) && 0 <= i < |q.slots|
  {
    if q.consumer <= i then i - q.consumer else i - q.consumer + |q.slots|
  }

  /** The slot holding the `k`-th queued sound. */
  function SlotAt(q: Queue, k: int): (i: int)
    requires Indexed(q) && 0 <= k < |q.slots|
    ensures 0 <= i < |q.slots| && Rank(q, i) == k
  {
    if q.consumer + k < |q.slots| then q.consumer + k else q.consumer + k - |q.slots|
  }

  /** Number of queued sounds: the distance from consumer to producer, or the
      whole ring when the producer has caught up with an occupied consumer slot. */
  function Length(q: Queue): (n: nat)
    requires Indexed(q)
    ensures n <= |q.slots|
  {
    if q.producer == q.consumer && q.slots[q.consumer].Some? then |q.slots|
    else Rank(q, q.producer)
  }

  /** The ring invariant: the occupied slots are exactly the `Length(q)` slots
      that follow the consumer. */
  predicate Ring(q: Queue) {
    Indexed(q) &&
    forall i :: 0 <= i < |q.slots| ==> (q.slots[i].Some? <==> Rank(q, i) < Length(q))
  }

  /** The queued sounds, head first. */
  function Contents(q: Queue): (r: seq<TimedSound>)
    requires Ring(q)
    ensures |r| == Length(q)
  {
    seq(Length(q), k requires 0 <= k < Length(q) => q.slots[SlotAt(q, k)].value)
  }

  /** `newSounds`: `n` free slots, both indices at 0, unpaused, done at 0. */
  function EmptyQueue(n: int): (q: Queue)
    requires n > 0
    ensures |q.slots| == n && !q.paused && q.consumer == 0 && q.producer == 0 && q.doneAt == 0
    ensures forall i :: 0 <= i < n ==> q.slots[i] == None
  {
    Queue(seq(n, _ => None), false, 0, 0, 0)
  }

  /** The producer step (`ws_play`, `ws_play_next`): the sound goes into the
      producer slot, and the producer index moves on. */
  function Produce(q: Queue, s: TimedSound): (r: Queue)
    requires Indexed(q)
    ensures Indexed(r) && |r.slots| == |q.slots| && r.slots[q.producer] == Some(s)
    ensures forall i :: 0 <= i < |q.slots| && i != q.producer ==> r.slots[i] == q.slots[i]
    ensures r.producer == (q.producer + 1) % |q.slots| && r.consumer == q.consumer
    ensures r.paused == q.paused && r.doneAt == q.doneAt
  {
    q.(slots := q.slots[q.producer := Some(s)], producer := Next(q.producer, |q.slots|))
  }

  /** The consumer step of the callback: the head slot is freed and the
      consumer index moves on. */
  function Consume(q: Queue): (r: Queue)
    requires Indexed(q)
    ensures Indexed(r) && |r.slots| == |q.slots| && r.slots[q.consumer].None?
    ensures forall i :: 0 <= i < |q.slots| && i != q.consumer ==> r.slots[i] == q.slots[i]
    ensures r.consumer == (q.consumer + 1) % |q.slots| && r.producer == q.producer
    ensures r.paused == q.paused && r.doneAt == q.doneAt
  {
    q.(slots := q.slots[q.consumer := None], consumer := Next(q.consumer, |q.slots|))
  }

  /** `slots` differs from `orig` only by slots that have been freed. */
  predicate OnlyFreed(slots: seq<Option<TimedSound>>, orig: seq<Option<TimedSound>>) {
    |slots| == |orig| && forall i :: 0 <= i < |slots| ==> slots[i] == orig[i] || slots[i].None?
  }

  /** Freeing an occupied head slot keeps the queue well formed, frees one
      more slot and lowers the number of occupied slots. */
  lemma ConsumeFrees(q: Queue, orig: seq<Option<TimedSound>>)
    requires WellFormed(q) && q.slots[q.consumer].Some? && OnlyFreed(q.slots, orig)
    ensures WellFormed(Consume(q)) && OnlyFreed(Consume(q).slots, orig)
    ensures Occupied(Consume(q).slots) < Occupied(q.slots)
  {
    OccupiedClear(q.slots, q.consumer);
  }

  /** The callback's in-place update of the head sound (its `offset`). */
  function SetHead(q: Queue, s: TimedSound): (r: Queue)
    requires Indexed(q)
    ensures Indexed(r) && |r.slots| == |q.slots| && r.slots[q.consumer] == Some(s)
    ensures forall i :: 0 <= i < |q.slots| && i != q.consumer ==> r.slots[i] == q.slots[i]
    ensures r.consumer == q.consumer && r.producer == q.producer
    ensures r.paused == q.paused && r.doneAt == q.doneAt
  {
    q.(slots := q.slots[q.consumer := Some(s)])
  }

  /** Number of occupied slots. */
  function Occupied(slots: seq<Option<TimedSound>>): (n: nat)
    ensures n <= |slots|
  {
    if slots == [] then 0
    else (if slots[|slots| - 1].Some? then 1 else 0) + Occupied(slots[..|slots| - 1])
  }

  lemma {:induction false} OccupiedClear(slots: seq<Option<TimedSound>>, i: int)
    requires 0 <= i < |slots| && slots[i].Some?
    ensures Occupied(slots[i := None]) == Occupied(slots) - 1
  {
    var last := |slots| - 1;
    if i < last {
      assert slots[i := None][..last] == slots[..last][i := None];
      OccupiedClear(slots[..last], i);
    } else {
      assert slots[i := None][..last] == slots[..last];
    }
  }

  lemma {:induction false} OccupiedReplace(slots: seq<Option<TimedSound>>, i: int, s: TimedSound)
    requires 0 <= i < |slots| && slots[i].Some?
    ensures Occupied(slots[i := Some(s)]) == Occupied(slots)
  {
    var last := |slots| - 1;
    if i < last {
      assert slots[i := Some(s)][..last] == slots[..last][i := Some(s)];
      OccupiedReplace(slots[..last], i, s);
    } else {
      assert slots[i := Some(s)][..last] == slots[..last];
    }
  }

  lemma RankSlotAt(q: Queue, i: int)
    requires Indexed(q) && 0 <= i < |q.slots|
    ensures 0 <= Rank(q, i) < |q.slots| && SlotAt(q, Rank(q, i)) == i
  {
  }

  /** The producer slot is free exactly when the queue is not full. */
  lemma ProducerFreeIffNotFull(q: Queue)
    requires Ring(q)
    ensures q.slots[q.producer].None? <==> Length(q) < |q.slots|
  {
    if q.producer != q.consumer {
      assert 0 < Rank(q, q.producer) < |q.slots|;
    }
  }

  /** The consumer slot is occupied exactly when the queue is not empty, and
      then it holds the head sound. */
  lemma HeadIsFirst(q: Queue)
    requires Ring(q)
    ensures q.slots[q.consumer].Some? <==> Contents(q) != []
    ensures q.slots[q.consumer].Some? ==> Contents(q)[0] == q.slots[q.consumer].value
  {
    assert Rank(q, q.consumer) == 0;
    if Length(q) > 0 {
      assert SlotAt(q, 0) == q.consumer;
    }
  }

  /** A ring whose consumer slot is free is empty: every slot is free and
      the producer is at the consumer. */
  lemma EmptyRingIsFree(q: Queue)
    requires Ring(q) && q.slots[q.consumer].None?
    ensures q.producer == q.consumer
    ensures forall i :: 0 <= i < |q.slots| ==> q.slots[i].None?
  {
    assert Rank(q, q.consumer) == 0;
    assert Length(q) == 0;
  }

  lemma EmptyQueueIsEmpty(n: int)
    requires n > 0
    ensures Ring(EmptyQueue(n)) && Contents(EmptyQueue(n)) == []
  {
  }

  /** Enqueueing into a free producer slot appends the sound to the queue. */
  lemma ProduceKeepsRing(q: Queue, s: TimedSound)
    requires Ring(q) && q.slots[q.producer].None?
    ensures Ring(Produce(q, s)) && Length(Produce(q, s)) == Length(q) + 1
  {
    var n, c, p := |q.slots|, q.consumer, q.producer;
    var r := Produce(q, s);
    var len := Length(q);
    assert len == Rank(q, p) < n;
    assert Rank(r, r.producer) == if len + 1 == n then 0 else len + 1;
    if len + 1 == n {
      assert r.producer == c;
      if n > 1 {
        assert Rank(q, c) == 0 < len;
        assert r.slots[c] == q.slots[c];
      }
      assert r.slots[c].Some?;
    } else {
      assert r.producer != c;
    }
    assert Length(r) == len + 1;
    forall i | 0 <= i < n
      ensures r.slots[i].Some? <==> Rank(r, i) < Length(r)
    {
      if i != p {
        RankSlotAt(q, i);
        assert Rank(q, i) != len;
      }
    }
  }

  lemma ProduceAppends(q: Queue, s: TimedSound)
    requires Ring(q) && q.slots[q.producer].None?
    ensures Ring(Produce(q, s))
    ensures Contents(Produce(q, s)) == Contents(q) + [s]
  {
    ProduceKeepsRing(q, s);
    var p, r, len := q.producer, Produce(q, s), Length(q);
    var cs, cs' := Contents(q), Contents(r);
    assert |cs'| == |cs + [s]|;
    forall k | 0 <= k < |cs'|
      ensures cs'[k] == (cs + [s])[k]
    {
      if k < len {
        assert SlotAt(r, k) == SlotAt(q, k) != p;
      } else {
        assert SlotAt(r, k) == p;
      }
    }
  }

  /** Removing the head from a non-empty queue drops its first sound. */
  lemma ConsumeKeepsRing(q: Queue)
    requires Ring(q) && q.slots[q.consumer].Some?
    ensures Ring(Consume(q)) && Length(Consume(q)) == Length(q) - 1
  {
    var n, c, p := |q.slots|, q.consumer, q.producer;
    var r := Consume(q);
    var len := Length(q);
    assert Rank(q, c) == 0 < len;
    assert forall i :: 0 <= i < n && i != c ==> Rank(r, i) == Rank(q, i) - 1;
    if p == c {
      assert len == n;
      if n > 1 {
        assert r.producer != r.consumer;
        assert Length(r) == Rank(r, p) == n - 1;
      } else {
        assert Length(r) == 0;
      }
    } else {
      assert len == Rank(q, p);
      if p == r.consumer {
        assert Rank(q, p) == 1;
        assert r.slots[p] == q.slots[p] && q.slots[p].None?;
      }
      assert Length(r) == Rank(r, p) == len - 1;
    }
    forall i | 0 <= i < n
      ensures r.slots[i].Some? <==> Rank(r, i) < Length(r)
    {
    }
  }

  lemma ConsumeRemovesHead(q: Queue)
    requires Ring(q) && q.slots[q.consumer].Some?
    ensures Ring(Consume(q))
    ensures Contents(Consume(q)) == Contents(q)[1..]
  {
    ConsumeKeepsRing(q);
    var r := Consume(q);
    var cs, cs' := Contents(q), Contents(r);
    assert |cs'| == |cs[1..]|;
    forall k | 0 <= k < |cs'|
      ensures cs'[k] == cs[1..][k]
    {
      assert SlotAt(r, k) == SlotAt(q, k + 1);
    }
  }

  /** Updating the head sound in place replaces the first queued sound. */
  lemma SetHeadReplacesHead(q: Queue, s: TimedSound)
    requires Ring(q) && q.slots[q.consumer].Some?
    ensures Ring(SetHead(q, s))
    ensures Contents(SetHead(q, s)) == Contents(q)[0 := s]
  {
    var r := SetHead(q, s);
    assert Rank(q, q.consumer) == 0 < Length(q);
    assert Length(r) == Length(q);
    var cs, cs' := Contents(q), Contents(r);
    forall k | 0 <= k < |cs'|
      ensures cs'[k] == cs[0 := s][k]
    {
      assert SlotAt(r, k) == SlotAt(q, k);
      assert k == 0 <==> SlotAt(q, k) == q.consumer;
    }
  }

  /** Writing into an occupied producer slot of a full ring of more than one
      slot (what an explicit channel in `ws_play` does) breaks the ring
      invariant: the overwritten head is lost. */
  lemma OverwriteBreaksRing(q: Queue, s: TimedSound)
    requires Ring(q) && |q.slots| > 1 && Length(q) == |q.slots|
    ensures q.slots[q.producer].Some?
    ensures !Ring(Produce(q, s))
  {
    ProducerFreeIffNotFull(q);
    var r := Produce(q, s);
    var n := |q.slots|;
    assert q.producer == q.consumer;
    assert Rank(q, q.consumer) == 0;
    var far := if q.consumer == 0 then n - 1 else q.consumer - 1;
    assert Rank(q, far) == n - 1 < Length(q);
    assert r.slots[far].Some?;
    assert Length(r) == 1;
    assert Rank(r, far) == n - 1 >= Length(r);
  }
}
