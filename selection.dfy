/** The channel-allocation policy of `ws_play`, on the channels as values:
    which discrete channels can take a sound, and which of them the two
    scans pick. */
module Selection {
  import opened SoundQueue

  /** An unpaused channel whose producer slot is free. */
  predicate Available(q: Queue)
    requires Indexed(q)
  {
    !q.paused && q.slots[q.producer].None?
  }

  /** An available channel that is done by `time`, so a sound due at `time`
      would not be delayed on it. */
  predicate Fits(q: Queue, time: int)
    requires Indexed(q)
  {
    Available(q) && q.doneAt <= time
  }

  predicate AllIndexed(qs: seq<Queue>) {
    forall i :: 0 <= i < |qs| ==> Indexed(qs[i])
  }

  /** `ch` is what the scan for a well-defined start `time` picks among the
      first `k` channels: of those that fit, the one done latest, the lowest
      index among equals; -1 when none fits. */
  predicate IsLatestFit(qs: seq<Queue>, k: int, time: int, ch: int)
    requires AllIndexed(qs) && 0 <= k <= |qs|
  {
    if ch == -1 then
      forall j :: 0 <= j < k ==> !Fits(qs[j], time)
    else
      && 0 <= ch < k && Fits(qs[ch], time)
      && (forall j :: 0 <= j < k && Fits(qs[j], time) ==> qs[j].doneAt <= qs[ch].doneAt)
      && (forall j :: 0 <= j < ch && Fits(qs[j], time) ==> qs[j].doneAt < qs[ch].doneAt)
  }

  /** `ch` is what the scan for a sound to play as soon as possible picks
      among the first `k` channels: of the available ones, the one done
      soonest, the lowest index among equals; -1 when none is available. */
  predicate IsSoonestFree(qs: seq<Queue>, k: int, ch: int)
    requires AllIndexed(qs) && 0 <= k <= |qs|
  {
    if ch == -1 then
      forall j :: 0 <= j < k ==> !Available(qs[j])
    else
      && 0 <= ch < k && Available(qs[ch])
      && (forall j :: 0 <= j < k && Available(qs[j]) ==> qs[ch].doneAt <= qs[j].doneAt)
      && (forall j :: 0 <= j < ch && Available(qs[j]) ==> qs[ch].doneAt < qs[j].doneAt)
  }

  /** The latest-fit choice is determined by the channels: no two answers. */
  lemma LatestFitUnique(qs: seq<Queue>, k: int, time: int, a: int, b: int)
    requires AllIndexed(qs) && 0 <= k <= |qs|
    requires IsLatestFit(qs, k, time, a) && IsLatestFit(qs, k, time, b)
    ensures a == b
  {
    if a != -1 && b != -1 {
      assert qs[a].doneAt == qs[b].doneAt;
    }
  }

  /** The soonest-free choice is determined by the channels: no two answers. */
  lemma SoonestFreeUnique(qs: seq<Queue>, k: int, a: int, b: int)
    requires AllIndexed(qs) && 0 <= k <= |qs|
    requires IsSoonestFree(qs, k, a) && IsSoonestFree(qs, k, b)
    ensures a == b
  {
    if a != -1 && b != -1 {
      assert qs[a].doneAt == qs[b].doneAt;
    }
  }

  /** A channel that fits is available, so when some channel fits a sound
      due at `time`, the soonest-free scan finds a channel too, and one done
      no later than the latest fit. */
  lemma SoonestNoLaterThanLatest(qs: seq<Queue>, k: int, time: int, late: int, soon: int)
    requires AllIndexed(qs) && 0 <= k <= |qs|
    requires IsLatestFit(qs, k, time, late) && IsSoonestFree(qs, k, soon) && late != -1
    ensures soon != -1 && qs[soon].doneAt <= qs[late].doneAt
  {
    assert Available(qs[late]);
  }

  /** Either scan picks a channel whose producer slot is free, so on a
      channel that keeps the ring invariant the producer step appends the
      sound to its queue. */
  lemma ChosenChannelAppends(qs: seq<Queue>, q: Queue, time: int, r: int, s: TimedSound)
    requires AllIndexed(qs) && 0 <= r < |qs| / 2 && q == qs[r] && Ring(q)
    requires if time > 0 then IsLatestFit(qs, |qs| / 2, time, r) else IsSoonestFree(qs, |qs| / 2, r)
    ensures Ring(Produce(q, s)) && Contents(Produce(q, s)) == Contents(q) + [s]
  {
    assert Available(q);
    ProduceAppends(q, s);
  }
}
