/** The mixing step of the audio callback (`ws_callback`), as functions on
    values: how one channel's queue is drained into the interleaved stereo
    output buffer, and how all channels are mixed in turn.

    `carry` selects how the `should_start` flag behaves: `true` is the source
    as written (declared once per callback and never reset), `false` resets it
    for every sound, which is what the imperative callback does. */
module Mixing {
  import opened SoundQueue

  /** What one channel's consumer loop updates: the channel, the output
      buffer, the output frame `outi`, the frame `zeroPadding` at which the
      current sound starts, the `should_start` flag and the channel bank's
      `playback_error`. */
  datatype Mixer = Mixer(q: Queue, out: seq<Sample>, outi: int, zeroPadding: int,
                         shouldStart: bool, playbackError: int)

  function Min(a: int, b: int): (r: int)
    ensures r <= a && r <= b && (r == a || r == b)
  {
    if a <= b then a else b
  }

  /** The state the consumer loop keeps for a buffer of `n` frames. */
  predicate MixerOk(m: Mixer, n: int) {
    && WellFormed(m.q)
    && |m.out| == 2 * n
    && 0 <= m.outi <= n
    && 0 <= m.zeroPadding && (m.zeroPadding < n || m.zeroPadding == 0)
  }

  /** The loop can handle another sound: the consumer slot is occupied and the
      output buffer is not yet full. */
  predicate CanStep(m: Mixer, n: int) {
    MixerOk(m, n) && m.q.slots[m.q.consumer].Some? && m.outi < n
  }

  function Head(m: Mixer): (s: TimedSound)
    requires Indexed(m.q) && m.q.slots[m.q.consumer].Some?
    ensures m.q.slots[m.q.consumer] == Some(s)
  {
    m.q.slots[m.q.consumer].value
  }

  /** Output sample `k` after frames `zp` .. `end` - 1 of the sound have been
      added, from the sound's frame `offset` on (even `k`: left, odd: right). */
  function MixedAt(out: seq<Sample>, s: TimedSound, zp: int, end: int, k: int): (r: Sample)
    requires 0 <= k < |out| && Playable(s) && 0 <= zp && s.offset + (end - zp) <= s.len
    ensures !(2 * zp <= k < 2 * end) ==> r == out[k]
  {
    if 2 * zp <= k < 2 * end then
      Wrap16(out[k] as int + s.buffer[k / 2 - zp + s.offset + (if k % 2 == 0 then 0 else s.len)])
    else out[k]
  }

  /** The output buffer after the frames `zp` .. `end` - 1 of the sound are added in. */
  function AddFrames(out: seq<Sample>, s: TimedSound, zp: int, end: int): (r: seq<Sample>)
    requires Playable(s) && 0 <= zp && s.offset + (end - zp) <= s.len
    ensures |r| == |out|
    ensures forall k :: 0 <= k < |out| ==> r[k] == MixedAt(out, s, zp, end, k)
  {
    seq(|out|, k requires 0 <= k < |out| => MixedAt(out, s, zp, end, k))
  }

  /** Where an unstarted head sound goes in this buffer: a sound with a start
      time inside the buffer starts at its frame (not before `outi`: the lag
      is recorded as a negative playback error); a sound with a later start
      time ends the loop for this channel; a sound without a start time starts
      at `outi`. `done_at` is set to the frame where the sound will end,
      computed for the last case with the previous sound's padding. */
  function Place(m: Mixer, bs: int, n: int): (r: Mixer)
    requires CanStep(m, n)
    ensures r.q.slots == m.q.slots && r.q.consumer == m.q.consumer
    ensures r.q.producer == m.q.producer && r.q.paused == m.q.paused
    ensures r.out == m.out && 0 <= r.zeroPadding < n && 0 <= r.outi <= n
    ensures Head(m).offset != 0 ==> r == m
    ensures Head(m).offset == 0 ==> r.shouldStart || r.outi == n
    // due inside this buffer and not behind `outi`: starts at its own frame
    ensures var s := Head(m);
            s.offset == 0 && 0 < s.start && bs + m.outi <= s.start < bs + n ==>
              && r.zeroPadding == s.start - bs && r.q.doneAt == s.start + s.len
              && r.shouldStart && r.outi == m.outi && r.playbackError == m.playbackError
    // due before `outi`: starts at `outi`, the lag recorded as a negative error
    ensures var s := Head(m);
            s.offset == 0 && 0 < s.start < bs + m.outi ==>
              && r.zeroPadding == m.outi && r.q.doneAt == bs + m.outi + s.len
              && r.shouldStart && r.outi == m.outi && r.playbackError == (s.start - bs) - m.outi
    // due in a later buffer: the loop ends for this channel
    ensures var s := Head(m);
            s.offset == 0 && 0 < s.start && bs + n <= s.start ==> r == m.(outi := n)
    // no start time: starts at `outi`; `done_at` uses the previous padding
    ensures var s := Head(m);
            s.offset == 0 && s.start <= 0 ==>
              && r.zeroPadding == m.outi && r.q.doneAt == bs + m.zeroPadding + s.len
              && r.shouldStart && r.outi == m.outi && r.playbackError == m.playbackError
  {
    var s := Head(m);
    if s.offset != 0 then m
    else if s.start > 0 then
      if bs + n > s.start then
        var zp := s.start - bs;
        if zp < m.outi then
          m.(q := m.q.(doneAt := bs + m.outi + s.len), zeroPadding := m.outi,
             shouldStart := true, playbackError := zp - m.outi)
        else
          m.(q := m.q.(doneAt := s.start + s.len), zeroPadding := zp, shouldStart := true)
      else m.(outi := n)
    else
      m.(q := m.q.(doneAt := bs + m.zeroPadding + s.len), zeroPadding := m.outi, shouldStart := true)
  }

  /** Whether the head sound is mixed into this buffer. */
  predicate Mixes(m: Mixer, bs: int, n: int)
    requires CanStep(m, n)
    ensures Mixes(m, bs, n) ==> Head(m).offset < Head(m).len
    ensures 0 < Head(m).offset ==> (Mixes(m, bs, n) <==> Head(m).offset < Head(m).len)
    // an unstarted sound, with no flag left over, is mixed exactly when it is not deferred
    ensures var s := Head(m);
            s.offset == 0 && !m.shouldStart ==>
              (Mixes(m, bs, n) <==> 0 < s.len && !(0 < s.start && bs + n <= s.start))
  {
    var s := Head(m);
    (s.offset > 0 || Place(m, bs, n).shouldStart) && s.offset < s.len
  }

  /** The head sound with its offset moved past this buffer when it is mixed. */
  function Advanced(m: Mixer, bs: int, n: int): (s: TimedSound)
    requires CanStep(m, n)
    ensures s.offset >= Head(m).offset
    ensures s.buffer == Head(m).buffer && s.len == Head(m).len && s.start == Head(m).start
    ensures Mixes(m, bs, n) ==> s.offset > Head(m).offset
    ensures !Mixes(m, bs, n) ==> s == Head(m)
  {
    var p := Place(m, bs, n);
    if Mixes(m, bs, n) then Head(m).(offset := n - p.zeroPadding + Head(m).offset) else Head(m)
  }

  /** The head sound's frames that fall into this buffer added to the output:
      from its start frame up to the end of the buffer or of the sound. */
  function MixHead(m: Mixer, bs: int, n: int): (r: Mixer)
    requires CanStep(m, n)
    ensures r.q == Place(m, bs, n).q && |r.out| == 2 * n
    ensures 0 <= r.outi <= n && 0 <= r.zeroPadding < n
    ensures Advanced(m, bs, n).offset < Head(m).len ==> r.outi == n
  {
    var s := Head(m);
    var p := Place(m, bs, n);
    if Mixes(m, bs, n) then
      var end := Min(n, p.zeroPadding + s.len - s.offset);
      p.(out := AddFrames(p.out, s, p.zeroPadding, end), outi := end)
    else p
  }

  /** One pass of the consumer loop: place the head sound, add the frames of
      it that fall into this buffer, and free its slot once all of it has been
      mixed. */
  function SoundStep(m: Mixer, bs: int, n: int): (r: Mixer)
    requires CanStep(m, n)
    ensures MixerOk(r, n)
    ensures r.q.producer == m.q.producer && r.q.paused == m.q.paused && |r.q.slots| == |m.q.slots|
    ensures forall i :: 0 <= i < |m.q.slots| && i != m.q.consumer ==> r.q.slots[i] == m.q.slots[i]
    ensures Occupied(r.q.slots) < Occupied(m.q.slots)
         || (Occupied(r.q.slots) == Occupied(m.q.slots) && r.outi == n)
  {
    var mixed := MixHead(m, bs, n);
    var s' := Advanced(m, bs, n);
    if s'.offset >= s'.len then
      OccupiedClear(m.q.slots, m.q.consumer);
      mixed.(q := Consume(mixed.q))
    else
      OccupiedReplace(m.q.slots, m.q.consumer, s');
      mixed.(q := SetHead(mixed.q, s'))
  }

  /** The consumer loop of one channel, `while (sound = data[consumer_index]) && outi < len`. */
  function Drain(m: Mixer, bs: int, n: int, carry: bool): (r: Mixer)
    requires MixerOk(m, n)
    ensures MixerOk(r, n) && !CanStep(r, n)
    ensures r.q.producer == m.q.producer && r.q.paused == m.q.paused && |r.q.slots| == |m.q.slots|
    decreases Occupied(m.q.slots), n - m.outi
  {
    if CanStep(m, n) then
      Drain(SoundStep(if carry then m else m.(shouldStart := false), bs, n), bs, n, carry)
    else m
  }

  /** One channel of the callback: a paused channel is skipped; an idle one
      is marked done at the end of this buffer; then its queue is drained,
      from output frame 0 with no padding. */
  function MixChannel(q: Queue, out: seq<Sample>, shouldStart: bool, err: int,
                      bs: int, n: int, carry: bool): (r: Mixer)
    requires WellFormed(q) && |out| == 2 * n && 0 <= n
    ensures WellFormed(r.q) && |r.out| == 2 * n
    ensures r.q.producer == q.producer && r.q.paused == q.paused && |r.q.slots| == |q.slots|
    ensures q.paused ==> r.q == q && r.out == out && r.playbackError == err
    ensures !q.paused && q.slots[q.consumer].None? ==> r.q == q.(doneAt := bs + n) && r.out == out
    ensures !q.paused ==> r.q.slots[r.q.consumer].None? || r.outi >= n
  {
    if q.paused then Mixer(q, out, 0, 0, shouldStart, err)
    else
      var q1 := if q.slots[q.consumer].None? then q.(doneAt := bs + n) else q;
      Drain(Mixer(q1, out, 0, 0, shouldStart, err), bs, n, carry)
  }

  /** The state of the whole bank during the callback. */
  datatype Mix = Mix(qs: seq<Queue>, out: seq<Sample>, shouldStart: bool, playbackError: int)

  predicate MixOk(m: Mix, n: int) {
    0 <= n && |m.out| == 2 * n && forall i :: 0 <= i < |m.qs| ==> WellFormed(m.qs[i])
  }

  /** Channel `c` mixed into the output; the other channels are untouched. */
  function MixStep(m: Mix, c: int, bs: int, n: int, carry: bool): (r: Mix)
    requires MixOk(m, n) && 0 <= c < |m.qs|
    ensures MixOk(r, n) && |r.qs| == |m.qs|
    ensures forall i :: 0 <= i < |m.qs| && i != c ==> r.qs[i] == m.qs[i]
    ensures forall i :: 0 <= i < |m.qs| ==>
              r.qs[i].producer == m.qs[i].producer && r.qs[i].paused == m.qs[i].paused
              && |r.qs[i].slots| == |m.qs[i].slots|
  {
    var r := MixChannel(m.qs[c], m.out, m.shouldStart, m.playbackError, bs, n, carry);
    Mix(m.qs[c := r.q], r.out, r.shouldStart, r.playbackError)
  }

  /** Channels `c` .. onwards mixed in order. */
  function MixFrom(m: Mix, c: int, bs: int, n: int, carry: bool): (r: Mix)
    requires MixOk(m, n) && 0 <= c <= |m.qs|
    ensures MixOk(r, n) && |r.qs| == |m.qs|
    ensures forall i :: 0 <= i < c ==> r.qs[i] == m.qs[i]
    ensures forall i :: 0 <= i < |m.qs| ==>
              r.qs[i].producer == m.qs[i].producer && r.qs[i].paused == m.qs[i].paused
              && |r.qs[i].slots| == |m.qs[i].slots|
    decreases |m.qs| - c
  {
    if c == |m.qs| then m
    else MixFrom(MixStep(m, c, bs, n, carry), c + 1, bs, n, carry)
  }

  /** `n` stereo frames of silence. */
  function Silence(n: nat): (r: seq<Sample>)
    ensures |r| == 2 * n && forall k :: 0 <= k < 2 * n ==> r[k] == 0
  {
    seq(2 * n, _ => 0)
  }

  /** The callback: the output buffer is cleared, then every channel is mixed
      into it in index order. */
  function MixAll(qs: seq<Queue>, err: int, bs: int, n: nat, carry: bool): (r: Mix)
    requires forall i :: 0 <= i < |qs| ==> WellFormed(qs[i])
    ensures MixOk(r, n) && |r.qs| == |qs|
    ensures forall i :: 0 <= i < |qs| ==>
              r.qs[i].producer == qs[i].producer && r.qs[i].paused == qs[i].paused
              && |r.qs[i].slots| == |qs[i].slots|
  {
    MixFrom(Mix(qs, Silence(n), false, err), 0, bs, n, carry)
  }

  /** `after` is `before` with the head's offset possibly moved on. */
  predicate SameSound(after: TimedSound, before: TimedSound) {
    after.buffer == before.buffer && after.start == before.start && after.len == before.len
    && after.offset >= before.offset
  }

  /** One pass of the consumer loop keeps the ring invariant; the head sound
      leaves the queue exactly when its offset has reached its length,
      otherwise it stays at the head with its offset moved on. */
  lemma StepRetiresExactlyFinished(m: Mixer, bs: int, n: int)
    requires CanStep(m, n) && Ring(m.q)
    ensures Ring(SoundStep(m, bs, n).q)
    ensures var s' := Advanced(m, bs, n);
            Contents(SoundStep(m, bs, n).q)
            == if s'.offset >= s'.len then Contents(m.q)[1..] else Contents(m.q)[0 := s']
  {
    var q := MixHead(m, bs, n).q;
    assert q == m.q.(doneAt := q.doneAt);
    assert Ring(q);
    assert Contents(q) == Contents(m.q);
    var s' := Advanced(m, bs, n);
    if s'.offset >= s'.len {
      ConsumeRemovesHead(q);
    } else {
      SetHeadReplacesHead(q, s');
    }
  }

  /** `after` is what is left of the queue `before` once its first `k` sounds
      have been retired: the rest in order, only the head possibly advanced. */
  predicate FrontRetired(after: seq<TimedSound>, before: seq<TimedSound>, k: int) {
    && 0 <= k <= |before| && |after| == |before| - k
    && (|after| > 0 ==> SameSound(after[0], before[k]) && after[1..] == before[k + 1..])
  }

  lemma FrontRetiredTrans(a: seq<TimedSound>, b: seq<TimedSound>, c: seq<TimedSound>, k1: int, k2: int)
    returns (k: int)
    requires FrontRetired(b, a, k1) && FrontRetired(c, b, k2)
    ensures k == k1 + k2 && FrontRetired(c, a, k)
  {
    k := k1 + k2;
    if |c| > 0 {
      if k2 == 0 {
        assert SameSound(b[0], a[k1]);
      } else {
        assert c[1..] == b[k2 + 1..] == a[k1 + 1..][k2..];
      }
    }
  }

  lemma StepRetiresFront(m: Mixer, bs: int, n: int) returns (k: int)
    requires CanStep(m, n) && Ring(m.q)
    ensures Ring(SoundStep(m, bs, n).q)
    ensures FrontRetired(Contents(SoundStep(m, bs, n).q), Contents(m.q), k)
  {
    StepRetiresExactlyFinished(m, bs, n);
    HeadIsFirst(m.q);
    var s' := Advanced(m, bs, n);
    k := if s'.offset >= s'.len then 1 else 0;
  }

  lemma DrainUnfold(m: Mixer, bs: int, n: int, carry: bool)
    requires CanStep(m, n)
    ensures Drain(m, bs, n, carry) == Drain(SoundStep(if carry then m else m.(shouldStart := false), bs, n), bs, n, carry)
  {
  }

  /** The whole consumer loop keeps the ring invariant and removes sounds
      only from the front: `k` sounds are retired, the rest stay in order,
      and only the new head may have been advanced. */
  lemma {:induction false} DrainConsumesFront(m: Mixer, bs: int, n: int, carry: bool) returns (k: int)
    requires MixerOk(m, n) && Ring(m.q)
    ensures Ring(Drain(m, bs, n, carry).q)
    ensures FrontRetired(Contents(Drain(m, bs, n, carry).q), Contents(m.q), k)
    decreases Occupied(m.q.slots), n - m.outi, 1
  {
    if CanStep(m, n) {
      var m1 := if carry then m else m.(shouldStart := false);
      assert m1.q == m.q;
      k := DrainStepFront(m1, bs, n, carry);
      DrainUnfold(m, bs, n, carry);
    } else {
      k := 0;
    }
  }

  lemma {:induction false} DrainStepFront(m: Mixer, bs: int, n: int, carry: bool) returns (k: int)
    requires CanStep(m, n) && Ring(m.q)
    ensures Ring(Drain(SoundStep(m, bs, n), bs, n, carry).q)
    ensures FrontRetired(Contents(Drain(SoundStep(m, bs, n), bs, n, carry).q), Contents(m.q), k)
    decreases Occupied(m.q.slots), n - m.outi, 0
  {
    var m2 := SoundStep(m, bs, n);
    var k1 := StepRetiresFront(m, bs, n);
    var k2 := DrainConsumesFront(m2, bs, n, carry);
    var m3 := Drain(m2, bs, n, carry);
    var a, b, c := Contents(m.q), Contents(m2.q), Contents(m3.q);
    k := FrontRetiredTrans(a, b, c, k1, k2);
  }

  /** One channel's pass leaves a paused channel as it is and keeps a ring a ring. */
  lemma MixChannelKeeps(q: Queue, out: seq<Sample>, shouldStart: bool, err: int, bs: int, n: int, carry: bool)
    requires WellFormed(q) && |out| == 2 * n && 0 <= n
    ensures var r := MixChannel(q, out, shouldStart, err, bs, n, carry);
            (q.paused ==> r.q == q) && (Ring(q) ==> Ring(r.q))
  {
    if Ring(q) && !q.paused {
      var q1 := if q.slots[q.consumer].None? then q.(doneAt := bs + n) else q;
      assert Ring(q1);
      var k := DrainConsumesFront(Mixer(q1, out, 0, 0, shouldStart, err), bs, n, carry);
    }
  }

  /** What the callback does to the channels from `c` on, channel by channel:
      paused channels are left as they are and every ring stays a ring. */
  lemma {:induction false} MixFromChannels(m: Mix, c: int, bs: int, n: int, carry: bool)
    requires MixOk(m, n) && 0 <= c <= |m.qs|
    ensures var r := MixFrom(m, c, bs, n, carry);
            forall i :: c <= i < |m.qs| ==>
              (m.qs[i].paused ==> r.qs[i] == m.qs[i]) && (Ring(m.qs[i]) ==> Ring(r.qs[i]))
    decreases |m.qs| - c
  {
    if c < |m.qs| {
      var m' := MixStep(m, c, bs, n, carry);
      MixFromChannels(m', c + 1, bs, n, carry);
      var r := MixFrom(m', c + 1, bs, n, carry);
      assert MixFrom(m, c, bs, n, carry) == r;
      MixChannelKeeps(m.qs[c], m.out, m.shouldStart, m.playbackError, bs, n, carry);
      assert r.qs[c] == m'.qs[c] == MixChannel(m.qs[c], m.out, m.shouldStart, m.playbackError, bs, n, carry).q;
      assert forall i :: c < i < |m.qs| ==> m'.qs[i] == m.qs[i];
    }
  }

  /** After the callback, paused channels are as they were and every channel
      that was a ring is still one. */
  lemma MixAllKeepsChannels(qs: seq<Queue>, err: int, bs: int, n: nat, carry: bool)
    requires forall i :: 0 <= i < |qs| ==> WellFormed(qs[i])
    ensures var r := MixAll(qs, err, bs, n, carry);
            forall i :: 0 <= i < |qs| ==>
              (qs[i].paused ==> r.qs[i] == qs[i]) && (Ring(qs[i]) ==> Ring(r.qs[i]))
  {
    MixFromChannels(Mix(qs, Silence(n), false, err), 0, bs, n, carry);
  }

  /** A channel that is paused or has nothing queued adds nothing to the output. */
  predicate Silent(q: Queue)
    requires Indexed(q)
  {
    q.paused || q.slots[q.consumer].None?
  }

  lemma {:induction false} QuietFromChannels(m: Mix, c: int, bs: int, n: int, carry: bool)
    requires MixOk(m, n) && 0 <= c <= |m.qs|
    requires forall i :: c <= i < |m.qs| ==> Silent(m.qs[i])
    ensures MixFrom(m, c, bs, n, carry).out == m.out
    decreases |m.qs| - c
  {
    if c < |m.qs| {
      QuietFromChannels(MixStep(m, c, bs, n, carry), c + 1, bs, n, carry);
    }
  }

  /** The output is cleared first: when no channel has a sound to play, the
      callback outputs silence. */
  lemma SilenceWhenIdle(qs: seq<Queue>, err: int, bs: int, n: nat, carry: bool)
    requires forall i :: 0 <= i < |qs| ==> WellFormed(qs[i]) && Silent(qs[i])
    ensures MixAll(qs, err, bs, n, carry).out == Silence(n)
  {
    QuietFromChannels(Mix(qs, Silence(n), false, err), 0, bs, n, carry);
  }

  /** Where the head sound's first frame lands: a sound due inside this
      buffer starts at its own frame `start - bs` unless that is behind
      `outi`, and a late sound or one without a start time starts at `outi`.
      Its first left and right samples are added there, and the output
      before that frame is left alone. */
  lemma HeadStartsAtPlacedFrame(m: Mixer, bs: int, n: int)
    requires CanStep(m, n)
    requires var s := Head(m); s.offset == 0 && 0 < s.len && !(0 < s.start && bs + n <= s.start)
    ensures var s, r := Head(m), MixHead(m, bs, n);
            var f := if 0 < s.start && bs + m.outi <= s.start then s.start - bs else m.outi;
            && 0 <= f < n && Place(m, bs, n).zeroPadding == f
            && r.out[2 * f] == Wrap16(m.out[2 * f] as int + s.buffer[0] as int)
            && r.out[2 * f + 1] == Wrap16(m.out[2 * f + 1] as int + s.buffer[s.len] as int)
            && forall k :: 0 <= k < 2 * f ==> r.out[k] == m.out[k]
  {
    PlacedFrame(m, bs, n);
    var f, end := MixHeadAdds(m, bs, n);
    FirstFrameAdded(m.out, Head(m), f, end);
  }

  /** A mixed head sound's frames are added from the frame `Place` chose
      up to `end`, the end of the buffer or of the sound. */
  lemma MixHeadAdds(m: Mixer, bs: int, n: int) returns (f: int, end: int)
    requires CanStep(m, n) && Mixes(m, bs, n)
    ensures f == Place(m, bs, n).zeroPadding && 0 <= f < end <= n
    ensures Playable(Head(m)) && Head(m).offset + (end - f) <= Head(m).len
    ensures MixHead(m, bs, n).out == AddFrames(m.out, Head(m), f, end)
    ensures end == Min(n, f + Head(m).len - Head(m).offset) && MixHead(m, bs, n).outi == end
  {
    var s, p := Head(m), Place(m, bs, n);
    f, end := p.zeroPadding, Min(n, p.zeroPadding + s.len - s.offset);
  }

  /** The frame `Place` chooses for an unstarted head sound it does not
      defer, which is then mixed. */
  lemma PlacedFrame(m: Mixer, bs: int, n: int)
    requires CanStep(m, n)
    requires var s := Head(m); s.offset == 0 && 0 < s.len && !(0 < s.start && bs + n <= s.start)
    ensures var s := Head(m);
            var f := if 0 < s.start && bs + m.outi <= s.start then s.start - bs else m.outi;
            Mixes(m, bs, n) && Place(m, bs, n).zeroPadding == f && 0 <= f < n
  {
  }

  /** Adding frames from `zp` on puts the sound's frame `offset` into output
      frame `zp` and leaves the output before it alone. */
  lemma FirstFrameAdded(out: seq<Sample>, s: TimedSound, zp: int, end: int)
    requires Playable(s) && 0 <= zp < end && 2 * end <= |out| && s.offset + (end - zp) <= s.len
    ensures var r := AddFrames(out, s, zp, end);
            && r[2 * zp] == Wrap16(out[2 * zp] as int + s.buffer[s.offset] as int)
            && r[2 * zp + 1] == Wrap16(out[2 * zp + 1] as int + s.buffer[s.offset + s.len] as int)
            && forall k :: 0 <= k < 2 * zp ==> r[k] == out[k]
  {
    assert (2 * zp) / 2 == zp && (2 * zp + 1) / 2 == zp && (2 * zp + 1) % 2 == 1;
  }

  /** With `should_start` reset for every sound, a head sound whose start
      frame lies at or beyond the end of this buffer ends this channel's
      loop wherever the loop stands: the pass changes nothing but `outi`. */
  lemma DeferredStepWaits(m: Mixer, bs: int, n: int)
    requires CanStep(m, n)
    requires var s := Head(m); s.offset == 0 && 0 < s.len && 0 < s.start && bs + n <= s.start
    ensures SoundStep(m.(shouldStart := false), bs, n) == m.(shouldStart := false, outi := n)
  {
    var m0 := m.(shouldStart := false);
    assert Head(m0) == Head(m);
    assert Place(m0, bs, n) == m0.(outi := n);
    assert !Mixes(m0, bs, n);
    assert m.q.slots[m.q.consumer := Some(Head(m))] == m.q.slots;
  }

  /** The same for the rest of the loop: the channel, the output and the
      playback error are left as they are. */
  lemma DeferredDrainWaits(m: Mixer, bs: int, n: int)
    requires CanStep(m, n)
    requires var s := Head(m); s.offset == 0 && 0 < s.len && 0 < s.start && bs + n <= s.start
    ensures Drain(m, bs, n, false) == m.(shouldStart := false, outi := n)
  {
    DeferredStepWaits(m, bs, n);
    DrainUnfold(m, bs, n, false);
    assert !CanStep(m.(shouldStart := false, outi := n), n);
  }

  /** At the start of a channel's pass: a head sound due after this buffer
      leaves the channel and the output unchanged. */
  lemma DeferredSoundWaits(q: Queue, out: seq<Sample>, shouldStart: bool, err: int, bs: int, n: int)
    requires WellFormed(q) && |out| == 2 * n && 0 < n && !q.paused
    requires q.slots[q.consumer].Some?
    requires var s := q.slots[q.consumer].value; s.offset == 0 && 0 < s.len && 0 < s.start && bs + n <= s.start
    ensures var r := MixChannel(q, out, shouldStart, err, bs, n, false);
            r.q == q && r.out == out && r.playbackError == err
  {
    var m := Mixer(q, out, 0, 0, shouldStart, err);
    assert CanStep(m, n);
    DeferredDrainWaits(m, bs, n);
    assert MixChannel(q, out, shouldStart, err, bs, n, false) == Drain(m, bs, n, false);
  }

  /** One channel holding a sound to play at once (one frame, samples 1 and
      2) followed by a sound due at frame 100 (one frame, samples 5 and 6). */
  function NowThenLater(): (q: Queue)
    ensures WellFormed(q) && Ring(q)
  {
    Queue([Some(TimedSound([1, 2], -1, 0, 1)), Some(TimedSound([5, 6], 100, 0, 1)), None],
          false, 0, 2, 0)
  }

  /** The consumer loop's state once the first sound of `NowThenLater()` has
      been mixed into frame 0 of a two-frame buffer and retired. */
  function AfterFirstSound(): (m: Mixer)
    ensures CanStep(m, 2)
  {
    Mixer(Queue([None, Some(TimedSound([5, 6], 100, 0, 1)), None], false, 1, 2, 1),
          [1, 2, 0, 0], 1, 0, true, 0)
  }

  lemma NowThenLaterFirstStep(q: Queue, n: int)
    requires q == NowThenLater() && n == 2
    ensures SoundStep(Mixer(q, Silence(n), 0, 0, false, 0), 0, n) == AfterFirstSound()
  {
    var m := Mixer(q, Silence(n), 0, 0, false, 0);
    var p := Place(m, 0, n);
    assert p == m.(q := m.q.(doneAt := 1), shouldStart := true);
    assert Mixes(m, 0, n);
    var out := AddFrames(Silence(n), Head(m), 0, 1);
    assert 1 / 2 == 0 && 1 % 2 == 1 && 2 / 2 == 1 && 3 / 2 == 1;
    assert out == [1, 2, 0, 0];
  }

  /** As written, the second pass finds `should_start` still set: the sound
      due at frame 100 is added into frame 0 and retired. */
  lemma StaleSecondStep(m: Mixer, n: int)
    requires m == AfterFirstSound() && n == 2
    ensures SoundStep(m, 0, n) == Mixer(Queue([None, None, None], false, 2, 2, 1), [6, 8, 0, 0], 1, 0, true, 0)
  {
    var p := Place(m, 0, n);
    assert p == m.(outi := n);
    assert Mixes(m, 0, n);
    assert 1 / 2 == 0 && 1 % 2 == 1 && 2 / 2 == 1 && 3 / 2 == 1;
    var out := AddFrames(m.out, Head(m), 0, 1);
    assert out == [6, 8, 0, 0];
    var mixed := MixHead(m, 0, n);
    assert mixed == p.(out := out, outi := 1);
    assert Advanced(m, 0, n).offset == 2;
    assert m.q.slots[1 := None] == [None, None, None];
    assert Consume(mixed.q) == Queue([None, None, None], false, 2, 2, 1);
  }

  /** With the flag reset, the second pass leaves the sound at the head and
      ends the loop for this buffer. */
  lemma ResetSecondStep(m: Mixer, n: int)
    requires m == AfterFirstSound().(shouldStart := false) && n == 2
    ensures SoundStep(m, 0, n) == m.(outi := n)
  {
    assert Place(m, 0, n) == m.(outi := n);
    assert !Mixes(m, 0, n);
    assert m.q.slots[1 := Some(Head(m))] == m.q.slots;
  }

  /** As written, the channel's pass over frames 0 and 1. */
  lemma StaleChannelPass(q: Queue, n: nat)
    requires q == NowThenLater() && n == 2
    ensures MixChannel(q, Silence(n), false, 0, 0, n, true)
         == Mixer(Queue([None, None, None], false, 2, 2, 1), [6, 8, 0, 0], 1, 0, true, 0)
  {
    var m0 := Mixer(q, Silence(n), 0, 0, false, 0);
    var m1 := AfterFirstSound();
    NowThenLaterFirstStep(q, n);
    StaleSecondStep(m1, n);
    DrainUnfold(m0, 0, n, true);
    DrainUnfold(m1, 0, n, true);
    var m2 := SoundStep(m1, 0, n);
    assert Drain(m2, 0, n, true) == m2;
  }

  /** With the flag reset, the channel's pass over frames 0 and 1. */
  lemma ResetChannelPass(q: Queue, n: nat)
    requires q == NowThenLater() && n == 2
    ensures MixChannel(q, Silence(n), false, 0, 0, n, false)
         == AfterFirstSound().(shouldStart := false, outi := n)
  {
    var m0 := Mixer(q, Silence(n), 0, 0, false, 0);
    var m1 := AfterFirstSound().(shouldStart := false);
    NowThenLaterFirstStep(q, n);
    ResetSecondStep(m1, n);
    DrainUnfold(m0, 0, n, false);
    assert m0.(shouldStart := false) == m0;
    DrainUnfold(AfterFirstSound(), 0, n, false);
    var m2 := m1.(outi := n);
    assert Drain(m2, 0, n, false) == m2;
  }

  /** The callback over a bank of the single channel `q`. */
  lemma OneChannelMix(q: Queue, n: nat, carry: bool)
    requires WellFormed(q)
    ensures var r := MixChannel(q, Silence(n), false, 0, 0, n, carry);
            MixAll([q], 0, 0, n, carry) == Mix([r.q], r.out, r.shouldStart, r.playbackError)
  {
    var mix := Mix([q], Silence(n), false, 0);
    var mix' := MixStep(mix, 0, 0, n, carry);
    assert MixFrom(mix', 1, 0, n, carry) == mix';
  }

  /** As written (`should_start` kept from the previous sound), a callback
      for frames 0 and 1 mixes the sound due at frame 100 into frame 0 and
      retires it. */
  lemma StaleShouldStartMixesFutureSound(q: Queue, n: nat)
    requires q == NowThenLater() && n == 2
    ensures var r := MixAll([q], 0, 0, n, true);
            r.out == [1 + 5, 2 + 6, 0, 0] && r.qs[0].slots == [None, None, None]
  {
    StaleChannelPass(q, n);
    OneChannelMix(q, n, true);
  }

  /** With `should_start` reset for every sound, the same callback plays only
      the first sound and leaves the later one queued at the head. */
  lemma FutureSoundWaitsWhenReset(q: Queue, n: nat)
    requires q == NowThenLater() && n == 2
    ensures var r := MixAll([q], 0, 0, n, false);
            r.out == [1, 2, 0, 0] && r.qs[0].slots == q.slots[0 := None]
  {
    ResetChannelPass(q, n);
    OneChannelMix(q, n, false);
  }
}
