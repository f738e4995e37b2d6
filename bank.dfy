/** The channel bank of the native mixer as heap objects: `Sounds` is one
    channel's ring buffer, `Channels` the bank of `2 * num_channels` of them
    (discrete channels first, then stream channels) that the audio callback
    drains into the output buffer. */
module Bank {
  import opened SoundQueue
  import opened Mixing
  import opened Selection

  /** A sample rate in frames per second. */
  type Rate = r: int | 0 < r witness 1

  /** The channel objects of `newChannels`, in index order: `numChannels`
      of `queueSize` slots, then `numChannels` of 2 slots, all empty and all
      distinct. */
  method NewChannelList(numChannels: nat, queueSize: int) returns (qs: seq<Sounds>)
    requires queueSize > 0
    ensures |qs| == 2 * numChannels
    ensures forall k :: 0 <= k < |qs| ==> fresh(qs[k]) && fresh(qs[k].data) && qs[k].Valid()
    ensures forall k :: 0 <= k < |qs| ==> qs[k].View() == EmptyQueue(if k < numChannels then queueSize else 2)
    ensures forall k, l :: 0 <= k < |qs| && 0 <= l < |qs| && k != l ==> qs[k] != qs[l] && qs[k].data != qs[l].data
  {
    qs := [];
    var i := 0;
    while i < 2 * numChannels
      invariant 0 <= i <= 2 * numChannels && |qs| == i
      invariant forall k :: 0 <= k < i ==> fresh(qs[k]) && fresh(qs[k].data) && qs[k].Valid()
      invariant forall k :: 0 <= k < i ==> qs[k].View() == EmptyQueue(if k < numChannels then queueSize else 2)
      invariant forall k, l :: 0 <= k < i && 0 <= l < i && k != l ==> qs[k] != qs[l] && qs[k].data != qs[l].data
    {
      var s := new Sounds(if i < numChannels then queueSize else 2);
      qs := qs + [s];
      i := i + 1;
    }
  }

  /** One channel (`Sounds`): a fixed array of slots, `None` being free. */
  class Sounds {
    const data: array<Option<TimedSound>>
    var paused: bool
    var consumerIndex: int
    var producerIndex: int
    var doneAt: int

    /** The channel as a value. */
    function View(): (q: Queue)
      reads this, data
    {
      Queue(data[..], paused, consumerIndex, producerIndex, doneAt)
    }

    predicate Valid()
      reads this, data
    {
      WellFormed(View())
    }

    /** `newSounds`: `queueSize` free slots, both indices 0, unpaused, done at 0. */
    constructor (queueSize: int)
      requires queueSize > 0
      ensures Valid() && fresh(data)
      ensures View() == EmptyQueue(queueSize)
    {
      data := new Option<TimedSound>[queueSize](_ => None);
      paused := false;
      consumerIndex := 0;
      producerIndex := 0;
      doneAt := 0;
    }

    /** The producer step: the sound goes into the producer slot, whether or
        not it is free, and the producer index moves on. */
    method Push(s: TimedSound)
      requires Valid() && Playable(s)
      modifies this`producerIndex, data
      ensures Valid()
      ensures View() == Produce(old(View()), s)
    {
      data[producerIndex] := Some(s);
      producerIndex := producerIndex + 1;
      if producerIndex == data.Length {
        producerIndex := 0;
      }
    }

    /** `freeSounds`: walk from the consumer slot, freeing sounds, until a
        free slot is reached. On a queue that keeps the ring invariant this
        frees every queued sound and leaves the consumer at the producer. */
    method Free()
      requires Valid()
      modifies this`consumerIndex, data
      ensures Valid() && data[consumerIndex].None?
      ensures OnlyFreed(data[..], old(data[..]))
      ensures Ring(old(View())) ==>
                consumerIndex == producerIndex && forall i :: 0 <= i < data.Length ==> data[i].None?
    {
      ghost var q0 := View();
      while data[consumerIndex].Some?
        invariant Valid() && producerIndex == q0.producer
        invariant OnlyFreed(data[..], q0.slots)
        invariant Ring(q0) ==> Ring(View())
        decreases Occupied(data[..])
      {
        ghost var before := View();
        ConsumeFrees(before, q0.slots);
        if Ring(q0) {
          ConsumeRemovesHead(before);
        }
        data[consumerIndex] := None;
        assert data[..] == Consume(before).slots;
        consumerIndex := consumerIndex + 1;
        if consumerIndex == data.Length {
          consumerIndex := 0;
        }
        assert View() == Consume(before);
      }
      if Ring(q0) {
        EmptyRingIsFree(View());
      }
    }

    /** Where the head sound starts in this buffer: the unstarted-sound branch
        of the callback's consumer loop. The playback error it records is
        returned in `err'`. */
    method PlaceHead(outi: int, zeroPadding: int, err: int, bs: int, n: int, ghost out: seq<Sample>)
      returns (outi': int, zeroPadding': int, shouldStart: bool, err': int)
      requires CanStep(Mixer(View(), out, outi, zeroPadding, false, err), n)
      modifies this`doneAt
      ensures Mixer(View(), out, outi', zeroPadding', shouldStart, err')
           == Place(Mixer(old(View()), out, outi, zeroPadding, false, err), bs, n)
    {
      var sound := data[consumerIndex].value;
      outi', zeroPadding', shouldStart, err' := outi, zeroPadding, false, err;
      if sound.offset == 0 {
        if sound.start > 0 {
          if bs + n > sound.start {
            zeroPadding' := sound.start - bs;
            doneAt := sound.start + sound.len;
            shouldStart := true;
            if zeroPadding' < outi {
              err' := zeroPadding' - outi;
              zeroPadding' := outi;
              doneAt := bs + zeroPadding' + sound.len;
            }
          } else {
            outi' := n;
          }
        } else {
          doneAt := bs + zeroPadding + sound.len;
          zeroPadding' := outi;
          shouldStart := true;
        }
      }
    }

    /** One pass of the callback's consumer loop: place the head sound, add
        its frames that fall into this buffer, and free its slot once all of
        it has been mixed. */
    method StepHead(out: array<Sample>, outi: int, zeroPadding: int, err: int, bs: int, n: int)
      returns (outi': int, zeroPadding': int, shouldStart: bool, err': int)
      requires CanStep(Mixer(View(), out[..], outi, zeroPadding, false, err), n)
      modifies this, data, out
      ensures Mixer(View(), out[..], outi', zeroPadding', shouldStart, err')
           == SoundStep(Mixer(old(View()), old(out[..]), outi, zeroPadding, false, err), bs, n)
    {
      ghost var m := Mixer(View(), out[..], outi, zeroPadding, false, err);
      var sound := data[consumerIndex].value;
      outi', zeroPadding', shouldStart, err' := PlaceHead(outi, zeroPadding, err, bs, n, out[..]);
      var offset := sound.offset;
      if (offset > 0 || shouldStart) && offset < sound.len {
        outi' := AddFramesInto(out, sound, zeroPadding', n);
        sound := sound.(offset := n - zeroPadding' + offset);
        data[consumerIndex] := Some(sound);
      }
      ghost var mixed := MixHead(m, bs, n);
      assert sound == Advanced(m, bs, n);
      assert out[..] == mixed.out && outi' == mixed.outi;
      assert View() == SetHead(mixed.q, sound);
      if sound.offset >= sound.len {
        var oldIndex := consumerIndex;
        consumerIndex := consumerIndex + 1;
        if consumerIndex == data.Length {
          consumerIndex := 0;
        }
        data[oldIndex] := None;
        assert View() == Consume(mixed.q);
      }
    }

    /** This channel's pass of `ws_callback`: skipped when paused; otherwise
        marked done at the end of this buffer when idle, and its queued sounds
        consumed into the output until the buffer is full or the queue empty.
        `should_start` is reset for every sound. */
    method MixInto(out: array<Sample>, shouldStart: bool, err: int, bs: int, n: int)
      returns (shouldStart': bool, err': int)
      requires Valid() && 0 <= n && out.Length == 2 * n
      modifies this, data, out
      ensures Valid()
      ensures var r := MixChannel(old(View()), old(out[..]), shouldStart, err, bs, n, false);
              View() == r.q && out[..] == r.out && shouldStart' == r.shouldStart && err' == r.playbackError
    {
      shouldStart', err' := shouldStart, err;
      if paused {
        return;
      }
      var zeroPadding := 0;
      var outi := 0;
      if data[consumerIndex].None? {
        doneAt := bs + n;
      }
      ghost var m0 := Mixer(View(), out[..], 0, 0, shouldStart', err');
      while data[consumerIndex].Some? && outi < n
        invariant MixerOk(Mixer(View(), out[..], outi, zeroPadding, shouldStart', err'), n)
        invariant Drain(Mixer(View(), out[..], outi, zeroPadding, shouldStart', err'), bs, n, false)
               == Drain(m0, bs, n, false)
        decreases Occupied(data[..]), n - outi
      {
        outi, zeroPadding, shouldStart', err' := StepHead(out, outi, zeroPadding, err', bs, n);
      }
    }
  }


  /** The frames `zp` .. up to the end of the buffer or of the sound added
      into the interleaved output, from the sound's current offset on. */
  method AddFramesInto(out: array<Sample>, s: TimedSound, zp: int, n: int) returns (end: int)
    requires Playable(s) && 0 <= zp < n && out.Length == 2 * n && s.offset < s.len
    modifies out
    ensures end == Min(n, zp + s.len - s.offset)
    ensures out[..] == AddFrames(old(out[..]), s, zp, end)
  {
    end := zp;
    while end < n && end - zp < s.len - s.offset
      invariant zp <= end <= Min(n, zp + s.len - s.offset)
      invariant forall k :: 0 <= k < out.Length ==> out[k] == MixedAt(old(out[..]), s, zp, end, k)
    {
      out[2 * end] := Wrap16(out[2 * end] as int + s.buffer[end - zp + s.offset]);
      out[2 * end + 1] := Wrap16(out[2 * end + 1] as int + s.buffer[end - zp + s.len + s.offset]);
      end := end + 1;
    }
  }

  /** Silence in all `n` stereo frames of the output. */
  method Clear(out: array<Sample>, n: int)
    requires 0 <= n && out.Length == 2 * n
    modifies out
    ensures out[..] == Silence(n)
  {
    var outi := 0;
    while outi < n
      invariant 0 <= outi <= n
      invariant forall k :: 0 <= k < 2 * outi ==> out[k] == 0
    {
      out[2 * outi] := 0;
      out[2 * outi + 1] := 0;
      outi := outi + 1;
    }
  }

  /** The channel bank (`Channels`): `|data| == 2 * num_channels`
      channels, the last playback error (negative: frames late) and what the
      last callback saw. */
  class Channels {
    const data: seq<Sounds>
    const samplerate: Rate
    var playbackError: int
    var lastBufferSize: int
    var lastLatency: int

    /** Every channel object and every slot array. */
    ghost function Objects(): set<object>
    {
      (set i | 0 <= i < |data| :: data[i] as object) + (set i | 0 <= i < |data| :: data[i].data as object)
    }

    ghost predicate Valid()
      reads Objects()
    {
      && |data| % 2 == 0
      && (forall i :: 0 <= i < |data| ==> data[i].Valid())
      && (forall i, j :: 0 <= i < |data| && 0 <= j < |data| && i != j ==>
            data[i] != data[j] && data[i].data != data[j].data)
    }

    /** The channels as values, in index order. */
    ghost function Views(): (qs: seq<Queue>)
      reads Objects()
      requires Valid()
      ensures |qs| == |data| && forall i :: 0 <= i < |qs| ==> qs[i] == data[i].View() && WellFormed(qs[i])
    {
      seq(|data|, i requires 0 <= i < |data| reads Objects() => data[i].View())
    }

    /** `newChannels`: `numChannels` discrete channels of `queueSize` slots,
        then `numChannels` stream channels of 2 slots, all empty. */
    constructor (samplerate: Rate, numChannels: nat, queueSize: int)
      requires queueSize > 0
      ensures Valid() && fresh(Objects()) && this.samplerate == samplerate
      ensures |data| == 2 * numChannels
      ensures forall i :: 0 <= i < numChannels ==> data[i].View() == EmptyQueue(queueSize)
      ensures forall i :: numChannels <= i < 2 * numChannels ==> data[i].View() == EmptyQueue(2)
      ensures playbackError == 0 && lastBufferSize == 0 && lastLatency == 0
    {
      var qs := NewChannelList(numChannels, queueSize);
      data := qs;
      this.samplerate := samplerate;
      playbackError := 0;
      lastBufferSize := 0;
      lastLatency := 0;
    }

    /** The automatic choice of `ws_play`: the latest-fit scan for a sound
        with a start time, the soonest-free scan for one without. */
    method ChooseChannel(time: int) returns (ch: int)
      requires Valid()
      ensures time > 0 ==> IsLatestFit(Views(), |data| / 2, time, ch)
      ensures time <= 0 ==> IsSoonestFree(Views(), |data| / 2, ch)
    {
      if time > 0 {
        ch := LatestFree(time);
      } else {
        ch := SoonestFree();
      }
    }

    /** The producer step on channel `c`; no other channel changes. */
    method Enqueue(c: int, s: TimedSound)
      requires Valid() && 0 <= c < |data| && Playable(s)
      modifies data[c], data[c].data
      ensures Valid()
      ensures Views() == old(Views())[c := Produce(old(Views())[c], s)]
    {
      ghost var vs := Views();
      data[c].Push(s);
      forall j | 0 <= j < |data| && j != c
        ensures data[j].View() == vs[j] && data[j].Valid()
      {
        assert data[j] != data[c] && data[j].data != data[c].data;
      }
      assert Valid();
      assert Views() == vs[c := data[c].View()];
    }

    /** The `paused` flag of channel `c` set; no other channel changes. */
    method SetPaused(c: int, pause: bool)
      requires Valid() && 0 <= c < |data|
      modifies data[c]
      ensures Valid()
      ensures Views() == old(Views())[c := old(Views())[c].(paused := pause)]
    {
      ghost var vs := Views();
      data[c].paused := pause;
      forall j | 0 <= j < |data| && j != c
        ensures data[j].View() == vs[j] && data[j].Valid()
      {
        assert data[j] != data[c];
      }
      assert Valid();
      assert Views() == vs[c := data[c].View()];
    }

    /** Every channel's `paused` flag set, discrete and stream alike. */
    method SetAllPaused(pause: bool)
      requires Valid()
      modifies set i | 0 <= i < |data| :: data[i]
      ensures Valid()
      ensures |Views()| == |old(Views())|
      ensures forall i :: 0 <= i < |data| ==> Views()[i] == old(Views())[i].(paused := pause)
    {
      ghost var vs := Views();
      var i := 0;
      while i < |data|
        invariant 0 <= i <= |data| && Valid()
        invariant forall j :: 0 <= j < i ==> Views()[j] == vs[j].(paused := pause)
        invariant forall j :: i <= j < |data| ==> Views()[j] == vs[j]
      {
        SetPaused(i, pause);
        i := i + 1;
      }
    }

    /** The scan of `ws_play` for a sound with a well-defined start `time`:
        over the discrete channels, skipping paused ones, ones whose producer
        slot is taken and ones not done by `time`, keep the first channel
        done latest (the source starts from a maximum of minus infinity,
        which `ch == -1` stands for here). */
    method LatestFree(time: int) returns (ch: int)
      requires Valid()
      ensures IsLatestFit(Views(), |data| / 2, time, ch)
    {
      ch := -1;
      var maxDoneAt := 0;
      var i := 0;
      while i < |data| / 2
        invariant 0 <= i <= |data| / 2
        invariant IsLatestFit(Views(), i, time, ch)
        invariant ch != -1 ==> maxDoneAt == Views()[ch].doneAt
      {
        var sounds := data[i];
        if !sounds.paused && sounds.data[sounds.producerIndex].None? && sounds.doneAt <= time {
          if ch == -1 || maxDoneAt < sounds.doneAt {
            ch := i;
            maxDoneAt := sounds.doneAt;
          }
        }
        i := i + 1;
      }
    }

    /** The scan of `ws_play` for a sound to play as soon as possible: over
        the discrete channels, skipping paused ones and ones whose producer
        slot is taken, keep the first channel done soonest (the source starts
        from a minimum of plus infinity, which `ch == -1` stands for here). */
    method SoonestFree() returns (ch: int)
      requires Valid()
      ensures IsSoonestFree(Views(), |data| / 2, ch)
    {
      ch := -1;
      var minDoneAt := 0;
      var i := 0;
      while i < |data| / 2
        invariant 0 <= i <= |data| / 2
        invariant IsSoonestFree(Views(), i, ch)
        invariant ch != -1 ==> minDoneAt == Views()[ch].doneAt
      {
        var sounds := data[i];
        if !sounds.paused && sounds.data[sounds.producerIndex].None? {
          if ch == -1 || minDoneAt > sounds.doneAt {
            ch := i;
            minDoneAt := sounds.doneAt;
          }
        }
        i := i + 1;
      }
    }

    /** Channel `c` of the callback mixed into the output. */
    method MixChannelAt(out: array<Sample>, c: int, shouldStart: bool, bs: int, n: int)
      returns (shouldStart': bool)
      requires Valid() && 0 <= c < |data| && 0 <= n && out.Length == 2 * n
      modifies this`playbackError, Objects(), out
      ensures Valid()
      ensures Mix(Views(), out[..], shouldStart', playbackError)
           == MixStep(Mix(old(Views()), old(out[..]), shouldStart, old(playbackError)), c, bs, n, false)
    {
      ghost var vs := Views();
      var ch := data[c];
      assert ch in Objects() && ch.data in Objects();
      var err';
      shouldStart', err' := ch.MixInto(out, shouldStart, playbackError, bs, n);
      playbackError := err';
      forall j | 0 <= j < |data| && j != c
        ensures data[j].View() == vs[j] && data[j].Valid()
      {
        assert data[j] != ch && data[j].data != ch.data;
      }
      assert Valid();
      assert Views() == vs[c := ch.View()];
    }

    /** `ws_callback`: the interleaved stereo output of `n` frames is cleared,
        the latency and buffer size are recorded, and every channel is mixed
        into the output in index order. */
    method Callback(out: array<Sample>, n: int, dacTime: int, currentTime: int)
      requires Valid() && 0 <= n && out.Length == 2 * n
      modifies this`playbackError, this`lastLatency, this`lastBufferSize, Objects(), out
      ensures Valid()
      ensures var r := MixAll(old(Views()), old(playbackError), dacTime, n, false);
              Views() == r.qs && out[..] == r.out && playbackError == r.playbackError
      ensures lastLatency == dacTime - currentTime && lastBufferSize == n
    {
      ghost var v0, e0 := Views(), playbackError;
      Clear(out, n);
      lastLatency := dacTime - currentTime;
      lastBufferSize := n;
      assert Valid() && Mix(Views(), out[..], false, playbackError) == Mix(v0, Silence(n), false, e0);
      MixChannels(out, dacTime, n);
    }

    /** All channels mixed into the output in index order, `should_start`
        starting out false. */
    method MixChannels(out: array<Sample>, bs: int, n: int)
      requires Valid() && 0 <= n && out.Length == 2 * n
      modifies this`playbackError, Objects(), out
      ensures Valid()
      ensures var r := MixFrom(Mix(old(Views()), old(out[..]), false, old(playbackError)), 0, bs, n, false);
              Views() == r.qs && out[..] == r.out && playbackError == r.playbackError
    {
      ghost var m0 := Mix(Views(), out[..], false, playbackError);
      ghost var cur := m0;
      var shouldStart := false;
      var c := 0;
      while c < |data|
        invariant 0 <= c <= |data| && Valid()
        invariant cur == Mix(Views(), out[..], shouldStart, playbackError)
        invariant MixFrom(cur, c, bs, n, false) == MixFrom(m0, 0, bs, n, false)
      {
        shouldStart := MixChannelAt(out, c, shouldStart, bs, n);
        cur := MixStep(cur, c, bs, n, false);
        c := c + 1;
      }
    }
  }
}
