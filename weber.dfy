/** The entry points of the native mixer (`WsState` and the `ws_*`
    functions): playing a sound now or at a time on a chosen or automatically
    allocated channel, queueing stream chunks, pausing channels, and the
    warning and error reports. The stream's clock (`Pa_GetStreamTime`) is the
    parameter `paNow`; all times are in sample frames. */
module Weber {
  import opened SoundQueue
  import opened Selection
  import opened Bank

  /** `NO_CHANNELS`: no unpaused discrete channel had room for a sound. */
  const NoChannels := -2

  /** `paNoError`. */
  const PaNoError := 0

  /** The stream time at which a sound requested for the caller's time
      `playat` should start, given the caller's clock `now` and the stream's
      clock `paNow`; -1 when no time was requested. */
  function RequestedTime(now: int, playat: int, paNow: int): (t: int)
    ensures playat > 0 ==> t - paNow == playat - now
    ensures playat <= 0 ==> t == -1
  {
    if playat > 0 then (paNow - now) + playat else -1
  }

  /** `frames` frames at `rate` frames per second as whole seconds,
      truncated toward zero: C's conversion of a `double` number of seconds
      to `int`. */
  function WholeSeconds(frames: int, rate: Rate): (r: int)
    ensures 0 <= frames ==> 0 <= r && r * rate <= frames < r * rate + rate
    ensures frames < 0 ==> r <= 0 && frames <= r * rate && r * rate - rate < frames
  {
    if 0 <= frames then frames / rate else -((-frames) / rate)
  }

  /** The requested start lies before the stream's present. */
  predicate Late(now: int, playat: int, paNow: int)
    ensures Late(now, playat, paNow) <==> (playat > 0 && playat < now) || (playat <= 0 && -1 < paNow)
  {
    RequestedTime(now, playat, paNow) < paNow
  }

  /** The start `ws_play` gives the sound: the requested time, or -1 ("as
      soon as possible") when that time has already passed. */
  function StartTime(now: int, playat: int, paNow: int): (t: int)
    ensures t == -1 || t >= paNow
    ensures playat > 0 && playat >= now ==> t - paNow == playat - now
    ensures playat <= 0 || playat < now ==> t == -1
  {
    if Late(now, playat, paNow) then -1 else RequestedTime(now, playat, paNow)
  }

  /** What `ws_warn_str` reports: nothing, or that a sound started `frames`
      frames after it should have. */
  datatype Warning = NoWarning | LateBy(frames: int)

  /** What `ws_error_str` reports. */
  datatype ErrorText = NoError | PortAudioText(code: int) | FullBuffers | UnknownCode(code: int)

  /** The choice of `ws_error_str`: a PortAudio error takes priority, then
      the mixer's own error code. */
  function ErrorFor(errcode: int, weberError: int): (r: ErrorText)
    ensures r == NoError <==> errcode == PaNoError && weberError == 0
    ensures errcode != PaNoError ==> r == PortAudioText(errcode)
    ensures r == FullBuffers <==> errcode == PaNoError && weberError == NoChannels
    ensures r.UnknownCode? ==> r.code == weberError && weberError !in {0, NoChannels}
    ensures errcode == PaNoError && weberError !in {0, NoChannels} ==> r == UnknownCode(weberError)
  {
    if errcode != PaNoError then PortAudioText(errcode)
    else if weberError != 0 then
      if weberError == NoChannels then FullBuffers else UnknownCode(weberError)
    else NoError
  }

  /** `ws_pause` on values: every channel's flag set. */
  function PauseAll(qs: seq<Queue>, pause: bool): (r: seq<Queue>)
    ensures |r| == |qs| && forall i :: 0 <= i < |qs| ==> r[i] == qs[i].(paused := pause)
  {
    seq(|qs|, i requires 0 <= i < |qs| => qs[i].(paused := pause))
  }

  /** The index `ws_pause` writes after its all-channels branch: the stream
      half is the second half of the bank. */
  function PauseIndex(len: int, channel: int, isstream: bool): (t: int)
    ensures !isstream ==> t == channel
    ensures isstream && 0 <= len && 0 <= channel < len / 2 ==> len / 2 <= t < len
  {
    if isstream then len / 2 + channel else channel
  }

  /** `ws_pause` as written: after the all-channels branch it goes on to
      write the flag at `PauseIndex` even for a negative channel; `None` is
      a write outside the bank. */
  function PauseAsWritten(qs: seq<Queue>, channel: int, isstream: bool, pause: bool): (r: Option<seq<Queue>>)
    ensures r.Some? <==> 0 <= PauseIndex(|qs|, channel, isstream) < |qs|
    ensures r.Some? ==>
              && |r.value| == |qs|
              && forall i :: 0 <= i < |qs| ==>
                   r.value[i] == if channel < 0 || i == PauseIndex(|qs|, channel, isstream)
                                 then qs[i].(paused := pause) else qs[i]
  {
    var qs1 := if channel < 0 then PauseAll(qs, pause) else qs;
    var t := PauseIndex(|qs|, channel, isstream);
    if 0 <= t < |qs| then Some(qs1[t := qs1[t].(paused := pause)]) else None
  }

  /** As written, pausing every channel (`channel < 0`) of a non-stream kind
      goes on to write one element before the bank. */
  lemma PauseAllOverruns(qs: seq<Queue>, pause: bool)
    ensures PauseAsWritten(qs, -1, false, pause) == None
  {
  }

  /** For a channel number inside the bank the as-written pause sets exactly
      that one flag, which is what the corrected `Pause` does too. */
  lemma PauseOneAsWritten(qs: seq<Queue>, channel: int, isstream: bool, pause: bool)
    requires 0 <= channel && (if isstream then channel < |qs| / 2 else channel < |qs|)
    ensures var t := PauseIndex(|qs|, channel, isstream);
            && 0 <= t < |qs| && (isstream ==> |qs| / 2 <= t)
            && PauseAsWritten(qs, channel, isstream, pause) == Some(qs[t := qs[t].(paused := pause)])
  {
  }

  /** Both clocks agreeing at 441000 frames (ten seconds at 44100 frames per
      second): a sound asked for two seconds in the past stores -2, which the
      warning then reads as 2 frames; one asked for half a second in the
      past stores 0 and is never reported. A request without a start time
      given as `playat` = -1 second, half a second into the stream, stores
      -1. */
  lemma LateSecondsReadAsFrames()
    ensures Late(441000, 352800, 441000) && WholeSeconds(352800 - 441000, 44100) == -2
    ensures Late(441000, 418950, 441000) && WholeSeconds(418950 - 441000, 44100) == 0
    ensures Late(0, -44100, 22050) && WholeSeconds(-44100 - 22050, 44100) == -1
  {
  }

  /** A request without a start time (`playat = 0`) counts as late on a
      running stream and stores minus the stream's age in whole seconds:
      0 during the first second, -k once the stream is k seconds old. */
  lemma UntimedPlayStoresStreamAge(now: int, paNow: int, rate: Rate)
    requires 0 <= paNow
    ensures Late(now, 0, paNow) && StartTime(now, 0, paNow) == -1
    ensures WholeSeconds(0 - paNow, rate) == -(paNow / rate)
  {
  }

  /** The native mixer's state. `channels` is null when setting up the
      stream failed. */
  class WsState {
    var errcode: int
    var weberError: int
    var channels: Channels?

    /** The state after a successful setup of `numChannels` discrete and as
        many stream channels. */
    constructor (samplerate: Rate, numChannels: nat, queueSize: int)
      requires queueSize > 0
      ensures errcode == PaNoError && weberError == 0
      ensures channels != null && fresh(channels) && channels.Valid() && channels.samplerate == samplerate
      ensures channels.playbackError == 0
      ensures |channels.data| == 2 * numChannels
      ensures forall i :: 0 <= i < 2 * numChannels ==> channels.Views()[i] == EmptyQueue(if i < numChannels then queueSize else 2)
    {
      errcode := PaNoError;
      weberError := 0;
      channels := new Channels(samplerate, numChannels, queueSize);
    }

    /** `ws_error_str`: the PortAudio text while there is a PortAudio
        error, the full-buffers text for `NO_CHANNELS`, nothing when neither
        code is set. */
    function ErrorStr(): (r: ErrorText)
      reads this
      ensures errcode != PaNoError ==> r == PortAudioText(errcode)
      ensures r == FullBuffers <==> errcode == PaNoError && weberError == NoChannels
      ensures r == NoError <==> errcode == PaNoError && weberError == 0
      ensures errcode == PaNoError && weberError !in {0, NoChannels} ==> r == UnknownCode(weberError)
    {
      ErrorFor(errcode, weberError)
    }

    /** `ws_play`: the sound starts at its requested time or, when that has
        passed, as soon as possible, recording the lateness as the playback
        error. With no channel given, the discrete channel done latest by the
        start time is chosen, or, without a start time, the one done soonest;
        if none can take it, the error is `NO_CHANNELS` and nothing is queued.
        A given channel gets the sound in its producer slot unconditionally. */
    method Play(now: int, playat: int, channel: int, toplay: Sound, paNow: int) returns (r: int)
      requires channels != null && channels.Valid() && ValidSound(toplay)
      requires channel < |channels.data|
      modifies this`weberError, channels`playbackError, channels.Objects()
      ensures channels == old(channels) && channels.Valid()
      ensures channels.playbackError
           == if Late(now, playat, paNow) then WholeSeconds(playat - paNow, channels.samplerate)
              else old(channels.playbackError)
      ensures var qs, time := old(channels.Views()), StartTime(now, playat, paNow);
              var half := |qs| / 2;
              && (r == -1 ==> channel < 0 && weberError == NoChannels && channels.Views() == qs)
              && (r != -1 ==>
                    && 0 <= r < |qs| && weberError == old(weberError)
                    && channels.Views() == qs[r := Produce(qs[r], NewTimedSound(toplay, time))])
              && (channel >= 0 ==> r == channel)
              && (channel < 0 && time > 0 ==> IsLatestFit(qs, half, time, r))
              && (channel < 0 && time <= 0 ==> IsSoonestFree(qs, half, r))
      ensures var qs, time := old(channels.Views()), StartTime(now, playat, paNow);
              channel < 0 && r != -1 && Ring(qs[r]) ==>
                Ring(channels.Views()[r])
                && Contents(channels.Views()[r]) == Contents(qs[r]) + [NewTimedSound(toplay, time)]
      ensures r == -1 ==> ErrorStr() == if errcode != PaNoError then PortAudioText(errcode) else FullBuffers
    {
      ghost var qs := channels.Views();
      var time := StartOf(now, playat, paNow);
      assert channels.Valid() && channels.Views() == qs;
      var sound := NewTimedSound(toplay, time);
      assert sound.start == time;
      r := Allocate(channel, sound);
      if channel < 0 && r != -1 && Ring(qs[r]) {
        assert if time > 0 then IsLatestFit(qs, |qs| / 2, time, r) else IsSoonestFree(qs, |qs| / 2, r);
        ChosenChannelAppends(qs, qs[r], time, r, sound);
      }
    }

    /** The start of a `ws_play` sound. When the requested time has passed,
        `playat - pa_now` is stored in the integer playback error: a
        difference between the caller's and the stream's clocks, in whole
        seconds truncated toward zero. */
    method StartOf(now: int, playat: int, paNow: int) returns (time: int)
      requires channels != null
      modifies channels`playbackError
      ensures time == StartTime(now, playat, paNow)
      ensures channels.playbackError
           == if Late(now, playat, paNow) then WholeSeconds(playat - paNow, channels.samplerate)
              else old(channels.playbackError)
    {
      time := RequestedTime(now, playat, paNow);
      if time < paNow {
        channels.playbackError := WholeSeconds(playat - paNow, channels.samplerate);
        time := -1;
      }
    }

    /** The channel part of `ws_play`: automatic choice for a negative
        channel (`NO_CHANNELS` when there is none), then the producer step. */
    method Allocate(channel: int, sound: TimedSound) returns (r: int)
      requires channels != null && channels.Valid() && Playable(sound)
      requires channel < |channels.data|
      modifies this`weberError, channels.Objects()
      ensures channels == old(channels) && channels.Valid()
      ensures var qs := old(channels.Views());
              var half := |qs| / 2;
              && (r == -1 ==> channel < 0 && weberError == NoChannels && channels.Views() == qs)
              && (r != -1 ==>
                    && 0 <= r < |qs| && weberError == old(weberError)
                    && channels.Views() == qs[r := Produce(qs[r], sound)])
              && (channel >= 0 ==> r == channel)
              && (channel < 0 && sound.start > 0 ==> IsLatestFit(qs, half, sound.start, r))
              && (channel < 0 && sound.start <= 0 ==> IsSoonestFree(qs, half, r))
    {
      ghost var qs := channels.Views();
      r := channel;
      if channel < 0 {
        r := channels.ChooseChannel(sound.start);
        assert channels.Views() == qs && |qs| / 2 == |channels.data| / 2;
        if r == -1 {
          weberError := NoChannels;
          return;
        }
      }
      channels.Enqueue(r, sound);
    }

    /** `ws_play_next`: a chunk of stream `channel` goes into the stream half
        of the bank, unless that channel is paused or its producer slot is
        taken (-1). The result is the caller's time at which the chunk will
        have finished: the channel's done time plus the chunk's length, moved
        from the stream's clock to the caller's. */
    method PlayNext(now: int, playat: int, channel: int, toplay: Sound, paNow: int) returns (r: int)
      requires channels != null && channels.Valid() && ValidSound(toplay)
      requires 0 <= channel < |channels.data| / 2
      modifies channels.Objects()
      ensures channels == old(channels) && channels.Valid()
      ensures var qs := old(channels.Views());
              var c := |qs| / 2 + channel;
              if qs[c].paused || qs[c].slots[qs[c].producer].Some? then
                r == -1 && channels.Views() == qs
              else
                && channels.Views() == qs[c := Produce(qs[c], NewTimedSound(toplay, RequestedTime(now, playat, paNow)))]
                && r - now == qs[c].doneAt + toplay.len - paNow
      ensures var qs := old(channels.Views());
              var c := |qs| / 2 + channel;
              !qs[c].paused && Ring(qs[c]) && Length(qs[c]) < |qs[c].slots| ==>
                Ring(channels.Views()[c])
                && Contents(channels.Views()[c]) == Contents(qs[c]) + [NewTimedSound(toplay, RequestedTime(now, playat, paNow))]
    {
      ghost var qs := channels.Views();
      var c := |channels.data| / 2 + channel;
      var sounds := channels.data[c];
      if sounds.paused {
        return -1;
      }
      if sounds.data[sounds.producerIndex].None? {
        var time := RequestedTime(now, playat, paNow);
        var doneAt := sounds.doneAt + toplay.len;
        var sound := NewTimedSound(toplay, time);
        if Ring(qs[c]) {
          ProduceAppends(qs[c], sound);
        }
        channels.Enqueue(c, sound);
        r := (doneAt - paNow) + now;
      } else {
        if Ring(qs[c]) {
          ProducerFreeIffNotFull(qs[c]);
        }
        r := -1;
      }
    }

    /** `ws_pause`, with the all-channels case ending there: a negative
        channel sets every channel's flag; otherwise exactly the flag of the
        given discrete channel, or of the given stream channel in the second
        half of the bank. */
    method Pause(channel: int, isstream: bool, pause: bool)
      requires channels != null && channels.Valid()
      requires channel >= 0 ==> if isstream then channel < |channels.data| / 2 else channel < |channels.data|
      modifies channels.Objects()
      ensures channels == old(channels) && channels.Valid()
      ensures var qs := old(channels.Views());
              if channel < 0 then channels.Views() == PauseAll(qs, pause)
              else
                var t := PauseIndex(|qs|, channel, isstream);
                channels.Views() == qs[t := qs[t].(paused := pause)]
    {
      if channel < 0 {
        channels.SetAllPaused(pause);
        return;
      }
      if isstream {
        channels.SetPaused(|channels.data| / 2 + channel, pause);
      } else {
        channels.SetPaused(channel, pause);
      }
    }

    /** `ws_warn_str`: a negative playback error is reported once, as the
        number of frames the sound was late, and reset. */
    method WarnStr() returns (w: Warning)
      modifies (if channels == null then {} else {channels})`playbackError
      ensures w.LateBy? <==> old(channels != null && channels.playbackError < 0)
      ensures w.LateBy? ==> w.frames > 0 && w.frames == -old(channels.playbackError) && channels.playbackError == 0
      ensures w == NoWarning && channels != null ==> channels.playbackError == old(channels.playbackError)
    {
      if channels != null && channels.playbackError < 0 {
        w := LateBy(-channels.playbackError);
        channels.playbackError := 0;
        return;
      }
      w := NoWarning;
    }
  }
}
