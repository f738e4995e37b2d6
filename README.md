# Weber's native audio mixer, in Dafny

This project models `src/weber_sound.c`, the C mixer behind Weber's sound
playback, and proves properties of the model.

The mixer keeps a bank of `2 * num_channels` channels (`Channels`). The
first half are discrete channels that `ws_play` fills. The second half are
stream channels that `ws_play_next` fills. Each channel (`Sounds`) is a
fixed ring of slots holding timed sounds. It has a producer index, a
consumer index, a `paused` flag and a `done_at` time. The audio callback
`ws_callback` clears the interleaved stereo output. Then, channel by
channel, it adds the samples of the sounds due in this buffer, advances
each sound's `offset`, and frees a sound's slot once all of it has been
played.

Modules, one file each:

- `SoundQueue` (`queue.dfy`): samples with 16-bit wrap-around, `Sound`,
  `TimedSound` and one channel as a value (`Queue`). It defines the ring
  invariant (`Ring`) and the queue order (`Contents`). Lemmas show that the
  producer step appends, the consumer step drops the head, and the in-place
  head update replaces the head.
- `Mixing` (`mixing.dfy`): the callback as functions on values. `Place`
  covers the start-time branches, `MixHead` adds the frames, `SoundStep` is
  one pass of the consumer loop and `Drain` the whole loop. `MixChannel`
  mixes one channel and `MixAll` the whole bank. Lemmas about them cover
  retirement, the ring invariant, paused channels, silence and the
  `should_start` finding.
- `Selection` (`selection.dfy`): the two channel scans of `ws_play`, stated
  as argmax/argmin with the lowest index winning ties.
- `Bank` (`bank.dfy`): the classes `Sounds` (a slot array and its indices)
  and `Channels` (a fixed sequence of `Sounds` objects: the C code allocates
  the channel structs once and only ever updates their fields). The
  imperative callback, enqueue, pause and the two scans are each proved
  against the functions above.
- `Weber` (`weber.dfy`): `WsState` with `ws_play`, `ws_play_next`,
  `ws_pause`, `ws_warn_str` and `ws_error_str`.

Modelling choices:

- Times are counted in sample frames. The source's `len * samplelen`
  seconds is `len` frames. `floor((start - buffer_start) * samplerate)` is
  `start - buffer_start`.
- The stream clock `Pa_GetStreamTime` is the parameter `paNow`. The
  callback's `outputBufferDacTime` and `currentTime` are parameters too.
- `Int16 +=` is written as two's-complement wrap-around (`Wrap16`).
- A `TimedSound` is held by value in its slot. Freeing it is clearing the
  slot.

Behaviour reproduced as written:

- `ws_play` with an explicit channel writes into that channel's producer
  slot without checking that it is free. `OverwriteBreaksRing` shows that
  on a full ring this breaks the ring invariant.
- In the `start <= 0` branch of the callback (src/weber_sound.c:168-170),
  `done_at` is computed from the previous sound's `zero_padding`, before it
  is updated to `outi`. `Place` keeps that order.
- `ws_play` stores `playat - pa_now` in the `int` playback error. That is
  a difference between the caller's clock and the stream's, in seconds,
  truncated toward zero (`Weber.WholeSeconds`). The callback stores frames
  in the same field, and `ws_warn_str` reads it as frames.
  `Weber.LateSecondsReadAsFrames` shows the effect. A request two seconds
  late is reported as 2 frames late. A request half a second late is not
  reported at all. A request without a start time (`playat <= 0`) has
  `time = -1`, so it counts as late whenever the stream clock is past -1. It
  then stores `playat - pa_now` in whole seconds. For `playat = 0` that is
  0 during the stream's first second and -k once the stream is k seconds
  old (`Weber.UntimedPlayStoresStreamAge`), which `ws_warn_str` then
  reports as k frames late. A negative `playat` can store a negative value
  at once: `playat` = -1 s, half a second into the stream, stores -1.
  `Weber.WsState.Play` and `Weber.WsState.StartOf` state this as written.

## Model

| member | source | states |
|---|---|---|
| SoundQueue.Wrap16 | src/weber_sound.c:179-180 | storing a sum into an `Int16` keeps it modulo 2^16, and in-range sums are unchanged |
| SoundQueue.NewTimedSound | src/weber_sound.c:34-40 | the timed sound shares the samples and length, has the given start and offset 0, and is playable exactly when the sound is well formed |
| SoundQueue.Next | src/weber_sound.c:253-255 | the producer/consumer increment with reset at `len` is `(i + 1) % len` |
| SoundQueue.EmptyQueue | src/weber_sound.c:51-61 | `newSounds`: `queue_size` free slots, both indices 0, unpaused, `done_at` 0 |
| SoundQueue.EmptyQueueIsEmpty | src/weber_sound.c:51-61 | a new queue satisfies the ring invariant and holds no sounds |
| SoundQueue.ProducerFreeIffNotFull | src/weber_sound.c:221 | on a ring, the producer slot is free exactly when the queue is not full |
| SoundQueue.HeadIsFirst | src/weber_sound.c:148-150 | on a ring, the consumer slot is occupied exactly when the queue is non-empty, and it holds the first queued sound |
| SoundQueue.EmptyRingIsFree | src/weber_sound.c:64-70 | a ring with a free consumer slot is entirely free, with the producer at the consumer |
| SoundQueue.Produce | src/weber_sound.c:250-255 | the producer step writes the sound into the producer slot and advances the producer with wrap-around; every other slot, the consumer, `paused` and `done_at` are unchanged |
| SoundQueue.ProduceAppends | src/weber_sound.c:250-257 | enqueueing into a free producer slot keeps the ring invariant and appends the sound to the queue's contents |
| SoundQueue.ProduceKeepsRing | src/weber_sound.c:250-257 | filling a free producer slot and advancing the producer keeps the ring invariant and lengthens the queue by one |
| SoundQueue.Consume | src/weber_sound.c:186-192 | the consumer step clears the consumer slot and advances the consumer with wrap-around; every other slot, the producer, `paused` and `done_at` are unchanged |
| SoundQueue.ConsumeRemovesHead | src/weber_sound.c:186-192 | freeing the head slot and advancing the consumer keeps the ring and drops exactly the first sound |
| SoundQueue.ConsumeKeepsRing | src/weber_sound.c:186-192 | freeing the head slot and advancing the consumer keeps the ring invariant and shortens the queue by one |
| SoundQueue.ConsumeFrees | src/weber_sound.c:63-69 | one step of the `freeSounds` walk keeps the queue well formed, only frees slots, and lowers the number of occupied slots |
| SoundQueue.SetHead | src/weber_sound.c:182 | the head sound is replaced in its slot; every other slot and both indices are unchanged |
| SoundQueue.SetHeadReplacesHead | src/weber_sound.c:182 | updating the head sound's offset in place keeps the ring and replaces only the first sound |
| SoundQueue.OverwriteBreaksRing | src/weber_sound.c:249-251 | on a full ring of more than one slot, the explicit-channel write finds an occupied producer slot, and the result is no longer a ring |
| SoundQueue.OccupiedClear | src/weber_sound.c:191 | clearing an occupied slot lowers the number of occupied slots by one, which makes the consumer loop terminate |
| Mixing.Place | src/weber_sound.c:151-173 | a started sound is left as is. An unstarted sound due inside the buffer and not behind `outi` starts at frame `start - buffer_start`, with `done_at = start + len`. A late one starts at `outi`, with `done_at = buffer_start + outi + len`, and records the playback error `(start - buffer_start) - outi`. One due at or after the buffer's end sets `outi` to the buffer length and changes nothing else. One without a start time starts at `outi`, with `done_at` from the previous `zero_padding`. Slots and indices are unchanged |
| Mixing.PlacedFrame | src/weber_sound.c:153-172 | an unstarted head sound that is not deferred is mixed from frame `start - buffer_start` when that is not behind `outi`, and from `outi` otherwise, a frame inside the buffer |
| Mixing.HeadStartsAtPlacedFrame | src/weber_sound.c:151-181 | the head sound's first left and right samples are added at the frame `Place` chose (its own start frame, or `outi` when late or without a start time), and the output before that frame is unchanged |
| Mixing.MixHead | src/weber_sound.c:175-183 | when the sound does not end within the buffer, mixing reaches the end of the buffer |
| Mixing.SoundStep | src/weber_sound.c:150-193 | one pass changes only the consumer slot, keeps producer and `paused`, and either frees a slot or fills the buffer |
| Mixing.Drain | src/weber_sound.c:150-193 | the consumer loop ends with the consumer slot free or the buffer full, with producer and `paused` unchanged |
| Mixing.AddFrames | src/weber_sound.c:178-181 | the output frames from `zero_padding` up to the end of the buffer or of the sound are the wrapped sums with the sound's left and right samples from its offset on (`MixedAt`), and every other sample is unchanged |
| Mixing.MixChannel | src/weber_sound.c:139-193 | one channel's pass: a paused channel, the output and the playback error are left exactly as they were; an idle channel only gets `done_at` at the end of the buffer; otherwise the loop ends with the consumer slot free or the buffer full; size, producer and `paused` are kept |
| Mixing.MixAll | src/weber_sound.c:120-196 | the callback on values: the output starts silent and every channel is mixed in order, keeping every channel's size, producer and flag; `carry = true` keeps `should_start` across sounds as written (the as-written half of the first finding), `carry = false` resets it per sound |
| Mixing.Silence | src/weber_sound.c:130-133 | the cleared output buffer: `2 * len` zero samples |
| Mixing.Mixes | src/weber_sound.c:177 | the mix guard: a sound is mixed only while its offset is below its length; a started sound always is; an unstarted one, with no flag left over, exactly when it is not deferred past this buffer |
| Mixing.Advanced | src/weber_sound.c:182 | the offset update: a mixed sound's offset strictly advances, an unmixed sound is unchanged, and samples, length and start are kept |
| Mixing.MixHeadAdds | src/weber_sound.c:177-182 | a mixed head sound is added from the frame `Place` chose up to the end of the buffer or of the sound, and `outi` ends there |
| Mixing.MixStep | src/weber_sound.c:138-193 | one pass of the channel loop: only channel `c` changes, and every channel keeps its producer, flag and size |
| Mixing.MixFrom | src/weber_sound.c:138-194 | mixing channels from `c` on leaves the earlier channels alone and keeps every channel's producer, `paused` flag and size |
| Mixing.StepRetiresExactlyFinished | src/weber_sound.c:186-192 | a pass keeps the ring; the head leaves the queue exactly when its offset reaches its length, and otherwise stays at the head with its new offset |
| Mixing.StepRetiresFront | src/weber_sound.c:150-193 | one pass retires zero or one sound from the front |
| Mixing.DrainConsumesFront | src/weber_sound.c:150-193 | the consumer loop keeps the ring and removes sounds only from the front: the rest stay in order, and only the new head may be advanced |
| Mixing.DrainStepFront | src/weber_sound.c:150-193 | the same after a first pass |
| Mixing.FrontRetiredTrans | src/weber_sound.c:150-193 | retiring from the front twice is retiring from the front |
| Mixing.MixFromChannels | src/weber_sound.c:138-141 | mixing channels from `c` on leaves paused ones unchanged and keeps rings rings |
| Mixing.MixChannelKeeps | src/weber_sound.c:139-193 | one channel's pass leaves a paused channel exactly as it was and keeps a ring a ring |
| Mixing.MixAllKeepsChannels | src/weber_sound.c:138-141 | after the callback, every paused channel is exactly as before, and every ring is still a ring |
| Mixing.QuietFromChannels | src/weber_sound.c:141-150 | channels that are paused or empty add nothing to the output |
| Mixing.SilenceWhenIdle | src/weber_sound.c:130-133 | the output is cleared first, so when no channel has a sound to play the callback outputs silence |
| Mixing.DeferredStepWaits | src/weber_sound.c:153-166 | with `should_start` reset, a pass whose head sound is due at or after the end of the buffer changes nothing but `outi`, at any point of the consumer loop |
| Mixing.DeferredDrainWaits | src/weber_sound.c:150-193 | the same for the rest of the consumer loop: the channel, the output and the playback error are unchanged |
| Mixing.DeferredSoundWaits | src/weber_sound.c:153-166 | with `should_start` reset per sound, a head sound due at or after the end of the buffer leaves the channel and the output unchanged |
| Mixing.NowThenLaterFirstStep | src/weber_sound.c:167-192 | on the example channel, the first pass plays the play-now sound into frame 0 and retires it |
| Mixing.StaleSecondStep | src/weber_sound.c:126-183 | as written, the second pass sees `should_start` still set and mixes the sound due at frame 100 |
| Mixing.ResetSecondStep | src/weber_sound.c:153-166 | with the flag reset, the second pass defers that sound |
| Mixing.StaleChannelPass | src/weber_sound.c:138-193 | the whole channel pass, as written, on the example |
| Mixing.ResetChannelPass | src/weber_sound.c:138-193 | the whole channel pass, with the flag reset, on the example |
| Mixing.OneChannelMix | src/weber_sound.c:138-194 | the callback over a one-channel bank is that channel's pass |
| Mixing.StaleShouldStartMixesFutureSound | src/weber_sound.c:126-183 | as written, a callback for frames 0-1 adds a sound due at frame 100 into frame 0 and frees its slot |
| Mixing.FutureSoundWaitsWhenReset | src/weber_sound.c:150-183 | with the per-sound reset, the same callback plays only the first sound and keeps the later one queued |
| Selection.IsLatestFit | src/weber_sound.c:216-228 | the reference rule for a timed sound: among the unpaused discrete channels with a free producer slot that are done by the start time, the one done latest, lowest index on ties, or -1 |
| Selection.IsSoonestFree | src/weber_sound.c:231-242 | the reference rule for a sound to play at once: among the unpaused discrete channels with a free producer slot, the one done soonest, lowest index on ties, or -1 |
| Selection.LatestFitUnique | src/weber_sound.c:216-228 | the latest-fit choice (maximum `done_at` among fitting channels, lowest index on ties, -1 if none) is unique |
| Selection.SoonestFreeUnique | src/weber_sound.c:231-242 | the soonest-free choice (minimum `done_at` among available channels, lowest index on ties, -1 if none) is unique |
| Selection.SoonestNoLaterThanLatest | src/weber_sound.c:213-242 | when some channel fits a timed sound, the soonest-free scan also finds one, done no later than the latest fit |
| Selection.ChosenChannelAppends | src/weber_sound.c:213-257 | either scan picks a channel with a free producer slot, so enqueueing there appends to its queue and keeps the ring |
| Bank.Sounds.constructor | src/weber_sound.c:51-61 | `newSounds`: the channel's value is the empty queue of `queue_size` slots |
| Bank.Sounds.Push | src/weber_sound.c:250-255 | the sound goes into the producer slot and the producer index advances with wrap-around; nothing else changes |
| Bank.Sounds.Free | src/weber_sound.c:63-72 | `freeSounds`: the walk ends at a free consumer slot and only clears slots; on a ring it frees every slot and stops at the producer |
| Bank.Sounds.PlaceHead | src/weber_sound.c:151-173 | the imperative placement computes `Place` on the channel with `should_start` reset, so the sound starts at its own frame, at `outi` when late (recording the error), or not in this buffer, with `done_at` as `Place` states |
| Bank.Sounds.StepHead | src/weber_sound.c:150-192 | one pass of the imperative consumer loop computes `SoundStep` on the channel and the output array |
| Bank.Sounds.MixInto | src/weber_sound.c:139-193 | one channel of the imperative callback computes `MixChannel` with `should_start` reset per sound |
| Bank.AddFramesInto | src/weber_sound.c:178-181 | the summing loop writes `AddFrames` into the output array and stops at the end of the buffer or of the sound |
| Bank.Clear | src/weber_sound.c:130-133 | the output array is all zeros |
| Bank.NewChannelList | src/weber_sound.c:85-103 | the channel objects of `newChannels`: `2*num_channels` fresh, distinct, empty channels, `queue_size` slots for the first half and 2 for the rest |
| Bank.Channels.constructor | src/weber_sound.c:85-103 | `newChannels`: `2*num_channels` distinct empty channels; the first half have `queue_size` slots, the stream half 2; playback error and latency are zero |
| Bank.Channels.LatestFree | src/weber_sound.c:216-228 | the scan returns the latest-fit choice over the discrete half |
| Bank.Channels.SoonestFree | src/weber_sound.c:231-242 | the scan returns the soonest-free choice over the discrete half |
| Bank.Channels.ChooseChannel | src/weber_sound.c:213-242 | a start time greater than 0 selects the latest-fit scan, otherwise the soonest-free scan |
| Bank.Channels.Enqueue | src/weber_sound.c:249-257 | exactly channel `c` takes the producer step; no other channel changes |
| Bank.Channels.SetPaused | src/weber_sound.c:383-386 | exactly channel `c`'s flag changes |
| Bank.Channels.SetAllPaused | src/weber_sound.c:378-382 | every channel's flag is set and nothing else changes |
| Bank.Channels.MixChannelAt | src/weber_sound.c:138-193 | mixing channel `c` in place is `MixStep` on the bank's value |
| Bank.Channels.MixChannels | src/weber_sound.c:138-194 | the channel loop computes `MixFrom` from channel 0 |
| Bank.Channels.Callback | src/weber_sound.c:120-196 | `ws_callback`: the channels and output array become `MixAll` of the old channels with `should_start` reset per sound; latency and buffer size are recorded |
| Weber.RequestedTime | src/weber_sound.c:202-203 | a requested time keeps its delay from now when moved to the stream clock; no request is -1 |
| Weber.StartTime | src/weber_sound.c:202-207 | the start is -1 or not in the stream's past; a time not yet passed keeps its delay; a passed or missing time becomes -1 |
| Weber.WholeSeconds | src/weber_sound.c:205-206 | a frame count converted to seconds and truncated toward zero, as the `double`-to-`int` store does |
| Weber.LateSecondsReadAsFrames | src/weber_sound.c:202-206 | at 44100 frames per second, a request two seconds late stores -2, one half a second late stores 0, and an untimed request with `playat` = -1 s half a second into the stream stores -1 |
| Weber.UntimedPlayStoresStreamAge | src/weber_sound.c:202-206 | a request with `playat = 0` is late on a running stream, starts as soon as possible, and stores minus the stream's age in whole seconds |
| Weber.Late | src/weber_sound.c:204 | the late test: a timed request is late exactly when `playat` is before the caller's `now`, an untimed one exactly when the stream clock is past -1 |
| Weber.PauseIndex | src/weber_sound.c:383-386 | the index `ws_pause` writes: the channel itself for a discrete channel, an index in the stream half for an in-range stream channel |
| Weber.PauseAll | src/weber_sound.c:378-382 | the all-channels loop of `ws_pause`: every channel's flag becomes `pause`, and nothing else changes |
| Weber.ErrorFor | src/weber_sound.c:306-319 | `ws_error_str`: a PortAudio error wins; otherwise `NO_CHANNELS` gives the full-buffers text, any other nonzero code the unknown-code text with that code, and 0 no error |
| Weber.PauseAsWritten | src/weber_sound.c:377-387 | as written, the second write stays inside the bank exactly when its computed index does; then the flag becomes `pause` on every channel when `channel < 0` and on the computed index, and every other channel is unchanged |
| Weber.PauseAllOverruns | src/weber_sound.c:378-386 | as written, pausing all with a non-stream `channel = -1` writes outside the bank |
| Weber.PauseOneAsWritten | src/weber_sound.c:383-386 | for an in-range channel, the as-written pause sets exactly one flag, in the stream half when `isstream` |
| Weber.WsState.ErrorStr | src/weber_sound.c:306-319 | `ws_error_str` on the state: the PortAudio text while there is a PortAudio error, the full-buffers text exactly for `NO_CHANNELS` alone, the unknown-code text for any other mixer code, and nothing exactly when neither code is set |
| Weber.WsState.constructor | src/weber_sound.c:322-333 | the state after a successful setup: no errors, a fresh bank as `newChannels` builds it |
| Weber.WsState.Play | src/weber_sound.c:199-258 | `ws_play`: the late rule and playback error; with no channel, the latest-fit or soonest-free choice; -1 with `NO_CHANNELS` and no channel changed; otherwise only the chosen channel takes the producer step, and on a ring the sound is appended; the error text is then full buffers unless PortAudio failed |
| Weber.WsState.StartOf | src/weber_sound.c:200-207 | the start time is `StartTime`; a late request records `playat - pa_now` in whole seconds truncated toward zero; otherwise the playback error is unchanged |
| Weber.WsState.Allocate | src/weber_sound.c:213-257 | the choice of channel, `NO_CHANNELS` with nothing changed, or the producer step on exactly that channel |
| Weber.WsState.PlayNext | src/weber_sound.c:260-290 | `ws_play_next` targets channel `len/2 + channel`: -1 and nothing changed when it is paused or its producer slot is taken; otherwise exactly that channel takes the producer step, and the result is the done time plus the chunk length on the caller's clock |
| Weber.WsState.Pause | src/weber_sound.c:376-387 | corrected `ws_pause`: a negative channel sets every flag and nothing else; otherwise exactly one flag, in the stream half when `isstream` |
| Weber.WsState.WarnStr | src/weber_sound.c:293-303 | `ws_warn_str`: a warning exactly when the playback error is negative, for that many frames, after which it is 0; otherwise nothing changes |

## Left out

- `ws_setup` failure paths, `ws_close`, `ws_free` and `freeChannels`: these are PortAudio lifecycle and memory management. Only the successful setup is modelled, as `Weber.WsState.constructor`.
- `ws_cur_latency` and the millisecond formatting in `ws_warn_str`: floating-point reporting. `WarnStr` returns the lateness in frames.
- The text of `Pa_GetErrorText` and the `%03d` rendering of unknown codes: `ErrorFor` returns the code instead.
- Concurrency between the audio thread and the caller thread: each operation is one sequential step.
- Floating-point time: times are whole frames and the sample rate a positive whole number, so `len * samplelen` is `len` frames and the callback's `floor` has nothing to round. The one conversion that loses precision, `ws_play` storing a difference of times in seconds into the `int` playback error, is modelled by `Weber.WholeSeconds`.
- The leak of the sound allocated at src/weber_sound.c:210 on the `NO_CHANNELS` path: allocation is not modelled.
- Weber.WsState.Play: requires `channel < 2*num_channels`. The source does not check an explicit channel's range.
- Weber.WsState.Pause: requires an explicit channel to lie in the bank (in its stream half when `isstream`). The source does not check the range of `channel` before writing its flag.
- Weber.WsState.PlayNext: requires `0 <= channel < num_channels`. The source does not check the range. The -1 sentinel is stated only for the failing cases, because a computed finishing time can also equal -1.
- Bank.Sounds.Free: the queue-emptying result is stated only for queues that keep the ring invariant. Otherwise the walk stops at the first free slot.
- Bank.Channels.Callback: uses the per-sound reset of `should_start` (see Findings). The as-written behaviour is `Mixing.MixAll` with `carry = true`.
- The unused global `first_loop` is not modelled.

## Findings

| source | as written | input that shows it | evidently intended | confidence | as-written member | corrected member |
|---|---|---|---|---|---|---|
| src/weber_sound.c:126-183 | `should_start` is set once per callback and never reset. A later unstarted sound whose start lies beyond this buffer is still mixed, from the previous sound's stale `zero_padding`. If it ends within the buffer its slot is freed; a longer one keeps its advanced offset, stays at the head and plays on in later buffers. The flag also carries over from one channel to the next. | One channel: a play-now sound, then a sound due at frame 100, with a 2-frame buffer at frame 0. The second sound is added into frame 0 and its slot freed. | A sound due after this buffer waits for its own buffer. | medium, not executed | Mixing.StaleShouldStartMixesFutureSound | Mixing.DeferredDrainWaits |
| src/weber_sound.c:378-386 | After pausing every channel for `channel < 0`, `ws_pause` goes on to write `data[channel]` (or `data[len/2 + channel]`). | `channel = -1`, `isstream = 0`: writes `data[-1]`, outside the bank. | "If no channel is specified, then all sounds are paused" (latest/search_index.js:1024), so it should stop there. | high, not executed | Weber.PauseAllOverruns | Weber.WsState.Pause |
