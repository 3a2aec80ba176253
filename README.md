# Volume and tone control: a Dafny model

This project models the core of a command-line volume and tone control for
16-bit WAV audio. The program reads a WAV file, scales it by a volume
setting, shapes it with three Butterworth band filters (bass, mid, treble),
clips it, and then either writes a new WAV file or plays the result on an
audio device block by block.

Samples are Dafny `real`s standing for IEEE 64-bit floats. Three foreign
routines are uninterpreted parameters: the power `10 ** x`, scipy's
`butter` coefficient design and scipy's `lfilter`. Two things are assumed
of them: `lfilter` returns one output sample per input sample, and `butter`
rejects any critical frequency outside the open interval (0, 1), as scipy
does.

Modules:

- `Tone` (`tone.dfy`): `apply_volume` and `apply_tone`. These are pure
  functions over the flat, frame-interleaved sample sequence, with lemmas
  about muting, the volume ceiling, gain normalisation, the Nyquist-normalised
  cutoffs, the series filter cascade and clipping.
- `BlockSplit` (`block_split.dfy`): the split `play` performs. It models
  `np.arange` and `np.array_split` on the arguments `play` gives them, and
  proves the split equal to a reference fixed-size partition (`Chunks`).
- `LibTone` (`libtone.dfy`): the scaling in `read_wav` (divide by 32768)
  and `write_wav` (multiply the caller's array by 32767 in place, then
  truncate toward zero). It also holds the output stream as a class whose
  ghost `calls` field records the device requests, and `play` as a method
  with a loop.
- `Wrappers` (`wrappers.dfy`): the `Result` type used for the error paths.

Two behaviours of the code shape the model:

- The three filters are chained (tone.py:99-101): mid filters the bass
  output, and treble filters the mid output. `ToneIsSeriesCascade` states
  the chained form.
- `apply_tone` has no rate check of its own. scipy's `butter` rejects a
  critical frequency outside (0, 1), and a rate of 0 divides by zero.
  `ToneSucceedsIff` proves that `apply_tone` fails exactly when the rate is
  at most 8000 Hz or the largest gain is 0 (see `ApplyTone` under "Left
  out"), with the error the code raises.

## Model

| member | source | states |
|---|---|---|
| `Tone.Min` | tone.py:49 | The result is one of the two arguments and is at most each of them. |
| `Tone.VolumeScale` | tone.py:48-51 | A setting up to 25 gives `10 ** (volume / 10)`, and any setting of 25 or more gives `10 ** 2.5`. |
| `Tone.ApplyVolume` | tone.py:41-53 | The output has one sample per input sample. |
| `Tone.VolumeMutes` | tone.py:43-45 | A setting strictly below 0.1 gives all zeros, of the input's length. |
| `Tone.VolumeScalesEverySample` | tone.py:47-53 | A setting of at least 0.1 multiplies every sample by `10 ** (min(volume, 25) / 10)`. No clipping happens here. |
| `Tone.VolumeCeiling` | tone.py:48-49 | Every setting of 25 or more gives exactly the output of 25. |
| `Tone.MaxGain` | tone.py:79 | The maximum is one of the three gains and is at least each of them. |
| `Tone.Normalise` | tone.py:79-82 | Each normalised gain times the old maximum is 10 times the old gain, so every band keeps its share of the maximum. |
| `Tone.NormaliseLargestIsTen` | tone.py:78-82 | Each normalised gain is `10 * g / max`. A band equal to the maximum becomes exactly 10. With a positive maximum, 10 is the new maximum. |
| `Tone.NormaliseBounds` | tone.py:78-82 | Non-negative gains with a positive maximum normalise into [0, 10]. |
| `Tone.MaxGainScales` | tone.py:79 | Multiplying the gains by `k > 0` multiplies their maximum by `k`. |
| `Tone.NormaliseScaleInvariant` | tone.py:79-82 | Multiplying all three gains by `k > 0` leaves the normalised gains unchanged. |
| `Tone.NormalisedCutoff` | tone.py:93-95 | The normalised cutoff times half the rate gives back the cutoff in Hz, and a positive cutoff stays positive. |
| `Tone.Butter` | tone.py:93-95 | Filter design succeeds exactly when every critical frequency lies strictly inside (0, 1). Otherwise it raises the critical-frequency error. |
| `Tone.CutoffBelowNyquist` | tone.py:93-95 | A cutoff of `hz` normalised by `rate / 2` lies in (0, 1) exactly when `rate > 2 * hz`. |
| `Tone.CutoffsValidIff` | tone.py:71-95 | All three normalised cutoffs (300, 2000 and 4000 Hz) lie in (0, 1) exactly when the rate is above 8000. |
| `Tone.MidBandOrdered` | tone.py:94 | The band-pass filter's lower edge is positive and below its upper edge at every rate. |
| `Tone.FilterStage` | tone.py:99-101 | Filtering with the gain-scaled numerator keeps the signal's length. |
| `Tone.Clip` | tone.py:113 | Every clipped sample lies in [-1, 1], and the length is kept. A sample above 1 becomes 1, and a sample below -1 becomes -1. |
| `Tone.ClipKeepsInRange` | tone.py:113 | A sample passes the clip unchanged exactly when it already lies in [-1, 1]. |
| `Tone.ClipIdempotent` | tone.py:113 | Clipping a clipped signal changes nothing. |
| `Tone.ApplyTone` | tone.py:56-115 | A successful result has the input's length, and every sample lies in [-1, 1]. |
| `Tone.ToneSucceedsIff` | tone.py:79-95 | Success happens exactly when rate > 8000 and the maximum gain is non-zero. Rate 0 gives the division error. A rate in 1..8000 gives the critical-frequency error. A zero maximum gives undefined gains. |
| `Tone.ToneIsSeriesCascade` | tone.py:93-113 | The result is `clip(treble(mid(bass(x))))`. Each filter takes the previous filter's output, its design comes from the Nyquist-normalised cutoffs, and its numerator is scaled by the band's normalised gain. |
| `BlockSplit.Arange` | libtone.py:55 | Element `i` is `start + i * step` and lies below `stop`, and one more step would reach `stop`, so no value below `stop` is missing. |
| `BlockSplit.PySlice` | libtone.py:57 | An in-range Python slice is the sequence slice. |
| `BlockSplit.Pieces` | libtone.py:57 | Cutting at a list of indices gives one more piece than there are indices. |
| `BlockSplit.ArraySplit` | libtone.py:57 | `np.array_split` with a list of indices gives one more piece than there are indices. |
| `BlockSplit.Partition` | libtone.py:55-57 | Splitting at 2048, 4096, ... below the length gives exactly the consecutive 2048-frame blocks of the reference partition `Chunks`. |
| `BlockSplit.Chunks` | libtone.py:14-57 | The reference partition has at least one block. No block is longer than `size`, and every block but the last has exactly `size` elements. |
| `BlockSplit.ChunksFlatten` | libtone.py:55-57 | Concatenating the fixed-size blocks reproduces the sequence in order. |
| `BlockSplit.ChunksSizes` | libtone.py:14-57 | Every block but the last has exactly `size` elements. The last has 1 to `size`, or the only block is empty. The count `k` satisfies `(k - 1) * size < n <= k * size`. |
| `BlockSplit.PartitionCount` | libtone.py:55-57 | `play` makes ceil(n / 2048) blocks for n > 0, and one block for n = 0. |
| `BlockSplit.PartitionShape` | libtone.py:55-57 | The blocks of `play` concatenate to the buffer. All but the last hold 2048 frames, and the last holds 1 to 2048 frames, or is the single empty block. |
| `BlockSplit.FlattenSplit` | libtone.py:57 | Concatenating a leading run of blocks and then the rest gives the concatenation of all of them. |
| `BlockSplit.PartitionPrefix` | libtone.py:57-61 | Any leading run of blocks concatenates to a prefix of the buffer, and all of them give the whole buffer. |
| `LibTone.DecodeSample` | libtone.py:24-25 | A decoded sample lies in [-1, 1) and times 32768 gives back the 16-bit sample. |
| `LibTone.ReadWav` | libtone.py:21-26 | Reading succeeds exactly for 16-bit samples, else the assertion fails. On success it keeps the rate and the sample count, every value `v` satisfies `v * 32768 == s`, and every value lies in [-1, 32767/32768]. |
| `LibTone.TruncateTowardZero` | libtone.py:33 | The integer has the float's sign and is its whole part: `abs(n) <= abs(x) < abs(n) + 1`. |
| `LibTone.CastToInt16` | libtone.py:33 | Casting to 16 bits keeps the sample count. |
| `LibTone.EncodeSample` | libtone.py:32-33 | A sample in [-1, 1] encodes into [-32767, 32767], as the whole part of `x * 32767` truncated toward zero. |
| `LibTone.Encode` | libtone.py:32-33 | Encoding keeps the sample count. |
| `LibTone.WriteWav` | libtone.py:30-33 | The caller's array is left multiplied by 32767. The 16-bit samples are the encoding of the original values. |
| `LibTone.SampleRoundTrip` | libtone.py:24-33 | Decoding then encoding moves a positive sample down by one and a negative sample up by one, and keeps 0. |
| `LibTone.WavRoundTrip` | libtone.py:21-33 | Reading a 16-bit file gives samples in [-1, 1], and encoding them again moves every sample one step toward zero. |
| `LibTone.Channels` | libtone.py:40-42 | The channel count is 1 or 2, and it is 2 exactly when the array is 2-D. |
| `LibTone.OutputStream.constructor` | libtone.py:45-50 | A new stream has the given rate, block size and channel count, is not started, and has received no requests. |
| `LibTone.OutputStream.Start` | libtone.py:53 | Only a new stream can start. Starting records the start request. |
| `LibTone.OutputStream.Write` | libtone.py:58 | Only a running stream accepts writes. A write records the block. |
| `LibTone.OutputStream.Stop` | libtone.py:65 | Only a running stream stops. Stopping records the stop request. |
| `LibTone.OutputStream.Close` | libtone.py:66 | Closing records the close request and leaves the stream closed. |
| `LibTone.BlocksPlayed` | libtone.py:57-61 | From block `i < n`, between `i + 1` and `n` blocks are written in all. |
| `LibTone.BlocksPlayedFirstEscape` | libtone.py:57-61 | If the check first fires after block `k`, exactly `k + 1` blocks are written. |
| `LibTone.BlocksPlayedNoEscape` | libtone.py:57-61 | If the check never fires, every block is written. |
| `LibTone.Play` | libtone.py:38-66 | The stream gets the rate, block size 2048 and the detected channel count, and ends closed. The device receives start, the blocks in order up to the first one after which the check fires, then stop and close. |
| `LibTone.PlayLifecycle` | libtone.py:53-66 | The device sees start first, then at least one write and only writes, then stop, then close. |
| `LibTone.PlayCancelled` | libtone.py:55-61 | If the check first fires after block `k`, the device receives exactly the first `k + 1` blocks, and they are a prefix of the buffer. |
| `LibTone.PlayCompletes` | libtone.py:55-61 | If the check never fires, every block is written, and together they are the whole buffer. |

## Left out

- Command-line handling (`tone_args`, libtone.py:72-84) and `main`'s orchestration and printing (tone.py:119-150): these are glue, not logic.
- The progress message printed by `play` (libtone.py:62).
- Reading and writing WAV files (libtone.py:22, 34) are file I/O. `ReadWav` starts from the reader's result, and `WriteWav` returns the 16-bit samples it would hand to the writer.
- `10 ** x`, `butter`'s coefficient design and `lfilter` are parameters without an interpretation. So the model proves nothing about the frequency response. It also cannot prove that silence in gives silence out of the tone stage.
- Float rounding is not modelled: samples are reals. The scaling in `read_wav` and `write_wav` is exact in 64-bit floats for 16-bit inputs, so the round trip holds there too.
- The float32 conversion in `play` (libtone.py:56) is not modelled. Blocks carry the frames unchanged.
- The tone stage treats a stereo array as its flat sample sequence. `lfilter`'s choice of axis on a 2-D array is part of the uninterpreted filter.
- `sounddevice` internals, real-time pacing and `sd.wait()` (libtone.py:45-50, 58, 60) are device I/O. The device is the `OutputStream` class with a record of requests. The check after each block is a predicate on the block index.
- PlayCancelled: describes the early stop the code intends, not a run of the program. `sd.wait()` never returns 'escape', so the check at libtone.py:60 never fires, and only `PlayCompletes` describes real runs: every block is played. The comment at tone.py:144 says as much (playback can only be interrupted from the keyboard).
- The `assert data.dtype == np.float64` in `write_wav` (libtone.py:31) always holds in the model: the `array<real>` parameter of `WriteWav` is the float64 array.
- Play: covers normal returns only. An exception from a write leaves the stream open in the source, and that path is not modelled.
- WriteWav: requires every sample to lie in [-1, 1]. Casting an out-of-range float to int16 is platform-defined. Every output of the tone stage lies in that range.
- ApplyTone: when the largest gain is 0, the source computes `10.0 / 0` on numpy floats, which makes every gain infinite or not-a-number and fills the output with not-a-number. The model returns the `UndefinedGains` error instead. For an empty input the source returns an empty array.
- The header comment in tone.py says a tone setting below 0.1 means no tone. The code has no such threshold, and neither does the model.
- The unused second `BUFFER_SIZE` in tone.py:32.
