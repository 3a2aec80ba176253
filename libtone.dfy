/**
 * The audio library (libtone.py): 16-bit WAV sample scaling on the way in
 * (`read_wav`) and out (`write_wav`), and block-wise playback on an output
 * stream (`play`).
 *
 * File reading and writing are left to the caller: `read_wav` is modelled
 * from the decoded file contents on, `write_wav` up to the 16-bit samples it
 * hands to the writer. The output device is an `OutputStream` object whose
 * ghost `calls` field records what the device is asked to do, and the
 * "stop playback" check after each block is a predicate on the block index.
 * In libtone.py that check compares the result of `sd.wait()` with
 * 'escape', and `sd.wait()` never returns that string, so the predicate is
 * always false for the program as written: `PlayCompletes` describes every
 * real run, and `PlayCancelled` describes the early stop the code intends.
 */
module LibTone {
  import opened Wrappers
  import opened BlockSplit

  // ---------------------------------------------------------------------------
  // 16-bit sample scaling
  // ---------------------------------------------------------------------------

  /** A signed 16-bit sample. */
  type Int16 = x: int | -32768 <= x <= 32767

  /** The divisor `read_wav` uses. */
  const DecodeDivisor: real := 32768.0
  /** The factor `write_wav` uses. */
  const EncodeFactor: real := 32767.0

  /** The sample array a WAV reader returns: 16-bit samples, or some other dtype. */
  datatype WavData = Pcm16(samples: seq<Int16>) | OtherDtype

  /** What the WAV reader returns: the rate and the (flat, frame-interleaved) samples. */
  datatype WavFile = WavFile(rate: nat, data: WavData)

  /** `read_wav` fails its dtype assertion on anything but 16-bit samples. */
  datatype ReadError = AssertionError

  /** One 16-bit sample as a float: `s / 32768`. */
  function DecodeSample(s: Int16): (x: real)
    ensures -1.0 <= x < 1.0
    ensures x * DecodeDivisor == s as real
  {
    s as real / DecodeDivisor
  }

  /** `read_wav` after the file is read: assert the dtype, convert, divide by 32768. */
  function ReadWav(file: WavFile): (r: Result<(nat, seq<real>), ReadError>)
    ensures r.Success? <==> file.data.Pcm16?
    ensures r.Success? ==> r.value.0 == file.rate && |r.value.1| == |file.data.samples|
    ensures r.Success? ==> forall i :: 0 <= i < |r.value.1| ==>
      -1.0 <= r.value.1[i] <= 32767.0 / 32768.0 && r.value.1[i] * DecodeDivisor == file.data.samples[i] as real
  {
    match file.data
    case OtherDtype => Failure(AssertionError)
    case Pcm16(samples) =>
      Success((file.rate, seq(|samples|, i requires 0 <= i < |samples| => DecodeSample(samples[i]))))
  }

  /** Conversion of a float to an integer by truncation toward zero (a C cast). */
  function TruncateTowardZero(x: real): (n: int)
    ensures x >= 0.0 ==> 0 <= n && n as real <= x < n as real + 1.0
    ensures x < 0.0 ==> n <= 0 && n as real - 1.0 < x <= n as real
  {
    if x >= 0.0 then x.Floor else -((-x).Floor)
  }

  /** A float that truncates into the 16-bit range. */
  predicate FitsInt16(x: real) {
    -32769.0 < x < 32768.0
  }

  /** `astype(np.int16)` on floats whose truncation is representable. */
  function CastToInt16(xs: seq<real>): (r: seq<Int16>)
    requires forall i :: 0 <= i < |xs| ==> FitsInt16(xs[i])
    ensures |r| == |xs|
  {
    seq(|xs|, i requires 0 <= i < |xs| && FitsInt16(xs[i]) => TruncateTowardZero(xs[i]) as Int16)
  }

  /** What `write_wav` makes of one sample in [-1, 1]: scale by 32767, truncate toward zero. */
  function EncodeSample(x: real): (s: Int16)
    requires -1.0 <= x <= 1.0
    ensures -32767 <= s <= 32767
    ensures x >= 0.0 ==> 0 <= s && s as real <= x * EncodeFactor < s as real + 1.0
    ensures x < 0.0 ==> s <= 0 && s as real - 1.0 < x * EncodeFactor <= s as real
  {
    TruncateTowardZero(x * EncodeFactor)
  }

  predicate InUnitRange(xs: seq<real>) {
    forall i :: 0 <= i < |xs| ==> -1.0 <= xs[i] <= 1.0
  }

  /** The 16-bit samples `write_wav` produces from samples in [-1, 1]. */
  function Encode(xs: seq<real>): (r: seq<Int16>)
    requires InUnitRange(xs)
    ensures |r| == |xs|
  {
    seq(|xs|, i requires 0 <= i < |xs| && -1.0 <= xs[i] <= 1.0 => EncodeSample(xs[i]))
  }

  /**
   * `write_wav` up to the file write: multiply the caller's array by 32767
   * in place, then truncate each sample to 16 bits. The caller's array is
   * left scaled. The path and the rate only go to the file writer, which is
   * not modelled, so they are not parameters here.
   */
  method WriteWav(data: array<real>) returns (pcm: seq<Int16>)
    requires InUnitRange(data[..])
    modifies data
    ensures forall i :: 0 <= i < data.Length ==> data[i] == old(data[i]) * EncodeFactor
    ensures pcm == Encode(old(data[..]))
  {
    ghost var original := data[..];
    for i := 0 to data.Length
      invariant forall j :: 0 <= j < i ==> data[j] == original[j] * EncodeFactor
      invariant forall j :: i <= j < data.Length ==> data[j] == original[j]
    {
      data[i] := data[i] * EncodeFactor;
    }
    assert forall j :: 0 <= j < data.Length ==> data[..][j] == original[j] * EncodeFactor;
    pcm := CastToInt16(data[..]);
  }

  /** A non-zero sample moved one step toward zero. */
  function StepTowardZero(s: Int16): Int16 {
    if s > 0 then s - 1 else if s < 0 then s + 1 else 0
  }

  /** Decoding and re-encoding one sample moves it one step toward zero. */
  lemma SampleRoundTrip(s: Int16)
    ensures EncodeSample(DecodeSample(s)) == StepTowardZero(s)
  {
    var x := DecodeSample(s);
    var y := x * EncodeFactor;
    assert y == s as real - x;
    var n := EncodeSample(x);
    if s > 0 {
      assert 0.0 < x < 1.0;
      assert (s - 1) as real < y < s as real;
    } else if s < 0 {
      assert -1.0 <= x < 0.0;
      assert s as real < y <= (s + 1) as real;
    }
  }

  /** Reading a 16-bit file and encoding the result again moves every sample one step toward zero. */
  lemma WavRoundTrip(file: WavFile)
    requires file.data.Pcm16?
    ensures ReadWav(file).Success?
    ensures InUnitRange(ReadWav(file).value.1)
    ensures Encode(ReadWav(file).value.1)
      == seq(|file.data.samples|, i requires 0 <= i < |file.data.samples| => StepTowardZero(file.data.samples[i]))
  {
    var samples := file.data.samples;
    var decoded := ReadWav(file).value.1;
    forall i | 0 <= i < |samples|
      ensures Encode(decoded)[i] == StepTowardZero(samples[i])
    {
      assert decoded[i] == DecodeSample(samples[i]);
      SampleRoundTrip(samples[i]);
    }
  }

  // ---------------------------------------------------------------------------
  // Playback
  // ---------------------------------------------------------------------------

  /**
   * A numpy array as `play` sees it: its number of dimensions and its rows
   * along the first axis (samples of a 1-D array, 2-element frames of a 2-D one).
   */
  datatype NdArray<T> = NdArray(ndim: nat, rows: seq<T>)

  /** Channel detection: 2 for a 2-D array, 1 for anything else. */
  function Channels<T>(wav: NdArray<T>): (c: nat)
    ensures c == 1 || c == 2
    ensures c == 2 <==> wav.ndim == 2
  {
    if wav.ndim == 2 then 2 else 1
  }

  datatype StreamState = Created | Running | Stopped | Closed

  /** A request made of the output device. */
  datatype StreamCall<T> = StartCall | WriteCall(block: seq<T>) | StopCall | CloseCall

  /** The raw output stream of the audio device. */
  class OutputStream<T> {
    const samplerate: nat
    const blocksize: nat
    const channels: nat
    var state: StreamState
    /** Every request made of the device so far, in order. */
    ghost var calls: seq<StreamCall<T>>

    constructor (samplerate: nat, blocksize: nat, channels: nat)
      ensures this.samplerate == samplerate && this.blocksize == blocksize && this.channels == channels
      ensures state == Created && calls == []
    {
      this.samplerate := samplerate;
      this.blocksize := blocksize;
      this.channels := channels;
      state := Created;
      calls := [];
    }

    method Start()
      requires state == Created
      modifies this
      ensures state == Running && calls == old(calls) + [StartCall]
    {
      state := Running;
      calls := calls + [StartCall];
    }

    method Write(block: seq<T>)
      requires state == Running
      modifies this
      ensures state == Running && calls == old(calls) + [WriteCall(block)]
    {
      calls := calls + [WriteCall(block)];
    }

    method Stop()
      requires state == Running
      modifies this
      ensures state == Stopped && calls == old(calls) + [StopCall]
    {
      state := Stopped;
      calls := calls + [StopCall];
    }

    method Close()
      requires state != Closed
      modifies this
      ensures state == Closed && calls == old(calls) + [CloseCall]
    {
      state := Closed;
      calls := calls + [CloseCall];
    }
  }

  /**
   * How many of `n` blocks are written when writing starts at block `i`:
   * up to and including the first block after which the check fires.
   */
  function BlocksPlayed(escape: nat -> bool, i: nat, n: nat): (k: nat)
    ensures i < n ==> i < k <= n
    ensures i >= n ==> k == n
    decreases n - i
  {
    if i >= n then n
    else if escape(i) then i + 1
    else BlocksPlayed(escape, i + 1, n)
  }

  /** If the check first fires after block `k`, exactly `k + 1` blocks are written. */
  lemma {:induction false} BlocksPlayedFirstEscape(escape: nat -> bool, i: nat, n: nat, k: nat)
    requires i <= k < n && escape(k)
    requires forall j :: i <= j < k ==> !escape(j)
    ensures BlocksPlayed(escape, i, n) == k + 1
    decreases k - i
  {
    if i < k {
      BlocksPlayedFirstEscape(escape, i + 1, n, k);
    }
  }

  /** If the check never fires, every block is written. */
  lemma {:induction false} BlocksPlayedNoEscape(escape: nat -> bool, i: nat, n: nat)
    requires forall j :: i <= j < n ==> !escape(j)
    ensures BlocksPlayed(escape, i, n) == n
    decreases n - i
  {
    if i < n {
      BlocksPlayedNoEscape(escape, i + 1, n);
    }
  }

  function WriteCalls<T>(blocks: seq<seq<T>>): (r: seq<StreamCall<T>>)
    ensures |r| == |blocks|
  {
    seq(|blocks|, i requires 0 <= i < |blocks| => WriteCall(blocks[i]))
  }

  /** The requests `play` makes of the device: start, the written blocks in order, stop, close. */
  function PlayCalls<T>(wav: NdArray<T>, escape: nat -> bool): seq<StreamCall<T>> {
    var blocks := Partition(wav.rows);
    [StartCall] + WriteCalls(blocks[..BlocksPlayed(escape, 0, |blocks|)]) + [StopCall, CloseCall]
  }

  /**
   * `play`: detect the channel count, open and start the stream, write the
   * blocks in order until the check after a block fires, then stop and close.
   */
  method Play<T>(rate: nat, wav: NdArray<T>, escape: nat -> bool) returns (stream: OutputStream<T>)
    ensures fresh(stream)
    ensures stream.samplerate == rate && stream.blocksize == BufferSize
    ensures stream.channels == Channels(wav)
    ensures stream.state == Closed
    ensures stream.calls == PlayCalls(wav, escape)
  {
    var channels := 1;
    if wav.ndim == 2 {
      channels := 2;
    }
    stream := new OutputStream(rate, BufferSize, channels);
    stream.Start();
    var indices := Arange(BufferSize, |wav.rows|, BufferSize);
    var blocks := ArraySplit(wav.rows, indices);
    var i := 0;
    while i < |blocks|
      invariant i <= |blocks|
      invariant stream.state == Running
      invariant stream.calls == [StartCall] + WriteCalls(blocks[..i])
      invariant BlocksPlayed(escape, 0, |blocks|) == BlocksPlayed(escape, i, |blocks|)
    {
      stream.Write(blocks[i]);
      assert blocks[..i + 1] == blocks[..i] + [blocks[i]];
      assert WriteCalls(blocks[..i + 1]) == WriteCalls(blocks[..i]) + [WriteCall(blocks[i])];
      i := i + 1;
      if escape(i - 1) {
        break;
      }
    }
    assert stream.calls == [StartCall] + WriteCalls(blocks[..BlocksPlayed(escape, 0, |blocks|)]);
    stream.Stop();
    stream.Close();
  }

  /** The device sees start first, then only writes (at least one), then stop and close. */
  lemma PlayLifecycle<T>(wav: NdArray<T>, escape: nat -> bool)
    ensures var calls := PlayCalls(wav, escape);
      && |calls| >= 4
      && calls[0] == StartCall
      && (forall i :: 0 < i < |calls| - 2 ==> calls[i].WriteCall?)
      && calls[|calls| - 2] == StopCall
      && calls[|calls| - 1] == CloseCall
  {
    PartitionShape(wav.rows);
  }

  /**
   * When the check first fires after block `k`, the device receives exactly
   * the first `k + 1` blocks, in order, and they are a prefix of the buffer.
   */
  lemma PlayCancelled<T>(wav: NdArray<T>, escape: nat -> bool, k: nat)
    requires k < |Partition(wav.rows)| && escape(k)
    requires forall j :: 0 <= j < k ==> !escape(j)
    ensures PlayCalls(wav, escape)
      == [StartCall] + WriteCalls(Partition(wav.rows)[..k + 1]) + [StopCall, CloseCall]
    ensures Flatten(Partition(wav.rows)[..k + 1]) <= wav.rows
  {
    BlocksPlayedFirstEscape(escape, 0, |Partition(wav.rows)|, k);
    PartitionPrefix(wav.rows, k + 1);
  }

  /**
   * When the check never fires, every block is written, and the blocks
   * written concatenate to the whole buffer.
   */
  lemma PlayCompletes<T>(wav: NdArray<T>, escape: nat -> bool)
    requires forall j :: 0 <= j < |Partition(wav.rows)| ==> !escape(j)
    ensures PlayCalls(wav, escape)
      == [StartCall] + WriteCalls(Partition(wav.rows)) + [StopCall, CloseCall]
    ensures Flatten(Partition(wav.rows)) == wav.rows
  {
    var blocks := Partition(wav.rows);
    BlocksPlayedNoEscape(escape, 0, |blocks|);
    assert blocks[..|blocks|] == blocks;
    PartitionShape(wav.rows);
  }
}
