/** The audio engine (`CTAG_AudioEngine`) and its pluggable sample source
    (`CTAG_AudioSource`): one iteration of the streaming task fills a block
    of interleaved stereo samples, each frame pulled from the bound source
    and duplicated into both slots of the frame, or silence when no source is bound,
    and hands the whole block to the I2S output. */
module AudioEngine {
  import opened CInt

  /** Stereo frames per block (`buffer_samples`). */
  const BufferSamples: nat := 256

  /** `int16_t` slots per block: two samples per stereo frame. */
  const BlockSlots: nat := BufferSamples * 2

  /** `sizeof(i2s_buffer)`: two bytes per `int16_t` slot. */
  const BlockBytes: nat := BlockSlots * 2

  /** A sample source (`CTAG_AudioSource`). Whatever a concrete source computes,
      the samples it hands out form a sequence: `stream(n)` is the sample that
      its `n`-th call of `getNextSample()` returns, and `position` counts the
      calls made so far. */
  class AudioSource {
    const stream: nat -> Int16
    var position: nat

    constructor (stream: nat -> Int16)
      ensures this.stream == stream && position == 0
    {
      this.stream := stream;
      position := 0;
    }

    /** `getNextSample()`: the next signed 16-bit sample; the source advances. */
    method GetNextSample() returns (sample: Int16)
      modifies this
      ensures sample == stream(old(position))
      ensures position == old(position) + 1
    {
      sample := stream(position);
      position := position + 1;
    }
  }

  /** The `count` samples a source hands out from call number `from` on. */
  function Pulled(stream: nat -> Int16, from: nat, count: nat): seq<Int16>
  {
    seq(count, k requires 0 <= k < count => stream(from + k))
  }

  /** Every mono sample duplicated into two consecutive slots. */
  function Stereo(mono: seq<Int16>): seq<Int16>
  {
    if mono == [] then [] else [mono[0], mono[0]] + Stereo(mono[1..])
  }

  /** `n` zero samples. */
  function Silence(n: nat): seq<Int16>
  {
    seq(n, _ => 0)
  }

  /** The samples of one channel of an interleaved block: `parity` 0 takes
      the even slots, 1 the odd slots. */
  function Channel(block: seq<Int16>, parity: nat): seq<Int16>
    requires parity < 2 && |block| % 2 == 0
  {
    seq(|block| / 2, k requires 0 <= k < |block| / 2 => block[2 * k + parity])
  }

  /** Slots `2k` and `2k+1` of the stereo block both hold the `k`-th mono sample. */
  lemma {:induction false} StereoAt(mono: seq<Int16>, k: nat)
    requires k < |mono|
    ensures |Stereo(mono)| == 2 * |mono|
    ensures Stereo(mono)[2 * k] == mono[k] && Stereo(mono)[2 * k + 1] == mono[k]
  {
    if k == 0 {
      StereoLength(mono[1..]);
    } else {
      StereoAt(mono[1..], k - 1);
    }
  }

  lemma {:induction false} StereoLength(mono: seq<Int16>)
    ensures |Stereo(mono)| == 2 * |mono|
  {
    if mono != [] {
      StereoLength(mono[1..]);
    }
  }

  /** Either channel of a stereo block gives the mono samples back. */
  lemma ChannelsOfStereo(mono: seq<Int16>)
    ensures |Stereo(mono)| % 2 == 0
    ensures Channel(Stereo(mono), 0) == mono && Channel(Stereo(mono), 1) == mono
  {
    StereoLength(mono);
    forall k | 0 <= k < |mono|
      ensures Channel(Stereo(mono), 0)[k] == mono[k] && Channel(Stereo(mono), 1)[k] == mono[k]
    {
      StereoAt(mono, k);
    }
  }

  /** A block from a source that only ever returns 0 is the silence block. */
  lemma StereoOfSilence(n: nat)
    ensures Stereo(Silence(n)) == Silence(2 * n)
  {
    StereoLength(Silence(n));
    forall j | 0 <= j < 2 * n
      ensures Stereo(Silence(n))[j] == 0
    {
      StereoAt(Silence(n), j / 2);
    }
  }

  /** One call of `i2s_write`: the port, the block and its size in bytes. */
  datatype OutputBlock = OutputBlock(port: nat, samples: seq<Int16>, byteCount: nat)

  /** The engine's state (the namespace's `currentSource` and `_i2s_port`)
      and what it has handed to the I2S output. */
  class Engine {
    var currentSource: AudioSource?
    var port: nat
    var written: seq<OutputBlock>

    constructor ()
      ensures currentSource == null && port == 0 && written == []
    {
      currentSource := null;
      port := 0;
      written := [];
    }

    /** `setSource`: bind a source, or `null` for silence. */
    method SetSource(source: AudioSource?)
      modifies this`currentSource
      ensures currentSource == source
    {
      currentSource := source;
    }

    /** `begin`: records the I2S port; the driver set-up and task start are
        platform calls outside the model. It always reports success. */
    method Begin(i2sPort: nat := 0) returns (success: bool)
      modifies this`port
      ensures success && port == i2sPort
    {
      port := i2sPort;
      success := true;
    }

    /** The `for` loop of `audio_task`: fills the 512-slot buffer, for each
        frame pulling one sample from the bound source into both slots, or
        writing zeros when no source is bound. */
    method FillBlock(buffer: array<Int16>)
      requires buffer.Length == BlockSlots
      modifies buffer, currentSource
      ensures currentSource == old(currentSource)
      ensures currentSource == null ==> buffer[..] == Silence(BlockSlots)
      ensures currentSource != null ==>
        buffer[..] == Stereo(Pulled(currentSource.stream, old(currentSource.position), BufferSamples))
        && currentSource.position == old(currentSource.position) + BufferSamples
    {
      var i := 0;
      while i < BlockSlots
        invariant 0 <= i <= BlockSlots && i % 2 == 0
        invariant currentSource == old(currentSource)
        invariant currentSource == null ==> forall j :: 0 <= j < i ==> buffer[j] == 0
        invariant currentSource != null ==>
          currentSource.position == old(currentSource.position) + i / 2
          && forall j :: 0 <= j < i ==> buffer[j] == currentSource.stream(old(currentSource.position) + j / 2)
      {
        if currentSource != null {
          var sample := currentSource.GetNextSample();
          buffer[i] := sample;
          buffer[i + 1] := sample;
        } else {
          buffer[i] := 0;
          buffer[i + 1] := 0;
        }
        i := i + 2;
      }
      if currentSource != null {
        var mono := Pulled(currentSource.stream, old(currentSource.position), BufferSamples);
        StereoLength(mono);
        forall j | 0 <= j < BlockSlots
          ensures buffer[j] == Stereo(mono)[j]
        {
          StereoAt(mono, j / 2);
        }
      }
    }

    /** One iteration of `audio_task`'s endless loop: fill the buffer, then
        hand all of it (`sizeof(i2s_buffer)` bytes) to `i2s_write`. */
    method RunBlock(buffer: array<Int16>)
      requires buffer.Length == BlockSlots
      modifies this`written, buffer, currentSource
      ensures currentSource == old(currentSource) && port == old(port)
      ensures currentSource == null ==> buffer[..] == Silence(BlockSlots)
      ensures currentSource != null ==>
        buffer[..] == Stereo(Pulled(currentSource.stream, old(currentSource.position), BufferSamples))
        && currentSource.position == old(currentSource.position) + BufferSamples
      ensures written == old(written) + [OutputBlock(port, buffer[..], BlockBytes)]
    {
      FillBlock(buffer);
      written := written + [OutputBlock(port, buffer[..], BlockBytes)];
    }
  }

  /** Binding a source and running a block plays that source from where it
      stood; binding `null` afterwards plays silence, and the source is not
      asked for samples. */
  method PlayThenMute(engine: Engine, source: AudioSource, buffer: array<Int16>)
    requires buffer.Length == BlockSlots
    modifies engine, source, buffer
    ensures |engine.written| == |old(engine.written)| + 2
    ensures engine.written[|engine.written| - 2].samples == Stereo(Pulled(source.stream, old(source.position), BufferSamples))
    ensures engine.written[|engine.written| - 1].samples == Silence(BlockSlots)
    ensures source.position == old(source.position) + BufferSamples
  {
    engine.SetSource(source);
    engine.RunBlock(buffer);
    engine.SetSource(null);
    engine.RunBlock(buffer);
  }
}
