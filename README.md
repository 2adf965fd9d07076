# CTAG audio library: a verified model

This project models the core of the CTAG audio library for the ESP32 (`CTAG_Audio`). That core has three parts:

- **Codec driver** (`CTAG_AudioCodec`). It controls a TLV320AIC3254 codec with paged register writes over I2C. `begin` runs a fixed initialisation table, but only when the bus opens. The headphone and line-out volume setters clamp a 0..100 volume and map it onto a decreasing register range. They use Arduino's `map` with C's truncating division, then write the same value to a left/right register pair.
- **Audio source** (`CTAG_AudioSource`). Its one operation, `getNextSample()`, returns a signed 16-bit sample and advances the source.
- **Audio engine** (`CTAG_AudioEngine`). It holds the bound source. One iteration of its streaming task fills a 512-slot `int16_t` buffer, which is 256 stereo frames. Each frame pulls one sample from the source and writes it to both slots of the frame. With no source bound, the slots are zeros. The whole 1024-byte block then goes to `i2s_write`.

Modules:

- `CInt` (`c_int.dfy`): the C and Arduino integer semantics that the driver relies on.
  - `TruncDiv` is C's `/`, which truncates toward zero. Dafny's own `/` is Euclidean.
  - `Constrain` is Arduino's `constrain` and `ArduinoMap` is Arduino's `map`.
  - `ToInt8` and `ToByte` are the narrowing conversions to `int8_t` and `uint8_t`.
- `AudioCodec` (`audio_codec.dfy`): the codec as a class `Codec`.
  - The address is a `const` field, so it can never change.
  - A `trace` holds the bus events: each transmission's address and payload bytes, and each `delay` call.
  - A ghost `steps` holds the same history as `(page, reg, value)` writes and pauses. `Valid()` ties the two together through `Lower`.
  - `ConfigTable` is the initialisation table. `Recover` reads a trace back into steps.
- `AudioEngine` (`audio_engine.dfy`):
  - The source is a class `AudioSource`. `stream(n)` is the sample its `n`-th call returns, and `position` counts the calls made so far.
  - The engine is a class `Engine`. Its fields are the namespace's `currentSource` and `_i2s_port`, plus a log of the blocks written to I2S.
  - `FillBlock` fills an `array<Int16>` in place with a stepping loop. Its result is specified through `Stereo` (duplicate each mono sample) and `Silence`.

## Model

| member | source | states |
|---|---|---|
| `CInt.TruncDivRemainder` | CTAG_Audio/src/CTAG_Audio.cpp:67 | C division truncates: the remainder is smaller than the divisor in magnitude, has the dividend's sign, and the quotient's magnitude is at most the exact quotient's |
| `CInt.TruncDivUnique` | CTAG_Audio/src/CTAG_Audio.cpp:67 | any quotient with such a remainder is the truncated quotient, so the definition matches C |
| `CInt.TruncDivMonotone` | CTAG_Audio/src/CTAG_Audio.cpp:67 | for a positive divisor, truncating division is monotone in the dividend |
| `CInt.Constrain` | CTAG_Audio/src/CTAG_Audio.cpp:66 | the result lies in `[low, high]`; it equals the input inside the range and the nearer bound outside it |
| `CInt.ArduinoMapRange` | CTAG_Audio/src/CTAG_Audio.cpp:67 | `map` sends `in_min` to `out_min` and `in_max` to `out_max`; an input in range lands between the two outputs, in either orientation |
| `CInt.ArduinoMapAntitone` | CTAG_Audio/src/CTAG_Audio.cpp:74 | with a decreasing output range, `map` is non-increasing |
| `CInt.ToInt8` | CTAG_Audio/src/CTAG_Audio.cpp:67 | storing into `int8_t` gives a value in -128..127 that is congruent to the input modulo 256 (two's-complement wrap-around); it is the identity on -128..127 |
| `CInt.ToByte` | CTAG_Audio/src/CTAG_Audio.cpp:68 | the `(uint8_t)` cast gives a value in 0..255 that is congruent to the input modulo 256; it is the identity on 0..255 |
| `AudioCodec.Codec.constructor` | CTAG_Audio/src/CTAG_Audio.h:29 | without an argument the codec uses I2C address 0x18; the trace starts empty |
| `AudioCodec.Codec.Delay` | CTAG_Audio/src/CTAG_Audio.cpp:54 | `delay(10)`: appends one pause to the steps and one delay event of the same length to the trace, keeping the two in step; nothing else changes |
| `AudioCodec.Codec.WriteRegister` | CTAG_Audio/src/CTAG_Audio.cpp:27-37 | appends exactly two transmissions to the stored address, first `[0x00, page]` then `[reg, value]`; nothing else changes |
| `AudioCodec.LowerAddressedTo` | CTAG_Audio/src/CTAG_Audio.cpp:28-33 | every transmission the driver makes goes to its own address |
| `AudioCodec.LowerAppend` | CTAG_Audio/src/CTAG_Audio.cpp:27-37 | the trace of consecutive steps is the concatenation of their traces |
| `AudioCodec.LowerLength` | CTAG_Audio/src/CTAG_Audio.cpp:27-37 | each register write adds two bus events and each delay adds one |
| `AudioCodec.RecoverLower` | CTAG_Audio/src/CTAG_Audio.cpp:27-37 | the bus trace determines exactly which writes and delays were made, in order |
| `AudioCodec.WritesOfWriteSteps` | CTAG_Audio/src/CTAG_Audio.cpp:42-53 | dropping the delays from a list of write steps gives the list of writes back |
| `AudioCodec.ConfigStepsShape` | CTAG_Audio/src/CTAG_Audio.cpp:39-55 | the initialisation has 38 steps, of which 36 are writes, in source order. It starts with `(0,1,0x01)` and ends with `(0,82,0x00)`. A 10 ms delay comes right after the first write and after the last, and there is no other delay. Among the writes are `(1,16,0x00)`, `(1,17,0x00)`, `(1,18,0x06)` and `(1,19,0x06)` |
| `AudioCodec.ConfigTrace` | CTAG_Audio/src/CTAG_Audio.cpp:39-55 | configuring puts 74 events on the bus, all to the codec's address, and the table can be recovered from them |
| `AudioCodec.Codec.Perform` | CTAG_Audio/src/CTAG_Audio.cpp:39-55 | performs a list of writes and delays in order: the recorded steps grow by exactly that list and the trace by exactly its transmissions and delays |
| `AudioCodec.Codec.Configure` | CTAG_Audio/src/CTAG_Audio.cpp:39-55 | appends exactly the initialisation steps and their bus trace |
| `AudioCodec.Codec.Begin` | CTAG_Audio/src/CTAG_Audio.cpp:57-63 | returns exactly the bus-open result; configures iff it is true; leaves the trace unchanged otherwise |
| `AudioCodec.VolumeRegister` | CTAG_Audio/src/CTAG_Audio.cpp:65-67 | clamp, `map`, `int8_t` store and `uint8_t` cast; the result lies between the maximum and the mute setting |
| `AudioCodec.VolumeEndpoints` | CTAG_Audio/src/CTAG_Audio.cpp:65-67 | volume 0 gives the mute setting and 100 gives the maximum setting |
| `AudioCodec.VolumeAntitone` | CTAG_Audio/src/CTAG_Audio.cpp:65-67 | a louder volume never gives a larger register value |
| `AudioCodec.VolumeClamp` | CTAG_Audio/src/CTAG_Audio.cpp:66 | every input from 100 up behaves like 100 |
| `AudioCodec.VolumeClosedForm` | CTAG_Audio/src/CTAG_Audio.cpp:65-67 | reference definition: `atMute - ((atMute - atMax) * min(v, 100)) / 100`, with floor division on non-negative numbers |
| `AudioCodec.HeadphoneRegister` | CTAG_Audio/src/CTAG_Audio.cpp:67 | the headphone register value lies in `[0x14, 0x3B]` |
| `AudioCodec.HeadphoneEndpoints` | CTAG_Audio/src/CTAG_Audio.cpp:65-67 | volume 0 gives 0x3B and volume 100 gives 0x14 |
| `AudioCodec.HeadphoneAntitone` | CTAG_Audio/src/CTAG_Audio.cpp:67 | the headphone register value is non-increasing in the volume |
| `AudioCodec.HeadphoneClamp` | CTAG_Audio/src/CTAG_Audio.cpp:66 | every headphone volume from 100 up behaves like 100 |
| `AudioCodec.HeadphoneTruncation` | CTAG_Audio/src/CTAG_Audio.cpp:67 | C truncation: volume 1 still gives 0x3B (floor division would give 0x3A), and volume 50 gives 0x28 |
| `AudioCodec.LineOutRegister` | CTAG_Audio/src/CTAG_Audio.cpp:74 | the line-out register value lies in `[0x1D, 0x3A]` |
| `AudioCodec.LineOutEndpoints` | CTAG_Audio/src/CTAG_Audio.cpp:72-74 | volume 0 gives 0x3A and volume 100 gives 0x1D |
| `AudioCodec.LineOutAntitone` | CTAG_Audio/src/CTAG_Audio.cpp:74 | the line-out register value is non-increasing in the volume |
| `AudioCodec.LineOutClamp` | CTAG_Audio/src/CTAG_Audio.cpp:73 | every line-out volume from 100 up behaves like 100 |
| `AudioCodec.Codec.SetHeadphoneVolume` | CTAG_Audio/src/CTAG_Audio.cpp:65-70 | appends exactly the writes `(1,16,r)` and `(1,17,r)` with the same `r = HeadphoneRegister(volume)`, and their four transmissions |
| `AudioCodec.Codec.SetLineOutVolume` | CTAG_Audio/src/CTAG_Audio.cpp:72-77 | appends exactly the writes `(1,18,r)` and `(1,19,r)` with the same `r = LineOutRegister(volume)`, and their four transmissions |
| `AudioEngine.AudioSource.GetNextSample` | CTAG_Audio/src/CTAG_Audio.h:68-77 | returns the source's next signed 16-bit sample (the type bounds it to -32768..32767) and advances the source by one |
| `AudioEngine.Engine.constructor` | CTAG_Audio/src/CTAG_Audio.cpp:85 | the engine starts with no source bound |
| `AudioEngine.Engine.SetSource` | CTAG_Audio/src/CTAG_Audio.cpp:140-142 | the bound source becomes `source`; `null` means silence |
| `AudioEngine.Engine.Begin` | CTAG_Audio/src/CTAG_Audio.cpp:108-138 | records the I2S port and always returns true |
| `AudioEngine.StereoAt` | CTAG_Audio/src/CTAG_Audio.cpp:96-98 | the stereo block has twice as many slots, and slots `2k` and `2k+1` both hold the `k`-th mono sample |
| `AudioEngine.StereoLength` | CTAG_Audio/src/CTAG_Audio.cpp:94 | duplicating each sample into both slots of its frame doubles the number of slots |
| `AudioEngine.ChannelsOfStereo` | CTAG_Audio/src/CTAG_Audio.cpp:96-98 | reading either channel of a stereo block (its even or its odd slots) gives the mono samples back |
| `AudioEngine.StereoOfSilence` | CTAG_Audio/src/CTAG_Audio.cpp:99-102 | the silence block equals the block from a source that always returns 0 |
| `AudioEngine.Engine.FillBlock` | CTAG_Audio/src/CTAG_Audio.cpp:94-103 | with no source, all 512 slots are 0 and no source is touched. With a source, it is called exactly 256 times, and the buffer is the duplicated sequence of the samples pulled, in call order |
| `AudioEngine.Engine.RunBlock` | CTAG_Audio/src/CTAG_Audio.cpp:93-105 | one task iteration: it fills the block, then hands the whole buffer to the stored port as 1024 bytes |
| `AudioEngine.PlayThenMute` | CTAG_Audio/src/CTAG_Audio.h:92-97 | after `setSource(s)` the next block is pulled from `s`; after `setSource(null)` the next block is silence and `s` is not called |

## Left out

- `Codec.Configure`: the source makes 36 unrolled `_write_register` calls and two `delay(10)` calls. The model reads the same steps, in the same order, from the literal table `ConfigTable` and performs them in a loop (`Perform`). The bus trace is identical.
- `Codec.Begin`: takes the value `Wire.begin(sdaPin, sclPin)` returned as its parameter `busOpened`. The SDA and SCL pin numbers are dropped, because they only reach that foreign call.
- I2C bus behaviour is not modelled: return values of `Wire.endTransmission`, bus errors, acknowledgements. The source ignores them.
- `delay` appears in the trace only as a marker; real time is not modelled.
- The meaning of the register values (gains in dB, clock settings) is vendor-specific and not in the code. The model keeps only the raw byte values.
- `ArduinoMap`: computes in unbounded integers rather than 32-bit `long`. For volume inputs the intermediate product is at most 39 × 100 in magnitude, so `long` cannot overflow.
- `AudioSource`: the abstract base class becomes one class. Its samples are given as a function of the call number, because subclassing is not used in this model. A concrete source whose output depends on outside changes between calls is therefore not modelled.
- `CTAG_VCO_Sine` is not part of this model: its phase accumulator, `sin`, and amplitude clamp are floating-point.
- Engine `begin`: the I2S driver set-up is left out. This covers `i2s_driver_install`, `i2s_set_pin`, `i2s_set_clk`, the configuration tables and the 44100 Hz sample rate. Starting the task with `xTaskCreatePinnedToCore` is left out too. These are platform calls with no logic of their own; only the stored port and the `true` result are modelled.
- `audio_task`: its endless `while(true)` loop is modelled as one iteration (`Engine.RunBlock`).
- The blocking `i2s_write` is recorded as an `OutputBlock` entry. The `bytes_written` value it returns is never read by the source and is left out.
- Concurrency is left out: `currentSource` is shared between the control context and the audio task, and `setSource` is treated as a plain sequential assignment. As a result, `FillBlock`'s per-frame null check always sees the same binding within one block.
- The namespace-global engine state becomes fields of an `Engine` object.
- The MIDI library is not part of this model: only its header (`CTAG_MIDI/src/CTAG_MIDI.h`) exists, and the parser and transmitter bodies are not available.
