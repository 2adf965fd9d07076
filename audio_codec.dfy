/** The TLV320AIC3254 codec driver (`CTAG_AudioCodec`): paged register writes
    over the two-wire (I2C) bus, the fixed initialisation sequence, and the
    headphone and line-out volume setters. The bus is observed as a trace of
    transmissions (address plus payload bytes) and settling delays. */
module AudioCodec {
  import opened CInt

  /** The codec's I2C address when the constructor is given none. */
  const DefaultAddress: Byte := 0x18

  /** Register 0 of every page selects the page that later register numbers refer to. */
  const PageSelectRegister: Byte := 0x00

  /** Settling delay, in milliseconds, after the reset write and after the last write. */
  const SettleMs: nat := 10

  datatype Option<T> = None | Some(value: T)

  /** One paged register write `(page, reg, value)`. */
  datatype RegisterWrite = RegisterWrite(page: Byte, reg: Byte, value: Byte)

  /** One step of the driver: a paged register write or a delay. */
  datatype Step = Write(w: RegisterWrite) | Pause(ms: nat)

  /** What can be observed outside the driver: one I2C transmission
      (`beginTransmission(address)`, the bytes written, `endTransmission()`),
      or a call of `delay(ms)`. */
  datatype BusEvent = Transmission(address: Byte, data: seq<Byte>) | Delay(ms: nat)

  /** A paged register write is two transmissions to the codec: first the page
      select, then the register number and its value. */
  function WriteTransmissions(address: Byte, w: RegisterWrite): seq<BusEvent>
  {
    [Transmission(address, [PageSelectRegister, w.page]), Transmission(address, [w.reg, w.value])]
  }

  function StepEvents(address: Byte, st: Step): seq<BusEvent>
  {
    match st
    case Write(w) => WriteTransmissions(address, w)
    case Pause(ms) => [Delay(ms)]
  }

  /** The bus trace that a sequence of driver steps produces. */
  function Lower(address: Byte, steps: seq<Step>): seq<BusEvent>
  {
    if steps == [] then [] else StepEvents(address, steps[0]) + Lower(address, steps[1..])
  }

  lemma {:induction false} LowerAppend(address: Byte, a: seq<Step>, b: seq<Step>)
    ensures Lower(address, a + b) == Lower(address, a) + Lower(address, b)
  {
    if a == [] {
      assert a + b == b;
    } else {
      assert (a + b)[1..] == a[1..] + b;
      LowerAppend(address, a[1..], b);
    }
  }

  /** Every transmission in the trace is addressed to `address`. */
  ghost predicate AllAddressedTo(address: Byte, trace: seq<BusEvent>)
  {
    forall i :: 0 <= i < |trace| && trace[i].Transmission? ==> trace[i].address == address
  }

  /** The driver never talks to any device but the one at its own address. */
  lemma {:induction false} LowerAddressedTo(address: Byte, steps: seq<Step>)
    ensures AllAddressedTo(address, Lower(address, steps))
  {
    if steps != [] {
      LowerAddressedTo(address, steps[1..]);
    }
  }

  /** Reads a bus trace back as driver steps, if every transmission goes to
      `address` and the transmissions pair up as page select followed by a
      two-byte register write. */
  function Recover(address: Byte, trace: seq<BusEvent>): Option<seq<Step>>
    decreases |trace|
  {
    if trace == [] then Some([])
    else match trace[0]
      case Delay(ms) =>
        (match Recover(address, trace[1..])
         case Some(rest) => Some([Pause(ms)] + rest)
         case None => None)
      case Transmission(a, d) =>
        if a == address && |d| == 2 && d[0] == PageSelectRegister && |trace| >= 2
           && trace[1].Transmission? && trace[1].address == address && |trace[1].data| == 2
        then
          (match Recover(address, trace[2..])
           case Some(rest) => Some([Write(RegisterWrite(d[1], trace[1].data[0], trace[1].data[1]))] + rest)
           case None => None)
        else None
  }

  /** The bus trace determines exactly which steps were performed, in which order. */
  lemma {:induction false} RecoverLower(address: Byte, steps: seq<Step>)
    ensures Recover(address, Lower(address, steps)) == Some(steps)
  {
    if steps != [] {
      var t, rest := Lower(address, steps), Lower(address, steps[1..]);
      RecoverLower(address, steps[1..]);
      match steps[0]
      case Write(w) =>
        assert t == WriteTransmissions(address, w) + rest;
        assert t[0] == Transmission(address, [PageSelectRegister, w.page]);
        assert t[1] == Transmission(address, [w.reg, w.value]);
        assert t[2..] == rest;
        assert [Write(w)] + steps[1..] == steps;
      case Pause(ms) =>
        assert t == [Delay(ms)] + rest;
        assert t[1..] == rest;
        assert [Pause(ms)] + steps[1..] == steps;
    }
  }

  /** The register writes among the steps, in order. */
  function Writes(steps: seq<Step>): seq<RegisterWrite>
  {
    if steps == [] then []
    else (if steps[0].Write? then [steps[0].w] else []) + Writes(steps[1..])
  }

  /** The register writes of `_configure_tlv320aic3254`, in source order. */
  const ConfigTable: seq<RegisterWrite> := [
    RegisterWrite(0, 1, 0x01),
    RegisterWrite(1, 1, 0x08), RegisterWrite(1, 2, 0x01), RegisterWrite(1, 10, 0x08),
    RegisterWrite(0, 27, 0x10), RegisterWrite(0, 28, 0x00), RegisterWrite(0, 4, 0x00),
    RegisterWrite(0, 5, 0x00), RegisterWrite(0, 13, 0x00), RegisterWrite(0, 14, 0x80),
    RegisterWrite(0, 20, 0x80), RegisterWrite(0, 11, 0x81), RegisterWrite(0, 12, 0x82),
    RegisterWrite(0, 18, 0x81), RegisterWrite(0, 19, 0x82), RegisterWrite(1, 14, 0x08),
    RegisterWrite(1, 15, 0x08), RegisterWrite(1, 12, 0x08), RegisterWrite(1, 13, 0x08),
    RegisterWrite(0, 64, 0x00), RegisterWrite(0, 65, 0x00), RegisterWrite(0, 66, 0x00),
    RegisterWrite(0, 63, 0xD4), RegisterWrite(1, 9, 0x3C), RegisterWrite(1, 16, 0x00),
    RegisterWrite(1, 17, 0x00), RegisterWrite(1, 18, 0x06), RegisterWrite(1, 19, 0x06),
    RegisterWrite(1, 52, 0x40), RegisterWrite(1, 55, 0x40), RegisterWrite(1, 54, 0x40),
    RegisterWrite(1, 57, 0x40), RegisterWrite(1, 59, 0x00), RegisterWrite(1, 60, 0x00),
    RegisterWrite(0, 81, 0xC0), RegisterWrite(0, 82, 0x00)
  ]

  /** Each register write as a step of its own. */
  function WriteSteps(ws: seq<RegisterWrite>): seq<Step>
  {
    seq(|ws|, i requires 0 <= i < |ws| => Write(ws[i]))
  }

  lemma WriteStepsAt(ws: seq<RegisterWrite>)
    ensures |WriteSteps(ws)| == |ws|
    ensures forall i :: 0 <= i < |ws| ==> WriteSteps(ws)[i] == Write(ws[i])
  {
  }

  /** The whole initialisation sequence: the reset write, a settling delay,
      the other writes, and a final settling delay. */
  const ConfigSteps: seq<Step> :=
    [Write(ConfigTable[0]), Pause(SettleMs)] + WriteSteps(ConfigTable[1..]) + [Pause(SettleMs)]

  lemma {:induction false} WritesAppend(a: seq<Step>, b: seq<Step>)
    ensures Writes(a + b) == Writes(a) + Writes(b)
  {
    if a == [] {
      assert a + b == b;
    } else {
      var ab := a + b;
      assert ab[0] == a[0];
      assert ab[1..] == a[1..] + b;
      WritesAppend(a[1..], b);
    }
  }

  /** Dropping the delays from the steps of a list of writes gives the list back. */
  lemma {:induction false} WritesOfWriteSteps(ws: seq<RegisterWrite>)
    ensures Writes(WriteSteps(ws)) == ws
  {
    WriteStepsAt(ws);
    if ws != [] {
      WriteStepsAt(ws[1..]);
      assert WriteSteps(ws)[1..] == WriteSteps(ws[1..]);
      WritesOfWriteSteps(ws[1..]);
    }
  }

  /** The shape of the initialisation sequence: exactly the 36 writes of the
      table, starting with the software reset `(0, 1, 0x01)` and ending with
      `(0, 82, 0x00)`, with a settling delay right after the first write and
      after the last and no other delay; among the writes, the headphone and
      line-out gain registers are set to `0x00` and `0x06`. */
  lemma ConfigStepsShape()
    ensures |ConfigSteps| == 38 && Writes(ConfigSteps) == ConfigTable && |ConfigTable| == 36
    ensures ConfigSteps[0] == Write(RegisterWrite(0, 1, 0x01)) && ConfigSteps[1] == Pause(SettleMs)
    ensures ConfigSteps[36] == Write(RegisterWrite(0, 82, 0x00)) && ConfigSteps[37] == Pause(SettleMs)
    ensures forall i :: 0 <= i < |ConfigSteps| ==> (ConfigSteps[i].Pause? <==> i == 1 || i == 37)
    ensures ConfigTable[24] == RegisterWrite(1, 16, 0x00) && ConfigTable[25] == RegisterWrite(1, 17, 0x00)
    ensures ConfigTable[26] == RegisterWrite(1, 18, 0x06) && ConfigTable[27] == RegisterWrite(1, 19, 0x06)
  {
    var first, rest := [Write(ConfigTable[0]), Pause(SettleMs)], WriteSteps(ConfigTable[1..]);
    WritesAppend(first + rest, [Pause(SettleMs)]);
    WritesAppend(first, rest);
    WriteStepsAt(ConfigTable[1..]);
    WritesOfWriteSteps(ConfigTable[1..]);
    assert Writes(first) == [ConfigTable[0]] by {
      assert first[1..][1..] == [];
    }
    assert Writes([Pause(SettleMs)]) == [] by {
      assert [Pause(SettleMs)][1..] == [];
    }
    assert [ConfigTable[0]] + ConfigTable[1..] == ConfigTable;
  }

  /** A register write puts two transmissions on the bus, a delay one event. */
  lemma {:induction false} LowerLength(address: Byte, steps: seq<Step>)
    ensures |Lower(address, steps)| == |steps| + |Writes(steps)|
  {
    if steps != [] {
      LowerLength(address, steps[1..]);
    }
  }

  /** Configuring puts 74 events on the bus (72 transmissions and two delays),
      all addressed to the codec, from which the table can be read back. */
  lemma ConfigTrace(address: Byte)
    ensures |Lower(address, ConfigSteps)| == 74
    ensures AllAddressedTo(address, Lower(address, ConfigSteps))
    ensures Recover(address, Lower(address, ConfigSteps)) == Some(ConfigSteps)
  {
    ConfigStepsShape();
    LowerLength(address, ConfigSteps);
    LowerAddressedTo(address, ConfigSteps);
    RecoverLower(address, ConfigSteps);
  }

  /** The volume setters' shared computation: clamp to 0..100, Arduino `map`
      onto the (decreasing) register range `atMute` down to `atMax`, store in
      an `int8_t`, and cast to `uint8_t` for the write. */
  function VolumeRegister(volume: Byte, atMute: int, atMax: int): (r: Byte)
    requires 0 <= atMax <= atMute < 0x80
    ensures atMax <= r <= atMute
  {
    var v := Constrain(volume, 0, 100);
    ArduinoMapRange(v, 0, 100, atMute, atMax);
    var regVal: Int8 := ToInt8(ArduinoMap(v, 0, 100, atMute, atMax));
    ToByte(regVal)
  }

  /** Volume 0 gives the mute setting, 100 the maximum setting. */
  lemma VolumeEndpoints(atMute: int, atMax: int)
    requires 0 <= atMax <= atMute < 0x80
    ensures VolumeRegister(0, atMute, atMax) == atMute
    ensures VolumeRegister(100, atMute, atMax) == atMax
  {
    ArduinoMapRange(0, 0, 100, atMute, atMax);
  }

  /** A louder setting never gives a larger register value. */
  lemma VolumeAntitone(v: Byte, w: Byte, atMute: int, atMax: int)
    requires 0 <= atMax <= atMute < 0x80 && v <= w
    ensures VolumeRegister(w, atMute, atMax) <= VolumeRegister(v, atMute, atMax)
  {
    ArduinoMapAntitone(Constrain(v, 0, 100), Constrain(w, 0, 100), 0, 100, atMute, atMax);
    ArduinoMapRange(Constrain(v, 0, 100), 0, 100, atMute, atMax);
    ArduinoMapRange(Constrain(w, 0, 100), 0, 100, atMute, atMax);
  }

  /** Every input above 100 behaves like 100. */
  lemma VolumeClamp(v: Byte, atMute: int, atMax: int)
    requires 0 <= atMax <= atMute < 0x80 && v >= 100
    ensures VolumeRegister(v, atMute, atMax) == VolumeRegister(100, atMute, atMax)
  {
  }

  /** Reference definition: the register value is the mute setting minus the
      step count `(atMute - atMax) * v / 100`, rounded down, with `v` clamped. */
  lemma {:induction false} VolumeClosedForm(volume: Byte, atMute: int, atMax: int)
    requires 0 <= atMax <= atMute < 0x80
    ensures VolumeRegister(volume, atMute, atMax)
         == atMute - ((atMute - atMax) * (if volume < 100 then volume else 100)) / 100
  {
    var v := Constrain(volume, 0, 100);
    var n := (atMute - atMax) * v;
    var q := n / 100;
    assert 0 <= n - q * 100 < 100;
    TruncDivUnique(v * (atMax - atMute), 100, -q);
    ArduinoMapRange(v, 0, 100, atMute, atMax);
  }

  /** `setHeadphoneVolume`'s register value. */
  function HeadphoneRegister(volume: Byte): (r: Byte)
    ensures 0x14 <= r <= 0x3B
  {
    VolumeRegister(volume, 0x3B, 0x14)
  }

  /** `setLineOutVolume`'s register value. */
  function LineOutRegister(volume: Byte): (r: Byte)
    ensures 0x1D <= r <= 0x3A
  {
    VolumeRegister(volume, 0x3A, 0x1D)
  }

  /** The headphone mapping: volume 0 gives 0x3B and 100 gives 0x14. */
  lemma HeadphoneEndpoints()
    ensures HeadphoneRegister(0) == 0x3B && HeadphoneRegister(100) == 0x14
  {
    VolumeEndpoints(0x3B, 0x14);
  }

  /** The headphone mapping is non-increasing in the volume. */
  lemma HeadphoneAntitone(v: Byte, w: Byte)
    requires v <= w
    ensures HeadphoneRegister(w) <= HeadphoneRegister(v)
  {
    VolumeAntitone(v, w, 0x3B, 0x14);
  }

  /** Every headphone volume from 100 on behaves like 100. */
  lemma HeadphoneClamp(v: Byte)
    requires v >= 100
    ensures HeadphoneRegister(v) == HeadphoneRegister(100)
  {
    VolumeClamp(v, 0x3B, 0x14);
  }

  /** C's truncating division keeps volume 1 at the mute setting 0x3B (a floor
      division would give 0x3A), and volume 50 gives 0x28. */
  lemma HeadphoneTruncation()
    ensures HeadphoneRegister(1) == 0x3B && HeadphoneRegister(50) == 0x28
  {
    VolumeClosedForm(1, 0x3B, 0x14);
    VolumeClosedForm(50, 0x3B, 0x14);
  }

  /** The line-out mapping: volume 0 gives 0x3A and 100 gives 0x1D. */
  lemma LineOutEndpoints()
    ensures LineOutRegister(0) == 0x3A && LineOutRegister(100) == 0x1D
  {
    VolumeEndpoints(0x3A, 0x1D);
  }

  /** The line-out mapping is non-increasing in the volume. */
  lemma LineOutAntitone(v: Byte, w: Byte)
    requires v <= w
    ensures LineOutRegister(w) <= LineOutRegister(v)
  {
    VolumeAntitone(v, w, 0x3A, 0x1D);
  }

  /** Every line-out volume from 100 on behaves like 100. */
  lemma LineOutClamp(v: Byte)
    requires v >= 100
    ensures LineOutRegister(v) == LineOutRegister(100)
  {
    VolumeClamp(v, 0x3A, 0x1D);
  }

  /** `CTAG_AudioCodec`: a driver bound to one I2C address. `trace` is what it
      has put on the bus; `steps` is the same history read as driver steps. */
  class Codec {
    const address: Byte
    var trace: seq<BusEvent>
    ghost var steps: seq<Step>

    ghost predicate Valid()
      reads this
    {
      trace == Lower(address, steps)
    }

    constructor (i2cAddr: Byte := DefaultAddress)
      ensures Valid() && address == i2cAddr
      ensures trace == [] && steps == []
    {
      address := i2cAddr;
      trace := [];
      steps := [];
    }

    /** `delay(ms)`, recorded in the trace as a pause. */
    method Delay(ms: nat)
      requires Valid()
      modifies this
      ensures Valid()
      ensures steps == old(steps) + [Pause(ms)]
      ensures trace == old(trace) + [BusEvent.Delay(ms)]
    {
      LowerAppend(address, steps, [Pause(ms)]);
      trace := trace + [BusEvent.Delay(ms)];
      steps := steps + [Pause(ms)];
    }

    /** `_write_register`: select the page, then write the value to the register. */
    method WriteRegister(page: Byte, reg: Byte, value: Byte)
      requires Valid()
      modifies this
      ensures Valid()
      ensures steps == old(steps) + [Write(RegisterWrite(page, reg, value))]
      ensures trace == old(trace) + WriteTransmissions(address, RegisterWrite(page, reg, value))
    {
      // two transmissions: select the page, then the register and its value
      trace := trace + [Transmission(address, [PageSelectRegister, page])];
      trace := trace + [Transmission(address, [reg, value])];
      LowerAppend(address, steps, [Write(RegisterWrite(page, reg, value))]);
      steps := steps + [Write(RegisterWrite(page, reg, value))];
    }

    /** Performs a list of steps in order: each register write goes out as
        its two transmissions, each pause as a delay. */
    method Perform(table: seq<Step>)
      requires Valid()
      modifies this
      ensures Valid()
      ensures steps == old(steps) + table
      ensures trace == old(trace) + Lower(address, table)
    {
      for i := 0 to |table|
        invariant Valid()
        invariant steps == old(steps) + table[..i]
      {
        assert table[..i + 1] == table[..i] + [table[i]];
        match table[i]
        case Write(w) => WriteRegister(w.page, w.reg, w.value);
        case Pause(ms) => Delay(ms);
      }
      assert table[..|table|] == table;
      LowerAppend(address, old(steps), table);
    }

    /** `_configure_tlv320aic3254`. */
    method Configure()
      requires Valid()
      modifies this
      ensures Valid()
      ensures steps == old(steps) + ConfigSteps
      ensures trace == old(trace) + Lower(address, ConfigSteps)
    {
      Perform(ConfigSteps);
    }

    /** `begin`: `busOpened` is what `Wire.begin(sdaPin, sclPin)` returned. The
        codec is configured exactly when the bus opened, and the result is
        passed back unchanged. */
    method Begin(busOpened: bool) returns (success: bool)
      requires Valid()
      modifies this
      ensures Valid()
      ensures success == busOpened
      ensures steps == if busOpened then old(steps) + ConfigSteps else old(steps)
      ensures trace == if busOpened then old(trace) + Lower(address, ConfigSteps) else old(trace)
    {
      success := busOpened;
      if success {
        Configure();
      }
    }

    /** `setHeadphoneVolume`: the same register value to the left and right
        headphone gain registers (page 1, registers 16 and 17). */
    method SetHeadphoneVolume(volume: Byte)
      requires Valid()
      modifies this
      ensures Valid()
      ensures steps == old(steps) + [Write(RegisterWrite(1, 16, HeadphoneRegister(volume))),
                                     Write(RegisterWrite(1, 17, HeadphoneRegister(volume)))]
      ensures trace == old(trace) + WriteTransmissions(address, RegisterWrite(1, 16, HeadphoneRegister(volume)))
                                  + WriteTransmissions(address, RegisterWrite(1, 17, HeadphoneRegister(volume)))
    {
      var regVal := HeadphoneRegister(volume);
      WriteRegister(1, 16, regVal);
      WriteRegister(1, 17, regVal);
    }

    /** `setLineOutVolume`: the same register value to the left and right
        line-out gain registers (page 1, registers 18 and 19). */
    method SetLineOutVolume(volume: Byte)
      requires Valid()
      modifies this
      ensures Valid()
      ensures steps == old(steps) + [Write(RegisterWrite(1, 18, LineOutRegister(volume))),
                                     Write(RegisterWrite(1, 19, LineOutRegister(volume)))]
      ensures trace == old(trace) + WriteTransmissions(address, RegisterWrite(1, 18, LineOutRegister(volume)))
                                  + WriteTransmissions(address, RegisterWrite(1, 19, LineOutRegister(volume)))
    {
      var regVal := LineOutRegister(volume);
      WriteRegister(1, 18, regVal);
      WriteRegister(1, 19, regVal);
    }
  }
}
