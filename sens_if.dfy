/** The environment sensor HID interface (Sensor/sens_if.c): a periodic IN
    report of temperature, illuminance and supply voltage, and one feature
    report of per-sensor report intervals and limits that the host reads
    and overwrites byte for byte. */
module SensorIf {
  import opened CTypes
  import opened Analog
  import Pacing

  /** TEMP_SCALER: the report carries hundredths of a degree. */
  const TempScaler: int := 100

  /** sizeof(sens_feature): three packed blocks of 4 + 2 + 2 bytes. */
  const FeatureSize: nat := 24

  /** A sensor's feature block with unsigned limits (illuminance, voltage). */
  datatype Limits = Limits(interval: U32, max: U16, min: U16)

  /** The temperature block; its limits are int16_t. */
  datatype TempLimits = TempLimits(interval: U32, max: I16, min: I16)

  /** sens_feature */
  datatype SensorFeature = SensorFeature(temp: TempLimits, illum: Limits, volt: Limits)

  /** sens_feature's static initial value. */
  const DefaultFeature := SensorFeature(
    TempLimits(Pacing.ReportInterval, 150 * TempScaler, -50 * TempScaler),
    Limits(Pacing.ReportInterval, 10000, 0),
    Limits(Pacing.ReportInterval, 10 * 1000, 0))

  /** Sensor_InReportType */
  datatype InputReport = InputReport(temp: I16, illum: U16, volt: U16)

  /** A report handed to USBD_HID_ReportIn. */
  datatype Sent = InputSent(input: InputReport) | FeatureSent(feature: SensorFeature)

  /** USBD_HID_ReportType as far as the interface tells it apart. */
  datatype ReportKind = InputKind | FeatureKind

  function Pow256(n: nat): (p: nat)
    ensures p > 0
  {
    if n == 0 then 1 else 256 * Pow256(n - 1)
  }

  lemma Pow256Widths()
    ensures Pow256(2) == 0x1_0000 && Pow256(4) == 0x1_0000_0000
  {
    assert Pow256(1) == 256;
    assert Pow256(3) == 0x100_0000;
  }

  /** The `n` bytes of `x` in memory, least significant first (the
      little-endian layout of the Cortex-M0 the firmware runs on). */
  function LeBytes(x: nat, n: nat): (b: seq<U8>)
    requires x < Pow256(n)
    ensures |b| == n
    decreases n
  {
    if n == 0 then [] else [x % 256] + LeBytes(x / 256, n - 1)
  }

  /** The unsigned value little-endian bytes hold. */
  function LeValue(b: seq<U8>): (x: nat)
    ensures x < Pow256(|b|)
  {
    if |b| == 0 then 0 else b[0] + 256 * LeValue(b[1..])
  }

  /** Reading back the bytes of a value gives the value. */
  lemma {:induction false} LeValueOfBytes(x: nat, n: nat)
    requires x < Pow256(n)
    ensures LeValue(LeBytes(x, n)) == x
    decreases n
  {
    if n > 0 {
      var rest := LeBytes(x / 256, n - 1);
      assert LeBytes(x, n)[1..] == rest;
      LeValueOfBytes(x / 256, n - 1);
    }
  }

  /** A byte plus 256 times a value splits back into the byte and the value. */
  lemma ByteSplit(lo: U8, v: nat)
    ensures (lo + 256 * v) % 256 == lo
    ensures (lo + 256 * v) / 256 == v
  {
    var y := lo + 256 * v;
    assert 256 * (y / 256 - v) == lo - y % 256;
  }

  /** Writing out the value of some bytes gives back the bytes. */
  lemma {:induction false} LeBytesOfValue(b: seq<U8>)
    ensures LeBytes(LeValue(b), |b|) == b
  {
    if |b| > 0 {
      var v := LeValue(b[1..]);
      var x := LeValue(b);
      assert x == b[0] + 256 * v;
      ByteSplit(b[0], v);
      LeBytesOfValue(b[1..]);
      assert LeBytes(x, |b|) == [b[0]] + LeBytes(v, |b| - 1);
      assert b == [b[0]] + b[1..];
    }
  }

  /** The 8 bytes of an unsigned block. */
  function EncodeLimits(k: Limits): (b: seq<U8>)
    ensures |b| == 8
  {
    Pow256Widths();
    LeBytes(k.interval, 4) + LeBytes(k.max, 2) + LeBytes(k.min, 2)
  }

  function DecodeLimits(b: seq<U8>): (k: Limits)
    requires |b| == 8
  {
    Pow256Widths();
    Limits(LeValue(b[..4]), LeValue(b[4..6]), LeValue(b[6..]))
  }

  lemma LimitsRoundTrip(k: Limits)
    ensures DecodeLimits(EncodeLimits(k)) == k
  {
    Pow256Widths();
    var b := EncodeLimits(k);
    assert b[..4] == LeBytes(k.interval, 4);
    assert b[4..6] == LeBytes(k.max, 2);
    assert b[6..] == LeBytes(k.min, 2);
    LeValueOfBytes(k.interval, 4);
    LeValueOfBytes(k.max, 2);
    LeValueOfBytes(k.min, 2);
  }

  lemma LimitsBytesRoundTrip(b: seq<U8>)
    requires |b| == 8
    ensures EncodeLimits(DecodeLimits(b)) == b
  {
    LeBytesOfValue(b[..4]);
    LeBytesOfValue(b[4..6]);
    LeBytesOfValue(b[6..]);
    assert b == b[..4] + b[4..6] + b[6..];
  }

  /** The temperature block as its bytes lie in memory (int16_t in two's complement). */
  function TempBits(t: TempLimits): (k: Limits)
  {
    Limits(t.interval, ToU16(t.max), ToU16(t.min))
  }

  function TempOfBits(k: Limits): (t: TempLimits)
  {
    TempLimits(k.interval, ToI16(k.max), ToI16(k.min))
  }

  lemma TempBitsRoundTrip(t: TempLimits, k: Limits)
    ensures TempOfBits(TempBits(t)) == t
    ensures TempBits(TempOfBits(k)) == k
  {
    SignedBitsRoundTrip(t.max);
    SignedBitsRoundTrip(t.min);
    UnsignedBitsRoundTrip(k.max);
    UnsignedBitsRoundTrip(k.min);
  }

  /** The memory image of sens_feature. */
  function Encode(f: SensorFeature): (b: seq<U8>)
    ensures |b| == FeatureSize
  {
    EncodeLimits(TempBits(f.temp)) + EncodeLimits(f.illum) + EncodeLimits(f.volt)
  }

  /** The sens_feature a memory image holds. */
  function Decode(b: seq<U8>): (f: SensorFeature)
    requires |b| == FeatureSize
  {
    SensorFeature(TempOfBits(DecodeLimits(b[..8])), DecodeLimits(b[8..16]), DecodeLimits(b[16..]))
  }

  /** Every feature value survives its memory image. */
  lemma DecodeEncode(f: SensorFeature)
    ensures Decode(Encode(f)) == f
  {
    var b := Encode(f);
    assert b[..8] == EncodeLimits(TempBits(f.temp));
    assert b[8..16] == EncodeLimits(f.illum);
    assert b[16..] == EncodeLimits(f.volt);
    LimitsRoundTrip(TempBits(f.temp));
    LimitsRoundTrip(f.illum);
    LimitsRoundTrip(f.volt);
    TempBitsRoundTrip(f.temp, TempBits(f.temp));
  }

  /** Every 24-byte image is the image of exactly one feature value. */
  lemma EncodeDecode(b: seq<U8>)
    requires |b| == FeatureSize
    ensures Encode(Decode(b)) == b
  {
    var f := Decode(b);
    assert EncodeLimits(TempBits(f.temp)) == b[..8] by {
      TempBitsRoundTrip(f.temp, DecodeLimits(b[..8]));
      LimitsBytesRoundTrip(b[..8]);
    }
    assert EncodeLimits(f.illum) == b[8..16] by {
      LimitsBytesRoundTrip(b[8..16]);
    }
    assert EncodeLimits(f.volt) == b[16..] by {
      LimitsBytesRoundTrip(b[16..]);
    }
    EncodeFromBlocks(f, b);
  }

  /** A record whose three blocks encode to the three 8-byte thirds of an
      image encodes to that image. */
  lemma EncodeFromBlocks(f: SensorFeature, b: seq<U8>)
    requires |b| == FeatureSize
    requires EncodeLimits(TempBits(f.temp)) == b[..8]
    requires EncodeLimits(f.illum) == b[8..16]
    requires EncodeLimits(f.volt) == b[16..]
    ensures Encode(f) == b
  {
    JoinThirds(EncodeLimits(TempBits(f.temp)), EncodeLimits(f.illum), EncodeLimits(f.volt), b);
  }

  /** An image is the concatenation of its three 8-byte thirds. */
  lemma JoinThirds(x: seq<U8>, y: seq<U8>, z: seq<U8>, b: seq<U8>)
    requires |b| == FeatureSize && x == b[..8] && y == b[8..16] && z == b[16..]
    ensures x + y + z == b
  {
    assert b == b[..8] + b[8..16] + b[16..];
  }

  /** Sensor_SetReport's memcpy: the first |data| bytes of the feature's
      memory image are replaced by the data, the rest of the image stays. */
  function Overwrite(f: SensorFeature, data: seq<U8>): (r: SensorFeature)
    requires |data| <= FeatureSize
    ensures Encode(r) == data + Encode(f)[|data|..]
  {
    var image := data + Encode(f)[|data|..];
    EncodeDecode(image);
    Decode(image)
  }

  /** A short write leaves the blocks lying wholly past it as they were, and
      an empty one the whole record. */
  lemma OverwriteKeepsUntouchedBlocks(f: SensorFeature, data: seq<U8>)
    requires |data| <= FeatureSize
    ensures |data| <= 16 ==> Overwrite(f, data).volt == f.volt
    ensures |data| <= 8 ==> Overwrite(f, data).illum == f.illum
    ensures |data| == 0 ==> Overwrite(f, data) == f
  {
    var r := Overwrite(f, data);
    var oldImage, image := Encode(f), Encode(r);
    assert f == Decode(oldImage) by { DecodeEncode(f); }
    assert r == Decode(image) by { DecodeEncode(r); }
    if |data| <= 16 {
      PrefixWriteKeeps(data, oldImage, image, 16, FeatureSize);
    }
    if |data| <= 8 {
      PrefixWriteKeeps(data, oldImage, image, 8, 16);
    }
    if |data| == 0 {
      PrefixWriteKeeps(data, oldImage, image, 0, FeatureSize);
    }
  }

  /** Bytes at or past the end of a prefix write keep their old values. */
  lemma PrefixWriteKeeps(data: seq<U8>, before: seq<U8>, after: seq<U8>, lo: nat, hi: nat)
    requires |data| <= lo <= hi <= |before|
    requires after == data + before[|data|..]
    ensures after[lo..hi] == before[lo..hi]
    ensures hi == |before| ==> after[lo..] == before[lo..]
    ensures lo == 0 ==> hi == |before| ==> after == before
  {
    assert |after| == |before|;
  }

  /** Sensor_SendInput's fields from the shared measurements. */
  function InputOf(m: Measurements): (r: InputReport)
    ensures (r.temp - ToI16(m.tempC) * TempScaler) % 0x1_0000 == 0
    ensures -327 <= m.tempC <= 327 ==> r.temp == m.tempC * TempScaler
    ensures (r.illum - m.lightLx) % 0x1_0000 == 0 && (r.volt - m.vddMv) % 0x1_0000 == 0
    ensures 0 <= m.lightLx < 0x1_0000 ==> r.illum == m.lightLx
    ensures 0 <= m.vddMv < 0x1_0000 ==> r.volt == m.vddMv
  {
    InputReport(ToI16(ToI16(m.tempC) * TempScaler), ToU16(m.lightLx), ToU16(m.vddMv))
  }

  /** The interface's feature record, its static pacing counter and the
      log of reports handed to USBD_HID_ReportIn. */
  class SensorInterface {
    const analog: AnalogUnit
    var feature: SensorFeature
    var msCounter: U8
    var sent: seq<Sent>

    /** Sensor_Periodic's counter stays below the report interval. */
    ghost predicate Valid()
      reads this
    {
      msCounter < Pacing.ReportInterval
    }

    constructor (analog: AnalogUnit)
      ensures Valid() && this.analog == analog
      ensures feature == DefaultFeature && msCounter == 0 && sent == []
    {
      this.analog := analog;
      feature := DefaultFeature;
      msCounter := 0;
      sent := [];
    }

    /** Sensor_SendInput */
    method SendInput()
      modifies this`sent
      ensures sent == old(sent) + [InputSent(InputOf(analog.measurements))]
    {
      var m := analog.GetValues();
      var temp := ToI16(ToI16(m.tempC) * TempScaler);
      var illum := ToU16(m.lightLx);
      var volt := ToU16(m.vddMv);
      sent := sent + [InputSent(InputReport(temp, illum, volt))];
    }

    /** Sensor_GetReport; the report ID is not looked at. */
    method GetReport(kind: ReportKind, reportId: U8)
      modifies this`sent
      ensures kind == InputKind ==> sent == old(sent) + [InputSent(InputOf(analog.measurements))]
      ensures kind == FeatureKind ==> sent == old(sent) + [FeatureSent(feature)]
    {
      if kind == InputKind {
        SendInput();
      } else {
        sent := sent + [FeatureSent(feature)];
      }
    }

    /** Sensor_SetReport with the `length` received bytes as `data`. */
    method SetReport(data: seq<U8>)
      requires |data| <= FeatureSize
      modifies this`feature
      ensures Encode(feature) == data + Encode(old(feature))[|data|..]
      ensures |data| <= 16 ==> feature.volt == old(feature.volt)
      ensures |data| <= 8 ==> feature.illum == old(feature.illum)
      ensures |data| == 0 ==> feature == old(feature)
    {
      OverwriteKeepsUntouchedBlocks(feature, data);
      feature := Overwrite(feature, data);
    }

    /** Sensor_Periodic, one 1 ms tick; `configured` is whether the device's
        configuration selector is non-zero. */
    method Periodic(configured: bool)
      requires Valid()
      modifies this
      ensures Valid()
      ensures !configured ==> unchanged(this)
      ensures configured ==> msCounter == Pacing.Tick(old(msCounter)).0
      ensures configured && Pacing.Tick(old(msCounter)).1 ==>
                sent == old(sent) + [InputSent(InputOf(analog.measurements))]
      ensures !(configured && Pacing.Tick(old(msCounter)).1) ==> sent == old(sent)
      ensures feature == old(feature)
    {
      if configured {
        msCounter := (msCounter + 1) % 0x100;
        if msCounter >= Pacing.ReportInterval {
          SendInput();
          msCounter := 0;
        }
      }
    }
  }

  /** A host that writes back any prefix of the feature report it read
      (Sensor_GetReport sends the record's image) leaves the record as it was. */
  lemma WriteBackIsNoOp(f: SensorFeature, k: nat)
    requires k <= FeatureSize
    ensures Overwrite(f, Encode(f)[..k]) == f
  {
    var image := Encode(f);
    var r := Overwrite(f, image[..k]);
    assert Encode(r) == image by {
      assert image[..k] + image[k..] == image;
    }
    DecodeEncode(r);
    DecodeEncode(f);
  }
}
