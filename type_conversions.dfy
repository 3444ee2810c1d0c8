/** The conversions of node_c_type_conversions.c between the SH-2 driver's
    C structs and JavaScript objects: the SensorConfig validator and
    converter from_SensorConfig_to_c, its opposite c_to_SensorConfig, and
    the case analyses that choose the fields of a sensor event and of an
    asynchronous event. A JavaScript object is a map from property names
    to values; failures inside the engine's own value creation are not
    modelled. */
module TypeConversions {
  import opened Common
  import opened JsValues
  import ReportDecoding

  const EXIT_SUCCESS: int := 0
  const EXIT_FAILURE: int := 1

  // ---------------------------------------------------------------------
  // sh2_SensorConfig_t

  /** sh2_SensorConfig_t. `sensorSpecific` is the four bytes of its
      uint32_t field as they lie in memory. */
  datatype SensorConfigC = SensorConfigC(
    changeSensitivityEnabled: bool,
    changeSensitivityRelative: bool,
    wakeupEnabled: bool,
    alwaysOnEnabled: bool,
    sniffEnabled: bool,
    changeSensitivity: u16,
    reportIntervalUs: u32,
    batchIntervalUs: u32,
    sensorSpecific: seq<u8>)

  predicate WellFormedConfig(c: SensorConfigC) {
    |c.sensorSpecific| == 4
  }

  /** The struct after memset(result, 0, ...). */
  const ZeroConfig := SensorConfigC(false, false, false, false, false, 0, 0, 0, [0, 0, 0, 0])

  /** The properties from_SensorConfig_to_c looks at, in the order it
      looks at them. */
  const Keys: seq<string> := [
    "changeSensitivityEnabled", "changeSensitivityRelative", "wakeupEnabled",
    "alwaysOnEnabled", "sniffEnabled", "changeSensitivity", "reportInterval_us",
    "batchInterval_us", "sensorSpecific"]

  /** What reading one property gives: absent, rejected, or a value. */
  datatype Field = Absent | Bad | Flag(b: bool) | Short(h: u16) | Word(w: u32) | Bytes(bs: seq<u8>)

  /** Reading property k (an index into Keys): booleans for the first five,
      a uint32 of at most 65535 for changeSensitivity, uint32s for the two
      intervals, a Buffer of at most 4 bytes for sensorSpecific. */
  function ReadField(props: map<string, JsValue>, k: nat): (f: Field)
    requires k < |Keys|
    ensures f.Flag? ==> k < 5
    ensures f.Short? ==> k == 5
    ensures f.Word? ==> k == 6 || k == 7
    ensures f.Bytes? ==> k == 8 && |f.bs| <= 4
  {
    var key := Keys[k];
    if key !in props then Absent
    else
      var v := props[key];
      if k < 5 then
        match GetBool(v)
        case None => Bad
        case Some(b) => Flag(b)
      else if k == 5 then
        match GetUint32(v)
        case None => Bad
        case Some(x) => if x > 0xFFFF then Bad else Short(x)
      else if k < 8 then
        match GetUint32(v)
        case None => Bad
        case Some(x) => Word(x)
      else
        match GetBuffer(v)
        case None => Bad
        case Some(bs) => if |bs| > 4 then Bad else Bytes(bs)
  }

  /** The index of the first rejected property at or after `from`, or 9
      when none is rejected. */
  function FirstBad(props: map<string, JsValue>, from: nat): (r: nat)
    requires from <= |Keys|
    ensures from <= r <= |Keys|
    ensures forall j :: from <= j < r ==> !ReadField(props, j).Bad?
    ensures r < |Keys| ==> ReadField(props, r).Bad?
    decreases |Keys| - from
  {
    if from == |Keys| then from
    else if ReadField(props, from).Bad? then from
    else FirstBad(props, from + 1)
  }

  /** Whether from_SensorConfig_to_c accepts the object. */
  predicate Accepted(props: map<string, JsValue>) {
    FirstBad(props, 0) == |Keys|
  }

  /** `bs` copied to the start of four zero bytes. */
  function Padded(bs: seq<u8>): (p: seq<u8>)
    requires |bs| <= 4
    ensures |p| == 4 && p[..|bs|] == bs
    ensures forall j :: |bs| <= j < 4 ==> p[j] == 0
  {
    bs + seq(4 - |bs|, _ => 0)
  }

  /** Storing the value read for property k into the struct. */
  function Store(c: SensorConfigC, k: nat, f: Field): SensorConfigC {
    match f
    case Flag(b) =>
      if k == 0 then c.(changeSensitivityEnabled := b)
      else if k == 1 then c.(changeSensitivityRelative := b)
      else if k == 2 then c.(wakeupEnabled := b)
      else if k == 3 then c.(alwaysOnEnabled := b)
      else c.(sniffEnabled := b)
    case Short(h) => c.(changeSensitivity := h)
    case Word(w) => if k == 6 then c.(reportIntervalUs := w) else c.(batchIntervalUs := w)
    case Bytes(bs) => if |bs| <= 4 then c.(sensorSpecific := Padded(bs)) else c
    case _ => c
  }

  /** The struct after properties 0 .. k-1 have been read and stored. */
  function Filled(props: map<string, JsValue>, k: nat): (c: SensorConfigC)
    requires k <= |Keys|
    ensures WellFormedConfig(c)
  {
    if k == 0 then ZeroConfig else Store(Filled(props, k - 1), k - 1, ReadField(props, k - 1))
  }

  /** When properties from .. j-1 are accepted and property j is rejected
      (or j is past the last), the first rejection at or after `from` is j. */
  lemma {:induction false} FirstBadIs(props: map<string, JsValue>, from: nat, j: nat)
    requires from <= j <= |Keys|
    requires forall i :: from <= i < j ==> !ReadField(props, i).Bad?
    requires j < |Keys| ==> ReadField(props, j).Bad?
    ensures FirstBad(props, from) == j
    decreases j - from
  {
    if from < j {
      FirstBadIs(props, from + 1, j);
    }
  }

  /** One of the five boolean blocks of from_SensorConfig_to_c: a present
      property must be a boolean and is stored. */
  method ReadBoolProperty(props: map<string, JsValue>, k: nat, c: SensorConfigC)
    returns (ok: bool, r: SensorConfigC)
    requires k < 5
    ensures ok == !ReadField(props, k).Bad?
    ensures r == if ok then Store(c, k, ReadField(props, k)) else c
  {
    var key := Keys[k];
    ok, r := true, c;
    if key in props {
      var b := GetBool(props[key]);
      if b.None? {
        return false, c;
      }
      if k == 0 {
        r := c.(changeSensitivityEnabled := b.value);
      } else if k == 1 {
        r := c.(changeSensitivityRelative := b.value);
      } else if k == 2 {
        r := c.(wakeupEnabled := b.value);
      } else if k == 3 {
        r := c.(alwaysOnEnabled := b.value);
      } else {
        r := c.(sniffEnabled := b.value);
      }
    }
  }

  /** The one exception from_SensorConfig_to_c throws. */
  const ERROR_TRANSLATING_NODE_TO_STRUCT: Option<string> :=
    Some("could't translate value(s) in node value to C struct")
  const NotUint32Error := Thrown(ERROR_TRANSLATING_NODE_TO_STRUCT, "changeSensitivity is not a uint32.")

  /** Whether a present changeSensitivity is not a number, the one
      rejection that throws; an out-of-range number is rejected silently. */
  predicate ChangeSensitivityNotNumber(props: map<string, JsValue>) {
    "changeSensitivity" in props && !props["changeSensitivity"].JsNumber?
  }

  /** The changeSensitivity block: a present property must be a number
      whose uint32 value fits 16 bits. A value that is not a number also
      throws; one that is out of range does not. */
  method ReadChangeSensitivity(props: map<string, JsValue>, c: SensorConfigC)
    returns (ok: bool, r: SensorConfigC, thrown: seq<Thrown>)
    ensures ok == !ReadField(props, 5).Bad?
    ensures r == if ok then Store(c, 5, ReadField(props, 5)) else c
    ensures thrown == if ChangeSensitivityNotNumber(props) then [NotUint32Error] else []
  {
    ok, r, thrown := true, c, [];
    if "changeSensitivity" in props {
      var x := GetUint32(props["changeSensitivity"]);
      if x.None? {
        return false, c, [NotUint32Error];
      }
      if x.value > 0xFFFF {
        return false, c, [];
      }
      r := c.(changeSensitivity := x.value);
    }
  }

  /** The reportInterval_us and batchInterval_us blocks: a present
      property must be a number and its uint32 value is stored. */
  method ReadInterval(props: map<string, JsValue>, k: nat, c: SensorConfigC)
    returns (ok: bool, r: SensorConfigC)
    requires k == 6 || k == 7
    ensures ok == !ReadField(props, k).Bad?
    ensures r == if ok then Store(c, k, ReadField(props, k)) else c
  {
    var key := Keys[k];
    ok, r := true, c;
    if key in props {
      var x := GetUint32(props[key]);
      if x.None? {
        return false, c;
      }
      if k == 6 {
        r := c.(reportIntervalUs := x.value);
      } else {
        r := c.(batchIntervalUs := x.value);
      }
    }
  }

  /** The sensorSpecific block: a present property must be a Buffer of at
      most 4 bytes, copied to the start of the zeroed field. */
  method ReadSensorSpecific(props: map<string, JsValue>, c: SensorConfigC)
    returns (ok: bool, r: SensorConfigC)
    ensures ok == !ReadField(props, 8).Bad?
    ensures r == if ok then Store(c, 8, ReadField(props, 8)) else c
  {
    ok, r := true, c;
    if "sensorSpecific" in props {
      var bs := GetBuffer(props["sensorSpecific"]);
      if bs.None? {
        return false, c;
      }
      if |bs.value| > 4 {
        return false, c;
      }
      r := c.(sensorSpecific := Padded(bs.value));
    }
  }

  /** The converter's state after properties 0 .. k-1 were accepted: the
      struct holds what they store, and the first rejection, if any, is
      still ahead. */
  ghost predicate Progress(props: map<string, JsValue>, k: nat, c: SensorConfigC) {
    k <= |Keys| && c == Filled(props, k) && FirstBad(props, 0) == FirstBad(props, k)
  }

  lemma Started(props: map<string, JsValue>)
    ensures Progress(props, 0, ZeroConfig)
  {
  }

  /** One property read: an accepted one moves the converter on, a
      rejected one is the first rejection and the struct is what the
      converter returns. */
  lemma {:induction false} Advance(props: map<string, JsValue>, k: nat, c: SensorConfigC, ok: bool, r: SensorConfigC)
    requires k < |Keys| && Progress(props, k, c)
    requires ok == !ReadField(props, k).Bad?
    requires r == if ok then Store(c, k, ReadField(props, k)) else c
    ensures ok ==> Progress(props, k + 1, r)
    ensures !ok ==> FirstBad(props, 0) == k && r == Filled(props, FirstBad(props, 0))
    ensures ok && k + 1 == |Keys| ==> Accepted(props)
  {
  }

  /** from_SensorConfig_to_c: zero the struct, then read the properties
      one by one, storing each that is present and returning
      EXIT_FAILURE at the first one that is rejected. What was stored
      before the rejection stays in the struct. */
  method FromSensorConfigToC(props: map<string, JsValue>)
    returns (rc: int, result: SensorConfigC, thrown: seq<Thrown>)
    ensures rc == (if Accepted(props) then EXIT_SUCCESS else EXIT_FAILURE)
    ensures result == Filled(props, FirstBad(props, 0))
    ensures thrown == if FirstBad(props, 0) == 5 && ChangeSensitivityNotNumber(props) then [NotUint32Error] else []
  {
    result := ZeroConfig;
    Started(props);
    var ok;
    ghost var before;
    before := result;
    ok, result := ReadBoolProperty(props, 0, result);
    Advance(props, 0, before, ok, result);
    if !ok {
      return EXIT_FAILURE, result, [];
    }
    before := result;
    ok, result := ReadBoolProperty(props, 1, result);
    Advance(props, 1, before, ok, result);
    if !ok {
      return EXIT_FAILURE, result, [];
    }
    before := result;
    ok, result := ReadBoolProperty(props, 2, result);
    Advance(props, 2, before, ok, result);
    if !ok {
      return EXIT_FAILURE, result, [];
    }
    before := result;
    ok, result := ReadBoolProperty(props, 3, result);
    Advance(props, 3, before, ok, result);
    if !ok {
      return EXIT_FAILURE, result, [];
    }
    before := result;
    ok, result := ReadBoolProperty(props, 4, result);
    Advance(props, 4, before, ok, result);
    if !ok {
      return EXIT_FAILURE, result, [];
    }
    before := result;
    ok, result, thrown := ReadChangeSensitivity(props, result);
    Advance(props, 5, before, ok, result);
    if !ok {
      return EXIT_FAILURE, result, thrown;
    }
    before := result;
    ok, result := ReadInterval(props, 6, result);
    Advance(props, 6, before, ok, result);
    if !ok {
      return EXIT_FAILURE, result, [];
    }
    before := result;
    ok, result := ReadInterval(props, 7, result);
    Advance(props, 7, before, ok, result);
    if !ok {
      return EXIT_FAILURE, result, [];
    }
    before := result;
    ok, result := ReadSensorSpecific(props, result);
    Advance(props, 8, before, ok, result);
    if !ok {
      return EXIT_FAILURE, result, [];
    }
    return EXIT_SUCCESS, result, [];
  }

  // ---------------------------------------------------------------------
  // What the converter leaves in each field

  /** Field k of the struct, in the shape ReadField produces for it. */
  function Get(c: SensorConfigC, k: nat): Field
    requires k < |Keys|
  {
    if k == 0 then Flag(c.changeSensitivityEnabled)
    else if k == 1 then Flag(c.changeSensitivityRelative)
    else if k == 2 then Flag(c.wakeupEnabled)
    else if k == 3 then Flag(c.alwaysOnEnabled)
    else if k == 4 then Flag(c.sniffEnabled)
    else if k == 5 then Short(c.changeSensitivity)
    else if k == 6 then Word(c.reportIntervalUs)
    else if k == 7 then Word(c.batchIntervalUs)
    else Bytes(c.sensorSpecific)
  }

  /** What an accepted property k puts in its field: the zero of memset when
      it is absent, its value when present, a buffer padded with zeros. */
  function Decoded(props: map<string, JsValue>, k: nat): Field
    requires k < |Keys|
  {
    Stored(k, ReadField(props, k))
  }

  function Stored(k: nat, f: Field): Field
    requires k < |Keys|
  {
    match f
    case Absent => Get(ZeroConfig, k)
    case Bytes(bs) => if |bs| <= 4 then Bytes(Padded(bs)) else f
    case _ => f
  }

  /** Two structs with the same nine fields are the same struct. */
  lemma SameFields(c: SensorConfigC, d: SensorConfigC)
    requires forall k :: 0 <= k < |Keys| ==> Get(c, k) == Get(d, k)
    ensures c == d
  {
    assert Get(c, 0) == Get(d, 0) && Get(c, 1) == Get(d, 1) && Get(c, 2) == Get(d, 2);
    assert Get(c, 3) == Get(d, 3) && Get(c, 4) == Get(d, 4) && Get(c, 5) == Get(d, 5);
    assert Get(c, 6) == Get(d, 6) && Get(c, 7) == Get(d, 7) && Get(c, 8) == Get(d, 8);
  }

  /** Storing property k touches field k only. */
  lemma StoreGet(c: SensorConfigC, k: nat, f: Field, i: nat)
    requires k < |Keys| && i < |Keys| && !f.Bad?
    requires (f.Flag? ==> k < 5) && (f.Short? ==> k == 5) && (f.Word? ==> k == 6 || k == 7)
    requires f.Bytes? ==> k == 8 && |f.bs| <= 4
    ensures Get(Store(c, k, f), i) == if i == k && !f.Absent? then Stored(k, f) else Get(c, i)
  {
  }

  /** After properties 0 .. j-1 have been accepted, each of them has put
      its decoded value in its field and every later field still holds
      the zero of memset. */
  lemma {:induction false} FilledFields(props: map<string, JsValue>, j: nat)
    requires j <= |Keys|
    requires forall i :: 0 <= i < j ==> !ReadField(props, i).Bad?
    ensures forall k :: 0 <= k < |Keys| ==>
      Get(Filled(props, j), k) == if k < j then Decoded(props, k) else Get(ZeroConfig, k)
  {
    if j > 0 {
      FilledFields(props, j - 1);
      forall k | 0 <= k < |Keys|
        ensures Get(Filled(props, j), k) == if k < j then Decoded(props, k) else Get(ZeroConfig, k)
      {
        StoreGet(Filled(props, j - 1), j - 1, ReadField(props, j - 1), k);
      }
    }
  }

  /** What from_SensorConfig_to_c leaves in the struct: every property
      before the first rejected one (all of them when none is) in its
      decoded form, and zeros from there on. */
  lemma ConvertedFields(props: map<string, JsValue>)
    ensures var j := FirstBad(props, 0);
      forall k :: 0 <= k < |Keys| ==>
        Get(Filled(props, j), k) == if k < j then Decoded(props, k) else Get(ZeroConfig, k)
  {
    FilledFields(props, FirstBad(props, 0));
  }

  /** An object with no properties is accepted and gives the zeroed struct. */
  lemma {:induction false} EmptyObjectIsZero()
    ensures Accepted(map[])
    ensures Filled(map[], |Keys|) == ZeroConfig
  {
    var e: map<string, JsValue> := map[];
    FirstBadIs(e, 0, |Keys|);
    FilledFields(e, |Keys|);
    SameFields(Filled(e, |Keys|), ZeroConfig);
  }

  /** A changeSensitivity above 65535 is rejected, whatever else the
      object holds. */
  lemma ChangeSensitivityOutOfRange(props: map<string, JsValue>)
    requires "changeSensitivity" in props && props["changeSensitivity"].JsNumber?
    requires ToUint32(props["changeSensitivity"].n) > 0xFFFF
    ensures !Accepted(props)
  {
    assert ReadField(props, 5).Bad?;
  }

  /** A sensorSpecific Buffer longer than four bytes is rejected. */
  lemma SensorSpecificTooLong(props: map<string, JsValue>)
    requires "sensorSpecific" in props && props["sensorSpecific"].JsBuffer?
    requires |props["sensorSpecific"].bytes| > 4
    ensures !Accepted(props)
  {
    assert ReadField(props, 8).Bad?;
  }

  /** A property of the wrong kind is rejected: a non-boolean flag, a
      non-number sensitivity or interval, a sensorSpecific that is not a
      Buffer. */
  lemma WrongKindRejected(props: map<string, JsValue>, k: nat)
    requires k < |Keys| && Keys[k] in props
    requires k < 5 ==> !props[Keys[k]].JsBool?
    requires 5 <= k < 8 ==> !props[Keys[k]].JsNumber?
    requires k == 8 ==> !props[Keys[k]].JsBuffer?
    ensures !Accepted(props)
  {
    assert ReadField(props, k).Bad?;
  }

  /** The object of the repository's own conversion test: every flag true
      and the three numbers 12345. */
  const TestConfig: map<string, JsValue> := map[
    "changeSensitivityEnabled" := JsBool(true), "changeSensitivityRelative" := JsBool(true),
    "wakeupEnabled" := JsBool(true), "alwaysOnEnabled" := JsBool(true),
    "sniffEnabled" := JsBool(true), "changeSensitivity" := JsNumber(12345.0),
    "reportInterval_us" := JsNumber(12345.0), "batchInterval_us" := JsNumber(12345.0)]

  /** The test configuration converts to exactly those values. */
  lemma {:induction false} TestConfigConverts()
    ensures Accepted(TestConfig)
    ensures Filled(TestConfig, |Keys|) == SensorConfigC(true, true, true, true, true, 12345, 12345, 12345, [0, 0, 0, 0])
  {
    var expected := SensorConfigC(true, true, true, true, true, 12345, 12345, 12345, [0, 0, 0, 0]);
    assert TestConfig == ConfigBase(expected);
    forall i | 0 <= i < |Keys|
      ensures !ReadField(TestConfig, i).Bad? && Decoded(TestConfig, i) == Get(expected, i)
    {
      if i < 8 {
        ReadBase(expected, i);
      } else {
        assert "sensorSpecific" !in TestConfig;
      }
    }
    FirstBadIs(TestConfig, 0, |Keys|);
    FilledFields(TestConfig, |Keys|);
    SameFields(Filled(TestConfig, |Keys|), expected);
  }

  // ---------------------------------------------------------------------
  // c_to_SensorConfig and its round trip

  /** The uint32_t sensorSpecific field read from its four bytes on a
      little-endian host. */
  function SensorSpecificWord(bs: seq<u8>): (w: u32)
    requires |bs| == 4
    ensures w % TWO_8 == bs[0]
  {
    bs[0] + TWO_8 * bs[1] + TWO_16 * bs[2] + TWO_8 * TWO_16 * bs[3]
  }

  /** The properties every SensorConfig object carries besides
      sensorSpecific. */
  function ConfigBase(c: SensorConfigC): map<string, JsValue> {
    map[
      "changeSensitivityEnabled" := JsBool(c.changeSensitivityEnabled),
      "changeSensitivityRelative" := JsBool(c.changeSensitivityRelative),
      "wakeupEnabled" := JsBool(c.wakeupEnabled),
      "alwaysOnEnabled" := JsBool(c.alwaysOnEnabled),
      "sniffEnabled" := JsBool(c.sniffEnabled),
      "changeSensitivity" := JsNumber(c.changeSensitivity as real),
      "reportInterval_us" := JsNumber(c.reportIntervalUs as real),
      "batchInterval_us" := JsNumber(c.batchIntervalUs as real)]
  }

  /** c_to_SensorConfig as written: sensorSpecific becomes a number made
      with napi_create_uint32. */
  function SensorConfigToJs(c: SensorConfigC): (o: map<string, JsValue>)
    requires WellFormedConfig(c)
    ensures o.Keys == (set k | k in Keys)
    ensures o["sensorSpecific"] == JsNumber(SensorSpecificWord(c.sensorSpecific) as real)
  {
    ConfigBase(c)["sensorSpecific" := JsNumber(SensorSpecificWord(c.sensorSpecific) as real)]
  }

  /** Every object c_to_SensorConfig produces is rejected by
      from_SensorConfig_to_c: the first eight properties pass and the
      numeric sensorSpecific is not a Buffer. */
  lemma {:induction false} SensorConfigRoundTripFails(c: SensorConfigC)
    requires WellFormedConfig(c)
    ensures FirstBad(SensorConfigToJs(c), 0) == 8
    ensures !Accepted(SensorConfigToJs(c))
  {
    var o := SensorConfigToJs(c);
    forall i | 0 <= i < 8
      ensures !ReadField(o, i).Bad?
    {
      ReadBase(c, i);
      assert Keys[i] != "sensorSpecific";
      assert ReadField(o, i) == ReadField(ConfigBase(c), i);
    }
    FirstBadIs(o, 0, 8);
  }

  /** c_to_SensorConfig as the SensorConfig type declares it: sensorSpecific
      is a Buffer holding the field's four bytes. */
  function SensorConfigToJsFixed(c: SensorConfigC): (o: map<string, JsValue>)
    requires WellFormedConfig(c)
    ensures o.Keys == (set k | k in Keys)
    ensures o["sensorSpecific"] == JsBuffer(c.sensorSpecific)
  {
    ConfigBase(c)["sensorSpecific" := JsBuffer(c.sensorSpecific)]
  }

  /** With sensorSpecific a Buffer, converting a struct to an object and
      back gives the struct again. */
  lemma {:induction false} SensorConfigRoundTrip(c: SensorConfigC)
    requires WellFormedConfig(c)
    ensures Accepted(SensorConfigToJsFixed(c))
    ensures Filled(SensorConfigToJsFixed(c), |Keys|) == c
  {
    var o := SensorConfigToJsFixed(c);
    forall i | 0 <= i < |Keys|
      ensures !ReadField(o, i).Bad? && Decoded(o, i) == Get(c, i)
    {
      ReadFixed(c, i);
    }
    FirstBadIs(o, 0, |Keys|);
    FilledFields(o, |Keys|);
    SameFields(Filled(o, |Keys|), c);
  }

  /** Property i of the fixed object reads back as field i. */
  lemma ReadFixed(c: SensorConfigC, i: nat)
    requires WellFormedConfig(c) && i < |Keys|
    ensures !ReadField(SensorConfigToJsFixed(c), i).Bad?
    ensures Decoded(SensorConfigToJsFixed(c), i) == Get(c, i)
  {
    if i < 8 {
      ReadBase(c, i);
      assert Keys[i] != "sensorSpecific";
      assert ReadField(SensorConfigToJsFixed(c), i) == ReadField(ConfigBase(c), i);
    } else {
      assert Padded(c.sensorSpecific) == c.sensorSpecific;
    }
  }

  /** Property i < 8 of ConfigBase(c) reads back as field i. */
  lemma ReadBase(c: SensorConfigC, i: nat)
    requires i < 8
    ensures !ReadField(ConfigBase(c), i).Bad?
    ensures Decoded(ConfigBase(c), i) == Get(c, i)
  {
    var o := ConfigBase(c);
    assert Keys[i] in o;
    if i == 5 {
      ToUint32OfUint32(c.changeSensitivity);
    } else if i == 6 {
      ToUint32OfUint32(c.reportIntervalUs);
    } else if i == 7 {
      ToUint32OfUint32(c.batchIntervalUs);
    }
  }

  // ---------------------------------------------------------------------
  // Product id

  /** sh2_ProductId_t */
  datatype ProductIdC = ProductIdC(
    resetCause: u8, swVersionMajor: u8, swVersionMinor: u8, swPartNumber: u32,
    swBuildNumber: u32, swVersionPatch: u16, reserved0: u8, reserved1: u8)

  /** The properties the ProductId type of the bindings declares. */
  const ProductIdKeys: set<string> := {"resetCause", "swVersionMajor", "swVersionMinor",
    "swPartNumber", "swBuildNumber", "swVersionPatch", "reserved0", "reserved1"}

  /** c_to_ProductId as written: the eight numbers are created, but none is
      set on the object, so the object it returns has no properties. */
  function ProductIdToJs(id: ProductIdC): (o: map<string, JsValue>)
    ensures o.Keys !! ProductIdKeys
  {
    map[]
  }

  /** Two product ids that differ in every field give the same object:
      the JavaScript side cannot tell them apart. */
  lemma ProductIdLost()
    ensures var a := ProductIdC(1, 3, 2, 10003606, 7, 1, 0, 0);
            var b := ProductIdC(0, 0, 0, 0, 0, 0, 1, 1);
            a != b && ProductIdToJs(a) == ProductIdToJs(b) && ProductIdToJs(a).Keys == {}
  {
  }

  /** c_to_ProductId as evidently intended: each field set as a number
      under its name. */
  function ProductIdToJsFixed(id: ProductIdC): (o: map<string, JsValue>)
    ensures o.Keys == ProductIdKeys
    ensures o["resetCause"] == JsNumber(id.resetCause as real)
    ensures o["swPartNumber"] == JsNumber(id.swPartNumber as real)
  {
    map["resetCause" := JsNumber(id.resetCause as real),
        "swVersionMajor" := JsNumber(id.swVersionMajor as real),
        "swVersionMinor" := JsNumber(id.swVersionMinor as real),
        "swPartNumber" := JsNumber(id.swPartNumber as real),
        "swBuildNumber" := JsNumber(id.swBuildNumber as real),
        "swVersionPatch" := JsNumber(id.swVersionPatch as real),
        "reserved0" := JsNumber(id.reserved0 as real),
        "reserved1" := JsNumber(id.reserved1 as real)]
  }

  /** Reading the numbers back as ToUint32 does gives the product id. */
  function ProductIdFromJs(o: map<string, JsValue>): (id: Option<ProductIdC>)
  {
    if ProductIdKeys <= o.Keys && forall k :: k in ProductIdKeys ==> o[k].JsNumber? then
      var f := (k: string) requires k in o && o[k].JsNumber? => ToUint32(o[k].n);
      var rc, mj, mn := f("resetCause"), f("swVersionMajor"), f("swVersionMinor");
      var pn, bn, pt := f("swPartNumber"), f("swBuildNumber"), f("swVersionPatch");
      var r0, r1 := f("reserved0"), f("reserved1");
      if rc < TWO_8 && mj < TWO_8 && mn < TWO_8 && pt < TWO_16 && r0 < TWO_8 && r1 < TWO_8 then
        Some(ProductIdC(rc, mj, mn, pn, bn, pt, r0, r1))
      else None
    else None
  }

  /** The corrected object carries the whole product id: it reads back as
      the id it was made from, so distinct ids give distinct objects. */
  lemma {:induction false} ProductIdRoundTrip(id: ProductIdC)
    ensures ProductIdFromJs(ProductIdToJsFixed(id)) == Some(id)
  {
    var o := ProductIdToJsFixed(id);
    ToUint32OfUint32(id.resetCause);
    ToUint32OfUint32(id.swVersionMajor);
    ToUint32OfUint32(id.swVersionMinor);
    ToUint32OfUint32(id.swPartNumber);
    ToUint32OfUint32(id.swBuildNumber);
    ToUint32OfUint32(id.swVersionPatch);
    ToUint32OfUint32(id.reserved0);
    ToUint32OfUint32(id.reserved1);
  }

  // ---------------------------------------------------------------------
  // c_to_AsyncEvent

  /** sh2_AsyncEventId_e */
  const SH2_RESET: u32 := 0
  const SH2_SHTP_EVENT: u32 := 1
  const SH2_GET_FEATURE_RESP: u32 := 2

  /** sh2_SensorConfigResp_t */
  datatype SensorConfigResp = SensorConfigResp(sensorId: u8, config: SensorConfigC)

  /** sh2_AsyncEvent_t: the id and both payloads, of which only the one the
      id names is meaningful. */
  datatype AsyncEventC = AsyncEventC(eventId: u32, shtpEvent: u8, resp: SensorConfigResp)

  /** c_to_SensorConfigResp */
  function SensorConfigRespToJs(r: SensorConfigResp): (o: map<string, JsValue>)
    requires WellFormedConfig(r.config)
    ensures o.Keys == {"sensorId", "config"}
    ensures o["config"] == JsObject(SensorConfigToJs(r.config))
  {
    map["sensorId" := JsNumber(r.sensorId as real), "config" := JsObject(SensorConfigToJs(r.config))]
  }

  /** c_to_AsyncEvent: the id always, the SHTP event only for SHTP_EVENT,
      the feature response only for GET_FEATURE_RESP, null otherwise. */
  function AsyncEventToJs(e: AsyncEventC): (o: map<string, JsValue>)
    requires WellFormedConfig(e.resp.config)
    ensures o.Keys == {"id", "shtpEvent", "sh2SensorConfigResp"}
    ensures o["id"] == JsNumber(e.eventId as real)
    ensures o["shtpEvent"] != JsNull <==> e.eventId == SH2_SHTP_EVENT
    ensures o["sh2SensorConfigResp"] != JsNull <==> e.eventId == SH2_GET_FEATURE_RESP
    ensures e.eventId == SH2_SHTP_EVENT ==> o["shtpEvent"] == JsNumber(e.shtpEvent as real)
    ensures e.eventId == SH2_GET_FEATURE_RESP ==>
      o["sh2SensorConfigResp"] == JsObject(SensorConfigRespToJs(e.resp))
  {
    var shtp := if e.eventId == SH2_SHTP_EVENT then JsNumber(e.shtpEvent as real) else JsNull;
    var resp := if e.eventId == SH2_GET_FEATURE_RESP then JsObject(SensorConfigRespToJs(e.resp)) else JsNull;
    map["id" := JsNumber(e.eventId as real), "shtpEvent" := shtp, "sh2SensorConfigResp" := resp]
  }

  /** The id property tells the event apart: two events with the same id
      and the same meaningful payload give the same object, and two with
      different ids give different objects. */
  lemma AsyncEventOnlyIdAndPayload(e: AsyncEventC, f: AsyncEventC)
    requires WellFormedConfig(e.resp.config) && WellFormedConfig(f.resp.config)
    ensures e.eventId != f.eventId ==> AsyncEventToJs(e) != AsyncEventToJs(f)
    ensures e.eventId == f.eventId && e.eventId != SH2_SHTP_EVENT && e.eventId != SH2_GET_FEATURE_RESP ==>
      AsyncEventToJs(e) == AsyncEventToJs(f)
    ensures e.eventId == f.eventId == SH2_SHTP_EVENT && e.shtpEvent == f.shtpEvent ==>
      AsyncEventToJs(e) == AsyncEventToJs(f)
  {
    if e.eventId != f.eventId {
      assert AsyncEventToJs(e)["id"] != AsyncEventToJs(f)["id"];
    }
  }

  // ---------------------------------------------------------------------
  // c_to_SensorEvent

  /** The sensor ids whose reports carry three Q8 axes. */
  const XyzReportIds: set<u8> := {0x01, 0x04, 0x06, 0x16, 0x0f, 0x03, 0x07, 0x02}

  /** SH2_ROTATION_VECTOR */
  const SH2_ROTATION_VECTOR: u8 := 0x05

  /** sh2_SensorEvent_t: `report` holds the `len` bytes of the report. */
  datatype SensorEventC = SensorEventC(timestampUs: nat, delayUs: int, reportId: u8, report: seq<u8>)

  /** The five properties every sensor event object gets. */
  function EventBase(ev: SensorEventC): map<string, JsValue> {
    map[
      "timestampMicroseconds" := JsBigInt(ev.timestampUs),
      "delayMicroseconds" := JsNumber(ev.delayUs as real),
      "length" := JsNumber(|ev.report| as real),
      "reportId" := JsNumber(ev.reportId as real),
      "report" := JsBuffer(ev.report)]
  }

  /** c_to_SensorEvent. The rotation-vector properties are computed by
      code that is not part of this model, passed in as `addRotation`
      (None when it fails). An axis report must hold ten bytes, because
      the decoder reads them without checking the length. */
  function SensorEventToJs(ev: SensorEventC, addRotation: map<string, JsValue> -> Option<map<string, JsValue>>)
    : (r: Option<map<string, JsValue>>)
    requires ev.reportId in XyzReportIds ==> |ev.report| >= 10
    ensures ev.reportId in XyzReportIds ==>
      && r.Some?
      && r.value.Keys == EventBase(ev).Keys + {"x", "y", "z"}
      && r.value["report"] == JsBuffer(ev.report)
      && var a := ReportDecoding.DecodeAxes(ev.report);
         r.value["x"] == JsNumber(a.x) && r.value["y"] == JsNumber(a.y) && r.value["z"] == JsNumber(a.z)
    ensures ev.reportId == SH2_ROTATION_VECTOR ==> r == addRotation(EventBase(ev))
    ensures ev.reportId !in XyzReportIds && ev.reportId != SH2_ROTATION_VECTOR ==> r == Some(EventBase(ev))
  {
    var base := EventBase(ev);
    if ev.reportId in XyzReportIds then
      var (ret, obj, _) := ReportDecoding.AddGettersToAccelerometerReport(base);
      if ret != 0 then None else Some(obj)
    else if ev.reportId == SH2_ROTATION_VECTOR then addRotation(base)
    else Some(base)
  }

  /** The base properties describe the event completely: distinct events
      give distinct objects. */
  lemma EventBaseInjective(ev: SensorEventC, ew: SensorEventC)
    requires EventBase(ev) == EventBase(ew)
    ensures ev == ew
  {
    assert EventBase(ev)["timestampMicroseconds"] == EventBase(ew)["timestampMicroseconds"];
    assert EventBase(ev)["delayMicroseconds"] == EventBase(ew)["delayMicroseconds"];
    assert EventBase(ev)["reportId"] == EventBase(ew)["reportId"];
    assert EventBase(ev)["report"] == EventBase(ew)["report"];
  }
}
