/** The fixed-point decoding of sensor_report_auxialiry_fns.c: the code
    reads the three axes of a report as signed 16-bit little-endian words
    at byte offsets 4, 6 and 8 and decodes them as Q8 fixed point
    (value = raw / 2^8). The helper is written for the accelerometer and
    the converter applies it to the gyroscope and magnetometer reports as
    well. Values are exact rationals here; the conversion to a double is
    left to the engine. */
module ReportDecoding {
  import opened Common
  import opened JsValues

  /** The exact value of a Q8 fixed-point reading. */
  function Q8(raw: int): real {
    raw as real / 256.0
  }

  /** One axis: a little-endian 16-bit word read as a signed int16. */
  function AxisRaw(lo: u8, hi: u8): (v: int)
    ensures -0x8000 <= v < 0x8000
    ensures hi < 0x80 ==> v == lo + TWO_8 * hi
    ensures hi >= 0x80 ==> v == lo + TWO_8 * hi - TWO_16
  {
    AsInt16(LoadLe16(lo, hi))
  }

  /** The two bytes that carry a signed 16-bit value, low byte first. */
  function EncodeAxis(v: int): (bytes: (u8, u8))
    requires -0x8000 <= v < 0x8000
  {
    var w := if v < 0 then v + TWO_16 else v;
    (w % TWO_8, w / TWO_8)
  }

  /** Decoding and encoding an axis are inverse to each other, both ways:
      every signed 16-bit value has exactly one byte pair. */
  lemma AxisRoundTrip(v: int, lo: u8, hi: u8)
    requires -0x8000 <= v < 0x8000
    ensures AxisRaw(EncodeAxis(v).0, EncodeAxis(v).1) == v
    ensures EncodeAxis(AxisRaw(lo, hi)) == (lo, hi)
  {
  }

  /** The three axes of a report. */
  datatype Axes = Axes(x: real, y: real, z: real)

  /** Bytes 4-5, 6-7 and 8-9 of the report, each as a Q8 value. The code
      never checks the buffer's length, so a caller must supply ten bytes. */
  function DecodeAxes(buf: seq<u8>): (a: Axes)
    requires |buf| >= 10
    ensures -128.0 <= a.x < 128.0 && -128.0 <= a.y < 128.0 && -128.0 <= a.z < 128.0
  {
    Axes(Q8(AxisRaw(buf[4], buf[5])), Q8(AxisRaw(buf[6], buf[7])), Q8(AxisRaw(buf[8], buf[9])))
  }

  /** A report whose header is `head` (4 bytes) and whose axes carry x, y
      and z decodes to x/256, y/256 and z/256, whatever follows. */
  lemma DecodeEncodedReport(head: seq<u8>, x: int, y: int, z: int, tail: seq<u8>)
    requires |head| == 4
    requires -0x8000 <= x < 0x8000 && -0x8000 <= y < 0x8000 && -0x8000 <= z < 0x8000
    ensures var buf := head + [EncodeAxis(x).0, EncodeAxis(x).1, EncodeAxis(y).0, EncodeAxis(y).1,
                               EncodeAxis(z).0, EncodeAxis(z).1] + tail;
      DecodeAxes(buf) == Axes(x as real / 256.0, y as real / 256.0, z as real / 256.0)
  {
    AxisRoundTrip(x, 0, 0);
    AxisRoundTrip(y, 0, 0);
    AxisRoundTrip(z, 0, 0);
  }

  /** The repository's own example: FF 00 on every axis is 255, which is
      0.99609375 in Q8. */
  lemma FF00Decodes()
    ensures DecodeAxes([0x01, 0x00, 0x00, 0x00, 0xFF, 0x00, 0xFF, 0x00, 0xFF, 0x00, 0x00]) ==
      Axes(0.99609375, 0.99609375, 0.99609375)
  {
    assert AxisRaw(0xFF, 0x00) == 255;
  }

  /** A set high bit makes the axis negative: 00 80 is the most negative
      reading, -128. */
  lemma SignBit()
    ensures Q8(AxisRaw(0x00, 0x80)) == -128.0
    ensures Q8(AxisRaw(0xFF, 0xFF)) == -1.0 / 256.0
  {
  }

  const BufferMessage: string := "Couldn't get buffer from sensor event."

  /** add_getters_to_accelerometer_report on the event object. Reading a
      missing "report" property gives undefined, so a missing property and
      one that is not a Buffer both fail at napi_get_buffer_info: 1, no
      change, and an exception without a code. Otherwise 0, with "x", "y"
      and "z" set to the decoded axes, every other property kept and
      nothing thrown. */
  function AddGettersToAccelerometerReport(obj: map<string, JsValue>)
    : (res: (int, map<string, JsValue>, seq<Thrown>))
    requires "report" in obj && obj["report"].JsBuffer? ==> |obj["report"].bytes| >= 10
    ensures res.0 == 1 <==> !("report" in obj && obj["report"].JsBuffer?)
    ensures res.0 == 1 ==> res.1 == obj && res.2 == [Thrown(None, BufferMessage)]
    ensures res.0 != 1 ==>
      && res.0 == 0
      && res.2 == []
      && res.1.Keys == obj.Keys + {"x", "y", "z"}
      && (forall k :: k in obj && k !in {"x", "y", "z"} ==> res.1[k] == obj[k])
      && var a := DecodeAxes(obj["report"].bytes);
         res.1["x"] == JsNumber(a.x) && res.1["y"] == JsNumber(a.y) && res.1["z"] == JsNumber(a.z)
  {
    var report := if "report" in obj then obj["report"] else JsUndefined;
    match GetBuffer(report)
    case None => (1, obj, [Thrown(None, BufferMessage)])
    case Some(data) =>
      var a := DecodeAxes(data);
      (0, obj["x" := JsNumber(a.x)]["y" := JsNumber(a.y)]["z" := JsNumber(a.z)], [])
  }
}
