/** The I2C hardware abstraction of sh2_hal.c that the SH-2 driver calls:
    the stored bus settings and descriptor, open and close with the reset
    frame, the two-phase framed read, the write and the microsecond clock.

    Everything the operating system does (open, ioctl, read, write, the
    clock) is an input: the model receives the result the call returned
    and the bytes it left in the buffer. */
module Sh2Hal {
  import opened Common
  import IrqBridge

  /** Return codes of sh2_err.h used here. */
  const SH2_OK: int := 0
  const SH2_ERR: int := -1

  /** i2c_settings_t without its table of HAL functions. A descriptor
      counts as open only when it is greater than 0. */
  datatype I2cSettings = I2cSettings(bus: u8, addr: u8, fd: int)

  /** The zero-initialised static CURRENT_I2C_SETTINGS. */
  const ZeroSettings := I2cSettings(0, 0, 0)

  predicate IsOpen(s: I2cSettings) {
    s.fd > 0
  }

  // ---------------------------------------------------------------------
  // The SHTP header length

  /** The length field of an SHTP header: the first two bytes,
      little-endian, with bit 15 (the continuation flag) cleared. */
  function HeaderLength(b0: u8, b1: u8): (len: u16)
    ensures len < 0x8000
    ensures len % TWO_8 == b0 && len / TWO_8 == b1 % 0x80
  {
    b0 + TWO_8 * (b1 % 0x80)
  }

  /** The byte order of the machine the HAL runs on. */
  datatype Host = LittleEndian | BigEndian

  /** `*(u_int16_t*)pBuffer`: two bytes loaded in host order. */
  function HostLoad16(h: Host, b0: u8, b1: u8): (w: u16)
    ensures h == LittleEndian ==> w == LoadLe16(b0, b1)
    ensures h == BigEndian ==> w == LoadLe16(b1, b0)
  {
    match h
    case LittleEndian => LoadLe16(b0, b1)
    case BigEndian => LoadLe16(b1, b0)
  }

  /** le16toh: the identity on a little-endian host, a byte swap otherwise. */
  function Le16ToH(h: Host, w: u16): (v: u16)
    ensures h == LittleEndian ==> v == w
    ensures h == BigEndian ==> v % TWO_8 == w / TWO_8 && v / TWO_8 == w % TWO_8
  {
    match h
    case LittleEndian => w
    case BigEndian => LoadLe16(w / TWO_8, w % TWO_8)
  }

  /** `w & 0x7fff` on a 16-bit word. */
  function Mask15(w: u16): (v: u16)
    ensures v < 0x8000
    ensures v % TWO_8 == w % TWO_8 && v / TWO_8 == (w / TWO_8) % 0x80
  {
    w % 0x8000
  }

  /** The header phase as written: load, mask, then convert to host order. */
  function HeaderLengthAsWritten(h: Host, b0: u8, b1: u8): u16 {
    Le16ToH(h, Mask15(HostLoad16(h, b0, b1)))
  }

  /** The same steps with the conversion before the mask. */
  function HeaderLengthFixed(h: Host, b0: u8, b1: u8): u16 {
    Mask15(Le16ToH(h, HostLoad16(h, b0, b1)))
  }

  /** On a little-endian host the code as written decodes the header
      length correctly. */
  lemma AsWrittenOnLittleEndian(b0: u8, b1: u8)
    ensures HeaderLengthAsWritten(LittleEndian, b0, b1) == HeaderLength(b0, b1)
  {
  }

  /** On a big-endian host the mask clears the wrong bit: a header
      `14 80` (length 20, continuation flag set) is read as 0x8014. */
  lemma AsWrittenOnBigEndian()
    ensures HeaderLengthAsWritten(BigEndian, 0x14, 0x80) == 0x8014
    ensures HeaderLength(0x14, 0x80) == 20
  {
    assert HostLoad16(BigEndian, 0x14, 0x80) == 0x1480;
    assert Mask15(0x1480) == 0x1480;
  }

  /** Converting before masking decodes the header length on every host. */
  lemma {:induction false} FixedOnEveryHost(h: Host, b0: u8, b1: u8)
    ensures HeaderLengthFixed(h, b0, b1) == HeaderLength(b0, b1)
  {
    var w := Le16ToH(h, HostLoad16(h, b0, b1));
    assert w == LoadLe16(b0, b1) by {
      if h == BigEndian {
        var x := LoadLe16(b1, b0);
        assert w % TWO_8 == b0 && w / TWO_8 == b1;
      }
    }
  }

  // ---------------------------------------------------------------------
  // The two-phase read on values

  /** The statics of read_from_i2c. */
  datatype ReaderState = ReaderState(isRetry: bool, length: u16)

  const ReaderStart := ReaderState(false, 0)

  /** What one call of read_from_i2c receives from the outside: what read()
      returned, the first two bytes of the buffer after that read, and the
      time getTimeUs would report. */
  datatype ReadInput = ReadInput(n: int, b0: u8, b1: u8, nowUs: u32)

  /** What the call hands back: its return value, how many bytes it asked
      read() for, and the timestamp it stored in *t_us, if any. */
  datatype ReadOutput = ReadOutput(ret: int, request: nat, stamp: Option<u32>)

  /** One call of read_from_i2c. The header phase stores the decoded length
      before it looks at read()'s result. */
  function ReadStep(s: ReaderState, i: ReadInput): (ReaderState, ReadOutput) {
    if !s.isRetry then
      var len := HeaderLength(i.b0, i.b1);
      (ReaderState(i.n >= 0 && len != 0, len), ReadOutput(0, 4, None))
    else if i.n < 0 then
      (s, ReadOutput(0, s.length + 4, None))
    else
      (ReaderState(false, s.length), ReadOutput(i.n, s.length + 4, Some(i.nowUs)))
  }

  /** The reader's invariant: the latched length has no continuation bit,
      and a pending body phase has a non-zero length. */
  ghost predicate ReaderOk(s: ReaderState) {
    s.length < 0x8000 && (s.isRetry ==> s.length > 0)
  }

  /** What a single call promises: the header phase never delivers data and
      asks for 4 bytes; a failed header read or a zero length stays in the
      header phase; a body phase asks for length + 4 bytes; only a
      successful body read delivers, stamps the time and returns to the
      header phase; a failed body read leaves the state as it was, so the
      next call retries the same body. */
  lemma ReadStepFacts(s: ReaderState, i: ReadInput)
    requires ReaderOk(s)
    ensures var (t, o) := ReadStep(s, i);
      && ReaderOk(t)
      && (!s.isRetry ==> o == ReadOutput(0, 4, None) && t.length == HeaderLength(i.b0, i.b1)
                         && (t.isRetry <==> i.n >= 0 && t.length != 0))
      && (s.isRetry ==> o.request == s.length + 4 && 5 <= o.request <= 0x8003)
      && (s.isRetry && i.n < 0 ==> t == s && o.ret == 0 && o.stamp == None)
      && (o.stamp.Some? <==> s.isRetry && i.n >= 0)
      && (o.stamp.Some? ==> o.stamp.value == i.nowUs && o.ret == i.n && !t.isRetry)
      && (o.ret != 0 ==> o.stamp.Some?)
  {
  }

  /** A sequence of calls. */
  function Run(s: ReaderState, ins: seq<ReadInput>): (outs: seq<ReadOutput>)
    ensures |outs| == |ins|
    decreases |ins|
  {
    if ins == [] then []
    else
      var (t, o) := ReadStep(s, ins[0]);
      [o] + Run(t, ins[1..])
  }

  /** The state after a sequence of calls. */
  function After(s: ReaderState, ins: seq<ReadInput>): ReaderState
    decreases |ins|
  {
    if ins == [] then s else After(ReadStep(s, ins[0]).0, ins[1..])
  }

  /** From the power-on state, every call asks read() for at most
      0x7fff + 4 bytes, and two deliveries are always separated by at least
      one header-phase call. */
  lemma {:induction false} RunBounds(s: ReaderState, ins: seq<ReadInput>)
    requires ReaderOk(s)
    ensures ReaderOk(After(s, ins))
    ensures forall k :: 0 <= k < |ins| ==> Run(s, ins)[k].request <= 0x8003
    ensures forall k :: 0 <= k < |ins| - 1 && Run(s, ins)[k].stamp.Some? ==>
      Run(s, ins)[k + 1].request == 4 && Run(s, ins)[k + 1].stamp == None
    decreases |ins|
  {
    if ins != [] {
      var (t, o) := ReadStep(s, ins[0]);
      ReadStepFacts(s, ins[0]);
      RunBounds(t, ins[1..]);
      var outs := Run(s, ins);
      assert outs == [o] + Run(t, ins[1..]);
      if |ins| > 1 && o.stamp.Some? {
        ReadStepFacts(t, ins[1]);
        assert outs[1] == Run(t, ins[1..])[0];
      }
    }
  }

  /** A frame whose header declares 20 bytes: the first call reads the
      header and returns 0, the second asks for 24 bytes and delivers what
      read() returned, stamped with the clock. */
  lemma TwentyByteFrame(n1: nat, n2: nat, c0: u8, c1: u8, t1: u32, t2: u32)
    ensures Run(ReaderStart, [ReadInput(n1, 20, 0, t1), ReadInput(n2, c0, c1, t2)]) ==
      [ReadOutput(0, 4, None), ReadOutput(n2, 24, Some(t2))]
    ensures After(ReaderStart, [ReadInput(n1, 20, 0, t1), ReadInput(n2, c0, c1, t2)]) ==
      ReaderState(false, 20)
  {
    var ins := [ReadInput(n1, 20, 0, t1), ReadInput(n2, c0, c1, t2)];
    assert ins[1..] == [ReadInput(n2, c0, c1, t2)];
    assert ins[1..][1..] == [];
    var s1 := ReadStep(ReaderStart, ins[0]).0;
    assert s1 == ReaderState(true, 20);
    assert ReadStep(s1, ins[1]).0 == ReaderState(false, 20);
    assert After(s1, ins[1..]) == After(ReaderState(false, 20), []);
  }

  // ---------------------------------------------------------------------
  // Write and clock

  /** write_to_i2c: the number of bytes write() accepted, or 0 when it
      reported none or failed. */
  function WriteResult(n: int): (r: nat)
    ensures r == 0 <==> n <= 0
    ensures r != 0 ==> r == n
  {
    if n <= 0 then 0 else n
  }

  /** get_time_us: the monotonic clock in microseconds, cut to 32 bits.
      The C sum is formed in the signed type of the timespec fields and
      only then widened; any two's-complement wrap-around of that sum
      keeps its low 32 bits, so the value is the same. */
  function GetTimeUs(sec: nat, nsec: nat): (us: u32)
    ensures us == (sec * 1000000 + nsec / 1000) % TWO_32
  {
    IrqBridge.Wrap64Then32(sec * 1000000, nsec / 1000);
    TruncU32(((sec * 1000000) % TWO_64 + nsec / 1000) % TWO_64)
  }

  /** The HAL clock and the interrupt worker's clock agree. */
  lemma SameClockAsWorker(sec: nat, nsec: nat)
    ensures GetTimeUs(sec, nsec) == IrqBridge.MonotonicNowUs32(true, sec, nsec)
  {
  }

  // ---------------------------------------------------------------------
  // The device path and the reset frame

  function DigitChar(d: nat): char
    requires d < 10
  {
    "0123456789"[d]
  }

  /** The decimal rendering of n, as printf's %d writes it. */
  function Decimal(n: nat): (s: string)
    ensures 1 <= |s|
    ensures forall k :: 0 <= k < |s| ==> '0' <= s[k] <= '9'
    decreases n
  {
    if n < 10 then [DigitChar(n)] else Decimal(n / 10) + [DigitChar(n % 10)]
  }

  /** Reading a string of decimal digits back as a number. */
  function ParseDecimal(s: string): nat
    requires forall k :: 0 <= k < |s| ==> '0' <= s[k] <= '9'
    decreases |s|
  {
    if s == [] then 0
    else 10 * ParseDecimal(s[..|s| - 1]) + ((s[|s| - 1] as int) - ('0' as int))
  }

  lemma {:induction false} DecimalRoundTrip(n: nat)
    ensures ParseDecimal(Decimal(n)) == n
    decreases n
  {
    if n >= 10 {
      DecimalRoundTrip(n / 10);
      var s := Decimal(n);
      assert s[..|s| - 1] == Decimal(n / 10);
    }
  }

  lemma {:induction false} DecimalLength(n: nat)
    ensures n < 10 ==> |Decimal(n)| == 1
    ensures n < 100 ==> |Decimal(n)| <= 2
    ensures n < 1000 ==> |Decimal(n)| <= 3
  {
    if n >= 10 {
      DecimalLength(n / 10);
    }
  }

  const DevPrefix: string := "/dev/i2c-"

  /** The device file open_i2c opens for a bus. */
  function DevicePath(bus: u8): (p: string)
    ensures |DevPrefix| < |p| <= 12
    ensures p[..|DevPrefix|] == DevPrefix
  {
    DecimalLength(bus);
    DevPrefix + Decimal(bus)
  }

  /** The path always fits the 20-byte buffer with its terminator, and
      distinct buses name distinct device files. */
  lemma DevicePathFacts(a: u8, b: u8)
    ensures |DevicePath(a)| + 1 <= 20
    ensures DevicePath(a) == DevicePath(b) ==> a == b
  {
    if DevicePath(a) == DevicePath(b) {
      assert Decimal(a) == DevicePath(a)[|DevPrefix|..];
      assert Decimal(b) == DevicePath(b)[|DevPrefix|..];
      DecimalRoundTrip(a);
      DecimalRoundTrip(b);
    }
  }

  /** The SHTP frame open_i2c writes to reset the hub: length 5
      (little-endian), channel 1 (executable), sequence 0, payload 1
      (reset). */
  const ResetFrame: seq<u8> := [0x05, 0x00, 0x01, 0x00, 0x01]

  /** The reset frame is a well-formed SHTP frame: its header declares its
      own length, with no continuation, on the executable channel. */
  lemma ResetFrameIsWellFormed()
    ensures |ResetFrame| == 5
    ensures HeaderLength(ResetFrame[0], ResetFrame[1]) == |ResetFrame|
    ensures ResetFrame[1] < 0x80
    ensures ResetFrame[2] == 1 && ResetFrame[4] == 1
  {
  }

  // ---------------------------------------------------------------------
  // The HAL's state

  class Hal {
    /** CURRENT_I2C_SETTINGS */
    var settings: I2cSettings
    /** The statics of read_from_i2c. */
    var isRetry: bool
    var length: u16
    /** Every descriptor closed so far, in order. */
    ghost var closed: seq<int>

    /** Program start: every static is zero. */
    constructor ()
      ensures settings == ZeroSettings && !IsOpen(settings)
      ensures isRetry == false && length == 0 && closed == []
    {
      settings := ZeroSettings;
      isRetry := false;
      length := 0;
      closed := [];
    }

    function Reader(): ReaderState
      reads this
    {
      ReaderState(isRetry, length)
    }

    /** read_from_i2c. `len`, the size of the caller's buffer, takes no
        part: the body phase asks for length + 4 bytes whatever it is. */
    method ReadFromI2c(len: nat, i: ReadInput) returns (o: ReadOutput)
      modifies this`isRetry, this`length
      ensures (Reader(), o) == ReadStep(old(Reader()), i)
    {
      if !isRetry {
        var n := i.n;
        // On the little-endian host the conversion to host order is the identity.
        length := Mask15(LoadLe16(i.b0, i.b1));
        if n < 0 {
          return ReadOutput(0, 4, None);
        }
        if length == 0 {
          return ReadOutput(0, 4, None);
        }
        isRetry := true;
        return ReadOutput(0, 4, None);
      }
      var request := length + 4;
      if i.n < 0 {
        return ReadOutput(0, request, None);
      }
      isRetry := false;
      return ReadOutput(i.n, request, Some(i.nowUs));
    }

    /** open_i2c. `openResult` is what open() returned for the device path
        (-1 or a descriptor), `ioctlOk` whether selecting the slave address
        worked, `written` what write() returned for the reset frame. */
    method Open(openResult: int, ioctlOk: bool, written: int)
      returns (rc: int, path: Option<string>, frame: seq<u8>)
      requires openResult >= -1
      modifies this`settings, this`closed
      ensures settings.bus == old(settings.bus) && settings.addr == old(settings.addr)
      ensures old(IsOpen(settings)) ==>
        rc == 0 && path == None && frame == [] && settings == old(settings) && closed == old(closed)
      ensures !old(IsOpen(settings)) ==> path == Some(DevicePath(settings.bus))
      ensures !old(IsOpen(settings)) && openResult < 0 ==>
        rc == 1 && frame == [] && settings.fd == -1 && closed == old(closed)
      ensures !old(IsOpen(settings)) && openResult >= 0 && !ioctlOk ==>
        rc == 1 && frame == [] && settings.fd == -1 && closed == old(closed) + [openResult]
      ensures !old(IsOpen(settings)) && openResult >= 0 && ioctlOk ==>
        frame == ResetFrame && settings.fd == openResult && closed == old(closed) &&
        rc == (if written == 5 then SH2_OK else SH2_ERR)
    {
      frame := [];
      if settings.fd > 0 {
        return 0, None, frame;
      }
      path := Some(DevicePath(settings.bus));
      settings := settings.(fd := openResult);
      if settings.fd < 0 {
        return 1, path, frame;
      }
      if !ioctlOk {
        closed := closed + [settings.fd];
        settings := settings.(fd := -1);
        return 1, path, frame;
      }
      frame := ResetFrame;
      if written != 5 {
        return SH2_ERR, path, frame;
      }
      rc := 0;
    }

    /** close_i2c: close the descriptor if one is open and mark it invalid;
        otherwise nothing changes. The hub reset it asks the driver for
        first only affects a diagnostic. */
    method Close() returns (closedFd: Option<int>)
      modifies this`settings, this`closed
      ensures old(IsOpen(settings)) ==>
        closedFd == Some(old(settings.fd)) && settings == old(settings).(fd := -1) &&
        closed == old(closed) + [old(settings.fd)]
      ensures !old(IsOpen(settings)) ==>
        closedFd == None && settings == old(settings) && closed == old(closed)
      ensures !IsOpen(settings)
    {
      closedFd := None;
      if settings.fd > 0 {
        closedFd := Some(settings.fd);
        closed := closed + [settings.fd];
        settings := settings.(fd := -1);
      }
    }

    /** set_i2c_settings: replace the whole record; get_i2c_settings then
        returns exactly it. Nothing is closed. */
    method SetSettings(s: I2cSettings)
      modifies this`settings
      ensures settings == s
    {
      settings := s;
    }
  }
}
