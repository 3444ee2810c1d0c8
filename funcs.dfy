/** The N-API entry points of funcs.c that hold logic of their own: the
    argument parser shared by every entry point, the I2C settings setter
    and getter, and the bookkeeping of the callback cookie that
    cb_setSensorCallback and cb_sh2_open hand to the SH-2 driver.

    An exception thrown into JavaScript is returned as a list of
    (code, message) pairs, in the order the code throws them. Values the
    engine creates are assumed to be created; the JavaScript function and
    cookie arguments are opaque handles. */
module Funcs {
  import opened Common
  import opened JsValues
  import Sh2Hal

  // ---------------------------------------------------------------------
  // Errors

  /** The error codes of error.c used by these entry points. */
  const ARGUMENT_ERROR: Option<string> := Some("argument error")
  const UNKNOWN_ERROR: Option<string> := Some("unknown error happened with nodejs")
  const ERROR_CREATING_NAPI_VALUE: Option<string> := Some("couldn't create a napi value")
  const ERROR_INTERACTING_WITH_DRIVER: Option<string> := Some("some error happened with driver")

  /** napi_status. `Unknown` stands for any status added to N-API after
      the ones parse_args names. */
  datatype NapiStatus =
    | Ok | InvalidArg | ObjectExpected | StringExpected | NameExpected
    | FunctionExpected | NumberExpected | BooleanExpected | ArrayExpected
    | GenericFailure | PendingException | Cancelled | EscapeCalledTwice
    | HandleScopeMismatch | CallbackScopeMismatch | QueueFull | Closing
    | BigintExpected | DateExpected | ArraybufferExpected
    | DetachableArraybufferExpected | WouldDeadlock | NoExternalBuffersAllowed
    | CannotRunJs | Unknown(code: int)

  /** The message parse_args throws for a failed napi_get_cb_info. */
  function StatusMessage(s: NapiStatus): string {
    match s
    case Ok => ""
    case InvalidArg => "Invalid argument"
    case ObjectExpected => "Object expected"
    case StringExpected => "String expected"
    case NameExpected => "Name expected"
    case FunctionExpected => "Function expected"
    case NumberExpected => "Number expected"
    case BooleanExpected => "Boolean expected"
    case ArrayExpected => "Array expected"
    case GenericFailure => "Generic failure"
    case PendingException => "Pending exeption"
    case Cancelled => "Cancelled"
    case EscapeCalledTwice => "Escape called twice"
    case HandleScopeMismatch => "Scope mismatch"
    case CallbackScopeMismatch => "Callback scope mismatch"
    case QueueFull => "Napi queue full"
    case Closing => "Closing"
    case BigintExpected => "Bigint expected"
    case DateExpected => "Date expected"
    case ArraybufferExpected => "Arraybuffer expected"
    case DetachableArraybufferExpected => "Detatchable arraybuffer expected"
    case WouldDeadlock => "No external buffers allowed"
    case NoExternalBuffersAllowed => "No external buffers allowed"
    case CannotRunJs => "=D"
    case Unknown(_) => "A new, unexpected error happened."
  }

  const ArgcMessage: string := "Too many or too few arguments"

  // ---------------------------------------------------------------------
  // parse_args

  /** parse_args, given what napi_get_cb_info returned and the number of
      arguments it reported: None on success, otherwise the error thrown. */
  function ParseArgs(status: NapiStatus, argc: nat, argcMin: nat, argcMax: nat): (r: Option<Thrown>)
    ensures r == None <==> status == Ok && argcMin <= argc <= argcMax
    ensures status != Ok ==> r.Some? && r.value.message == StatusMessage(status)
    ensures status != Ok ==> (r.value.code == UNKNOWN_ERROR <==> status.Unknown?)
    ensures status == Ok && r.Some? ==> r.value == Thrown(ARGUMENT_ERROR, ArgcMessage)
  {
    if status != Ok then
      Some(Thrown(if status.Unknown? then UNKNOWN_ERROR else ARGUMENT_ERROR, StatusMessage(status)))
    else if argc < argcMin || argc > argcMax then
      Some(Thrown(ARGUMENT_ERROR, ArgcMessage))
    else None
  }

  /** The thrown error tells which check failed: a wrong argument count
      never shares its message with a failed napi_get_cb_info, and only a
      status parse_args does not know is reported as UNKNOWN_ERROR. */
  lemma ParseErrorIdentifiesCause(s: NapiStatus, argc: nat, lo: nat, hi: nat)
    requires s != Ok
    ensures ParseArgs(s, argc, lo, hi) != ParseArgs(Ok, argc, lo, hi)
    ensures ParseArgs(s, argc, lo, hi).value.code == UNKNOWN_ERROR <==> s.Unknown?
  {
    assert |StatusMessage(s)| != |ArgcMessage|;
  }

  // ---------------------------------------------------------------------
  // cb_setI2CSettings / cb_getI2CSettings

  const RangeMessage: string := "Probably argument out of range. Settings not set. fn: cb_setI2CSettings"

  /** The decision of cb_setI2CSettings. */
  datatype I2cArgs = Rejected(errors: seq<Thrown>) | Valid(bus: u8, addr: u8)

  /** The checks of cb_setI2CSettings on its arguments: exactly two, both
      numbers, both at most 0xFF once converted to uint32. */
  function CheckI2cArgs(status: NapiStatus, args: seq<JsValue>): (r: I2cArgs)
    ensures r.Valid? <==>
      && status == Ok && |args| == 2
      && args[0].JsNumber? && args[1].JsNumber?
      && ToUint32(args[0].n) <= 0xFF && ToUint32(args[1].n) <= 0xFF
    ensures r.Valid? ==> r.bus == ToUint32(args[0].n) && r.addr == ToUint32(args[1].n)
    ensures r.Rejected? ==> |r.errors| == 1
    ensures r.Rejected? && status == Ok && |args| == 2 ==> r.errors == [Thrown(ARGUMENT_ERROR, RangeMessage)]
  {
    match ParseArgs(status, |args|, 2, 2)
    case Some(e) => Rejected([e])
    case None =>
      var bus := GetUint32(args[0]);
      var addr := GetUint32(args[1]);
      if bus.None? || addr.None? || bus.value > 0xFF || addr.value > 0xFF then
        Rejected([Thrown(ARGUMENT_ERROR, RangeMessage)])
      else Valid(bus.value, addr.value)
  }

  /** A number is converted by the engine before the range check, so a bus
      of 2^32 + 1 passes it as bus 1, and -1 is rejected as 0xFFFFFFFF. */
  lemma RangeCheckSeesConvertedValue()
    ensures CheckI2cArgs(Ok, [JsNumber(0x1_0000_0001 as real), JsNumber(0x4b as real)]) == Valid(1, 0x4b)
    ensures CheckI2cArgs(Ok, [JsNumber(-1.0), JsNumber(0x4b as real)]).Rejected?
  {
  }

  /** cb_setI2CSettings: on valid arguments the whole stored record is
      replaced, descriptor included, so a device that was open counts as
      closed while its descriptor is never closed; on invalid ones nothing
      changes. */
  method CbSetI2cSettings(hal: Sh2Hal.Hal, status: NapiStatus, args: seq<JsValue>)
    returns (thrown: seq<Thrown>)
    modifies hal`settings
    ensures var r := CheckI2cArgs(status, args);
      && (thrown == [] <==> r.Valid?)
      && (r.Valid? ==> hal.settings == Sh2Hal.I2cSettings(r.bus, r.addr, 0) && !Sh2Hal.IsOpen(hal.settings))
      && (r.Rejected? ==> thrown == r.errors && hal.settings == old(hal.settings))
    ensures hal.closed == old(hal.closed)
  {
    var r := CheckI2cArgs(status, args);
    if r.Rejected? {
      return r.errors;
    }
    hal.SetSettings(Sh2Hal.I2cSettings(r.bus, r.addr, 0));
    thrown := [];
  }

  /** The object cb_getI2CSettings returns for a stored record. */
  function SettingsObject(s: Sh2Hal.I2cSettings): (o: map<string, JsValue>)
    ensures o.Keys == {"bus", "addr"}
    ensures GetUint32(o["bus"]) == Some(s.bus as u32) && GetUint32(o["addr"]) == Some(s.addr as u32)
  {
    ToUint32OfUint32(s.bus);
    ToUint32OfUint32(s.addr);
    map["bus" := JsNumber(s.bus as real), "addr" := JsNumber(s.addr as real)]
  }

  /** cb_getI2CSettings: the stored bus and address, as numbers. */
  method CbGetI2cSettings(hal: Sh2Hal.Hal) returns (obj: map<string, JsValue>)
    ensures obj == SettingsObject(hal.settings)
  {
    obj := map["bus" := JsNumber(hal.settings.bus as real), "addr" := JsNumber(hal.settings.addr as real)];
  }

  /** Setting and then getting: the getter hands back the values the setter
      accepted, and the very numbers passed in when they were integers. */
  lemma I2cSettingsRoundTrip(status: NapiStatus, args: seq<JsValue>)
    requires CheckI2cArgs(status, args).Valid?
    ensures var r := CheckI2cArgs(status, args);
      var o := SettingsObject(Sh2Hal.I2cSettings(r.bus, r.addr, 0));
      GetUint32(o["bus"]) == GetUint32(args[0]) && GetUint32(o["addr"]) == GetUint32(args[1])
    ensures forall b: u8, a: u8 :: args == [JsNumber(b as real), JsNumber(a as real)] ==>
      SettingsObject(Sh2Hal.I2cSettings(b, a, 0)) == map["bus" := args[0], "addr" := args[1]]
  {
  }

  /** The repository's test: setI2CConfig(1, 0x4b) and then getI2CConfig()
      gives {bus: 1, addr: 0x4b}. */
  method SetThenGetDefaultDevice() returns (obj: map<string, JsValue>)
    ensures obj == map["bus" := JsNumber(1.0), "addr" := JsNumber(0x4b as real)]
  {
    var hal := new Sh2Hal.Hal();
    var thrown := CbSetI2cSettings(hal, Ok, [JsNumber(1.0), JsNumber(0x4b as real)]);
    obj := CbGetI2cSettings(hal);
  }

  // ---------------------------------------------------------------------
  // The callback cookie

  /** An opaque handle to a JavaScript value (the function or the cookie
      argument). */
  type Handle = nat

  /** cb_cookie_t: the JavaScript function and the cookie passed back to it;
      a reference to each is held while the cookie is allocated. */
  datatype CbCookie = CbCookie(jsFn: Handle, jsCookie: Handle)

  const SetCallbackParseMessage: string := "Couldn't parse arguments in cb_setSensorCallback"
  const OpenParseMessage: string := "Couldn't parse arguments in cb_sh2_open"
  const GlobalMessage: string := "Couldn't get value this from napi"
  const CookieAllocMessage: string :=
    "Couldn't allocate memory for cookie to use for sensor callback"

  /** The static _sensor_callback of funcs.c, the heap cookies, and what the
      driver was handed. Cookies are numbered in allocation order; a
      cookie is in `cookies` from its malloc to its free, and its two
      references are held exactly as long. */
  class Registry {
    /** _sensor_callback */
    var current: Option<nat>
    /** The allocated, not yet freed cookies. */
    var cookies: map<nat, CbCookie>
    /** The number of the next cookie malloc returns. */
    var next: nat
    /** The cookie last passed to sh2_setSensorCallback. */
    var sensorCookie: Option<nat>
    /** The event cookie the driver holds: that of the last sh2_open, which
        is None when that open failed, since a driver that failed to open
        reports no events. */
    var eventCookie: Option<nat>

    /** What funcs.c keeps: one registration at most, and it is the only
        allocated cookie. */
    predicate Valid()
      reads this
    {
      && cookies.Keys == (if current.Some? then {current.value} else {})
      && (forall id :: id in cookies ==> id < next)
    }

    /** Whether every cookie the driver may call back with is still
        allocated. */
    predicate DriverCookiesLive()
      reads this
    {
      && (sensorCookie.Some? ==> sensorCookie.value in cookies)
      && (eventCookie.Some? ==> eventCookie.value in cookies)
    }

    /** Program start: no registration. */
    constructor ()
      ensures Valid() && DriverCookiesLive()
      ensures current == None && cookies == map[] && sensorCookie == None && eventCookie == None
    {
      current, cookies, next := None, map[], 0;
      sensorCookie, eventCookie := None, None;
    }

    /** Deleting both references of the current cookie and freeing it. */
    method Release()
      requires Valid()
      modifies this`current, this`cookies
      ensures Valid() && current == None && cookies == map[]
    {
      if current.Some? {
        cookies := cookies - {current.value};
        current := None;
      }
    }

    /** cb_setSensorCallback: parse the two arguments, allocate a cookie,
        release the previous registration, store the new one and hand it
        to the driver as its sensor cookie. */
    method SetSensorCallback(status: NapiStatus, argc: nat, jsFn: Handle, jsCookie: Handle, mallocOk: bool)
      returns (thrown: seq<Thrown>)
      requires Valid()
      modifies this
      ensures Valid()
      ensures ParseArgs(status, argc, 2, 2).Some? ==>
        thrown == [ParseArgs(status, argc, 2, 2).value, Thrown(ARGUMENT_ERROR, SetCallbackParseMessage)] &&
        current == old(current) && cookies == old(cookies) && sensorCookie == old(sensorCookie)
      ensures ParseArgs(status, argc, 2, 2).None? && !mallocOk ==>
        thrown == [Thrown(ERROR_CREATING_NAPI_VALUE, CookieAllocMessage)] &&
        current == old(current) && cookies == old(cookies) && sensorCookie == old(sensorCookie)
      ensures ParseArgs(status, argc, 2, 2).None? && mallocOk ==>
        thrown == [] && current == Some(old(next)) && sensorCookie == current &&
        cookies == map[old(next) := CbCookie(jsFn, jsCookie)]
      ensures eventCookie == old(eventCookie)
    {
      var e := ParseArgs(status, argc, 2, 2);
      if e.Some? {
        return [e.value, Thrown(ARGUMENT_ERROR, SetCallbackParseMessage)];
      }
      if !mallocOk {
        return [Thrown(ERROR_CREATING_NAPI_VALUE, CookieAllocMessage)];
      }
      var id := next;
      next := next + 1;
      Release();
      cookies := cookies[id := CbCookie(jsFn, jsCookie)];
      current := Some(id);
      sensorCookie := current;
      thrown := [];
    }

    /** cb_sh2_open: fetch the global object, parse the two arguments,
        release the previous registration, allocate and store a new cookie
        (the allocation is not checked), and open the driver with it as the
        event cookie. `openStatus` is what sh2_open returned. */
    method Sh2Open(globalOk: bool, status: NapiStatus, argc: nat, jsFn: Handle, jsCookie: Handle, openStatus: int)
      returns (thrown: seq<Thrown>)
      requires Valid()
      modifies this
      ensures Valid()
      ensures !globalOk ==>
        thrown == [Thrown(ARGUMENT_ERROR, GlobalMessage)] &&
        current == old(current) && cookies == old(cookies) && eventCookie == old(eventCookie)
      ensures globalOk && ParseArgs(status, argc, 2, 2).Some? ==>
        thrown == [ParseArgs(status, argc, 2, 2).value, Thrown(ARGUMENT_ERROR, OpenParseMessage)] &&
        current == old(current) && cookies == old(cookies) && eventCookie == old(eventCookie)
      ensures globalOk && ParseArgs(status, argc, 2, 2).None? ==>
        current == Some(old(next)) && cookies == map[old(next) := CbCookie(jsFn, jsCookie)] &&
        eventCookie == (if openStatus == 0 then current else None) &&
        thrown == (if openStatus == 0 then [] else [Thrown(ERROR_INTERACTING_WITH_DRIVER, "Couldn't open the sh2 device")])
      ensures sensorCookie == old(sensorCookie)
    {
      if !globalOk {
        return [Thrown(ARGUMENT_ERROR, GlobalMessage)];
      }
      var e := ParseArgs(status, argc, 2, 2);
      if e.Some? {
        return [e.value, Thrown(ARGUMENT_ERROR, OpenParseMessage)];
      }
      Release();
      var id := next;
      next := next + 1;
      cookies := cookies[id := CbCookie(jsFn, jsCookie)];
      current := Some(id);
      thrown := [];
      if openStatus == 0 {
        eventCookie := current;
      } else {
        eventCookie := None;
        thrown := [Thrown(ERROR_INTERACTING_WITH_DRIVER, "Couldn't open the sh2 device")];
      }
    }
  }

  /** Opening the driver and then registering a sensor callback frees the
      cookie the driver was opened with: async_event_callback_broker is
      then called with a freed cookie. */
  method OpenThenSetCallbackFreesEventCookie() returns (r: Registry)
    ensures r.Valid()
    ensures r.eventCookie.Some? && r.eventCookie.value !in r.cookies
    ensures !r.DriverCookiesLive()
  {
    r := new Registry();
    var t1 := r.Sh2Open(true, Ok, 2, 10, 11, 0);
    var t2 := r.SetSensorCallback(Ok, 2, 20, 21, true);
  }

  /** The bookkeeping the two entry points evidently intend: each keeps its
      own cookie and replaces only that one, so the driver never holds a
      freed cookie. */
  class SeparateRegistry {
    /** The cookie of cb_setSensorCallback. */
    var sensorSlot: Option<nat>
    /** The cookie of cb_sh2_open. */
    var eventSlot: Option<nat>
    var cookies: map<nat, CbCookie>
    var next: nat
    var sensorCookie: Option<nat>
    var eventCookie: Option<nat>

    /** At most one cookie per role, no other cookie allocated, and every
        cookie the driver holds still allocated. */
    predicate Valid()
      reads this
    {
      && cookies.Keys == (if sensorSlot.Some? then {sensorSlot.value} else {}) +
                         (if eventSlot.Some? then {eventSlot.value} else {})
      && (forall id :: id in cookies ==> id < next)
      && (sensorSlot.Some? && eventSlot.Some? ==> sensorSlot.value != eventSlot.value)
      && (sensorCookie.Some? ==> sensorCookie == sensorSlot)
      && (eventCookie.Some? ==> eventCookie == eventSlot)
    }

    predicate DriverCookiesLive()
      reads this
    {
      && (sensorCookie.Some? ==> sensorCookie.value in cookies)
      && (eventCookie.Some? ==> eventCookie.value in cookies)
    }

    lemma ValidMeansLive()
      requires Valid()
      ensures DriverCookiesLive()
    {
    }

    constructor ()
      ensures Valid() && DriverCookiesLive()
      ensures sensorSlot == None && eventSlot == None && cookies == map[]
    {
      sensorSlot, eventSlot, cookies, next := None, None, map[], 0;
      sensorCookie, eventCookie := None, None;
    }

    /** cb_setSensorCallback with its own slot: the new cookie replaces only
        the previous sensor cookie. */
    method SetSensorCallback(status: NapiStatus, argc: nat, jsFn: Handle, jsCookie: Handle, mallocOk: bool)
      returns (thrown: seq<Thrown>)
      requires Valid()
      modifies this
      ensures Valid() && DriverCookiesLive()
      ensures eventSlot == old(eventSlot) && eventCookie == old(eventCookie)
      ensures old(eventSlot).Some? ==> cookies[old(eventSlot).value] == old(cookies)[old(eventSlot).value]
      ensures ParseArgs(status, argc, 2, 2).None? && mallocOk ==>
        thrown == [] && sensorSlot == Some(old(next)) && sensorCookie == sensorSlot &&
        cookies[old(next)] == CbCookie(jsFn, jsCookie)
      ensures !(ParseArgs(status, argc, 2, 2).None? && mallocOk) ==>
        thrown != [] && sensorSlot == old(sensorSlot) && cookies == old(cookies)
    {
      var e := ParseArgs(status, argc, 2, 2);
      if e.Some? {
        return [e.value, Thrown(ARGUMENT_ERROR, SetCallbackParseMessage)];
      }
      if !mallocOk {
        return [Thrown(ERROR_CREATING_NAPI_VALUE, CookieAllocMessage)];
      }
      var id := next;
      next := next + 1;
      if sensorSlot.Some? {
        cookies := cookies - {sensorSlot.value};
      }
      cookies := cookies[id := CbCookie(jsFn, jsCookie)];
      sensorSlot := Some(id);
      sensorCookie := sensorSlot;
      thrown := [];
    }

    /** cb_sh2_open with its own slot: the new cookie replaces only the
        previous event cookie. */
    method Sh2Open(globalOk: bool, status: NapiStatus, argc: nat, jsFn: Handle, jsCookie: Handle, openStatus: int)
      returns (thrown: seq<Thrown>)
      requires Valid()
      modifies this
      ensures Valid() && DriverCookiesLive()
      ensures sensorSlot == old(sensorSlot) && sensorCookie == old(sensorCookie)
      ensures old(sensorSlot).Some? ==> cookies[old(sensorSlot).value] == old(cookies)[old(sensorSlot).value]
      ensures globalOk && ParseArgs(status, argc, 2, 2).None? ==>
        eventSlot == Some(old(next)) && cookies[old(next)] == CbCookie(jsFn, jsCookie) &&
        eventCookie == (if openStatus == 0 then eventSlot else None)
      ensures !(globalOk && ParseArgs(status, argc, 2, 2).None?) ==>
        thrown != [] && eventSlot == old(eventSlot) && cookies == old(cookies)
    {
      if !globalOk {
        return [Thrown(ARGUMENT_ERROR, GlobalMessage)];
      }
      var e := ParseArgs(status, argc, 2, 2);
      if e.Some? {
        return [e.value, Thrown(ARGUMENT_ERROR, OpenParseMessage)];
      }
      var id := next;
      next := next + 1;
      if eventSlot.Some? {
        cookies := cookies - {eventSlot.value};
      }
      cookies := cookies[id := CbCookie(jsFn, jsCookie)];
      eventSlot := Some(id);
      thrown := [];
      if openStatus == 0 {
        eventCookie := eventSlot;
      } else {
        eventCookie := None;
        thrown := [Thrown(ERROR_INTERACTING_WITH_DRIVER, "Couldn't open the sh2 device")];
      }
    }
  }

  /** The same sequence of calls on the separate registry leaves both of
      the driver's cookies allocated. */
  method OpenThenSetCallbackKeepsEventCookie() returns (r: SeparateRegistry)
    ensures r.Valid() && r.DriverCookiesLive()
    ensures r.eventCookie.Some? && r.eventCookie.value in r.cookies
    ensures r.cookies[r.eventCookie.value] == CbCookie(10, 11)
  {
    r := new SeparateRegistry();
    var t1 := r.Sh2Open(true, Ok, 2, 10, 11, 0);
    var t2 := r.SetSensorCallback(Ok, 2, 20, 21, true);
  }
}
