/** Webhooks: the four management calls (setup, query, update, delete) and the
    parser for the events SwitchBot posts to a registered URL. The parser first
    peeks at `context.deviceType`, puts back the bytes it read, and then decodes
    the whole body into the event type the device type names. */
module Webhook {
  import opened Wrappers
  import opened Text
  import opened Json

  // ---------------------------------------------------------------------
  // Device types and events

  /** The device types a webhook event can come from, one event type each. */
  datatype EventKind =
    | Motion | Contact | SmartLock | IndoorCam | PanTiltCam | ColorBulb | StripLight
    | PlugMiniUS | PlugMiniJP | Meter | MeterPlus

  /** The `context.deviceType` token that selects each event type. */
  function TokenOf(k: EventKind): string {
    match k
    case Motion => "WoPresence"
    case Contact => "WoContact"
    case SmartLock => "WoLock"
    case IndoorCam => "WoCamera"
    case PanTiltCam => "WoPanTiltCam"
    case ColorBulb => "WoBulb"
    case StripLight => "WoStrip"
    case PlugMiniUS => "WoPlugUS"
    case PlugMiniJP => "WoPlugJP"
    case Meter => "WoMeter"
    case MeterPlus => "WoMeterPlus"
  }

  /** The dispatch of `ParseWebhookRequest`: an exact, case-sensitive match. */
  function KindOf(token: string): (r: Option<EventKind>)
    ensures r.Some? ==> TokenOf(r.value) == token
  {
    if token == "WoPresence" then Some(Motion)
    else if token == "WoContact" then Some(Contact)
    else if token == "WoLock" then Some(SmartLock)
    else if token == "WoCamera" then Some(IndoorCam)
    else if token == "WoPanTiltCam" then Some(PanTiltCam)
    else if token == "WoBulb" then Some(ColorBulb)
    else if token == "WoStrip" then Some(StripLight)
    else if token == "WoPlugUS" then Some(PlugMiniUS)
    else if token == "WoPlugJP" then Some(PlugMiniJP)
    else if token == "WoMeter" then Some(Meter)
    else if token == "WoMeterPlus" then Some(MeterPlus)
    else None
  }

  /** Every device type's token selects that device type. */
  lemma KindOfToken(k: EventKind)
    ensures KindOf(TokenOf(k)) == Some(k)
  {
    match k
    case Motion =>
    case Contact =>
    case SmartLock =>
    case IndoorCam =>
    case PanTiltCam =>
    case ColorBulb =>
    case StripLight =>
    case PlugMiniUS =>
    case PlugMiniJP =>
    case Meter =>
    case MeterPlus =>
  }

  /** The dispatch is one-to-one: no two device types share a token. */
  lemma TokensDistinct(a: EventKind, b: EventKind)
    requires TokenOf(a) == TokenOf(b)
    ensures a == b
  {
    KindOfToken(a);
    KindOfToken(b);
  }

  /** The fields every event carries. */
  datatype EventHeader = EventHeader(
    eventType: string, eventVersion: string,
    deviceType: string, deviceMac: string, timeOfSample: Int64)

  /** The eleven event records. The contact sensor's `brightness` is the
      ambient word; the lights' `brightness` is a number. */
  datatype Event =
    | MotionSensorEvent(header: EventHeader, detectionState: string)
    | ContactSensorEvent(header: EventHeader, detectionState: string, doorMode: string, ambientBrightness: string, openState: string)
    | LockEvent(header: EventHeader, lockState: string)
    | IndoorCamEvent(header: EventHeader, detectionState: string)
    | PanTiltCamEvent(header: EventHeader, detectionState: string)
    | ColorBulbEvent(header: EventHeader, powerState: string, brightness: Int64, color: string, colorTemperature: Int64)
    | StripLightEvent(header: EventHeader, powerState: string, brightness: Int64, color: string)
    | PlugMiniUSEvent(header: EventHeader, powerState: string)
    | PlugMiniJPEvent(header: EventHeader, powerState: string)
    | MeterEvent(header: EventHeader, temperature: Float64, scale: string, humidity: Int64)
    | MeterPlusEvent(header: EventHeader, temperature: Float64, scale: string, humidity: Int64)

  function KindOfEvent(e: Event): EventKind {
    match e
    case MotionSensorEvent(_, _) => Motion
    case ContactSensorEvent(_, _, _, _, _) => Contact
    case LockEvent(_, _) => SmartLock
    case IndoorCamEvent(_, _) => IndoorCam
    case PanTiltCamEvent(_, _) => PanTiltCam
    case ColorBulbEvent(_, _, _, _, _) => ColorBulb
    case StripLightEvent(_, _, _, _) => StripLight
    case PlugMiniUSEvent(_, _) => PlugMiniUS
    case PlugMiniJPEvent(_, _) => PlugMiniJP
    case MeterEvent(_, _, _, _) => Meter
    case MeterPlusEvent(_, _, _, _) => MeterPlus
  }

  /** The Go type names that appear in decoding errors. */
  function EventTypeName(k: EventKind): string {
    match k
    case Motion => "MotionSensorEvent"
    case Contact => "ContactSensorEvent"
    case SmartLock => "LockEvent"
    case IndoorCam => "IndoorCamEvent"
    case PanTiltCam => "PanTiltCamEvent"
    case ColorBulb => "ColorBulbEvent"
    case StripLight => "StripLightEvent"
    case PlugMiniUS => "PlugMiniUSEvent"
    case PlugMiniJP => "PlugMiniJPEvent"
    case Meter => "MeterEvent"
    case MeterPlus => "MeterPlusEvent"
  }

  function ContextTypeName(k: EventKind): string {
    EventTypeName(k) + "Context"
  }

  // ---------------------------------------------------------------------
  // Decoding a JSON value into an event

  /** A struct member of type `string`, `int`/`int64` or `float64`: absent or
      null keeps the zero value. */
  function StrField(ms: seq<(string, JValue)>, key: string, path: string): Result<string, Error> {
    DecodeString(Member(ms, key), "", path)
  }

  function IntField(ms: seq<(string, JValue)>, key: string, goType: string, path: string): Result<Int64, Error> {
    DecodeInt(Member(ms, key), 0, goType, path)
  }

  function FloatField(ms: seq<(string, JValue)>, key: string, path: string): Result<Float64, Error> {
    DecodeFloat(Member(ms, key), FloatZero, path)
  }

  /** The `context` object of an event body, as the peek and the full decode
      both read it. */
  function ContextOf(v: JValue, topType: string, contextType: string): Result<seq<(string, JValue)>, Error> {
    var top :- DecodeStruct(v, topType, "");
    DecodeStruct(Member(top, "context"), contextType, "context")
  }

  /** The Go type of the anonymous struct the peek decodes into. */
  const PeekType := "struct { Context struct { DeviceType string } }"
  const PeekContextType := "struct { DeviceType string }"

  /** `deviceTypeFromWebhookRequest` on an already decoded value: the string at
      `context.deviceType`, empty when it is missing. */
  function PeekDeviceType(v: JValue): (r: Result<string, Error>)
    ensures ContextOf(v, PeekType, PeekContextType).Failure? ==>
      r == Failure(ContextOf(v, PeekType, PeekContextType).error)
    ensures var c := ContextOf(v, PeekType, PeekContextType);
      c.Success? && Member(c.value, "deviceType") == JNull ==> r == Success("")
    ensures var c := ContextOf(v, PeekType, PeekContextType);
      c.Success? && Member(c.value, "deviceType").JStr? ==> r == Success(Member(c.value, "deviceType").s)
    ensures var c := ContextOf(v, PeekType, PeekContextType);
      c.Success? && !Member(c.value, "deviceType").JNull? && !Member(c.value, "deviceType").JStr? ==>
        r == Failure(UnmarshalTypeError(KindName(Member(c.value, "deviceType")), "string", "context.deviceType"))
  {
    var ctx :- ContextOf(v, PeekType, PeekContextType);
    StrField(ctx, "deviceType", "context.deviceType")
  }

  /** The fields each event type adds to the header. */
  function DecodeContext(k: EventKind, h: EventHeader, ctx: seq<(string, JValue)>): (r: Result<Event, Error>)
    ensures r.Success? ==> KindOfEvent(r.value) == k && r.value.header == h
  {
    match k
    case Motion =>
      var detection :- StrField(ctx, "detectionState", "context.detectionState");
      Success(MotionSensorEvent(h, detection))
    case Contact =>
      var detection :- StrField(ctx, "detectionState", "context.detectionState");
      var doorMode :- StrField(ctx, "doorMode", "context.doorMode");
      var brightness :- StrField(ctx, "brightness", "context.brightness");
      var openState :- StrField(ctx, "openState", "context.openState");
      Success(ContactSensorEvent(h, detection, doorMode, brightness, openState))
    case SmartLock =>
      var lockState :- StrField(ctx, "lockState", "context.lockState");
      Success(LockEvent(h, lockState))
    case IndoorCam =>
      var detection :- StrField(ctx, "detectionState", "context.detectionState");
      Success(IndoorCamEvent(h, detection))
    case PanTiltCam =>
      var detection :- StrField(ctx, "detectionState", "context.detectionState");
      Success(PanTiltCamEvent(h, detection))
    case ColorBulb =>
      var power :- StrField(ctx, "powerState", "context.powerState");
      var brightness :- IntField(ctx, "brightness", "int", "context.brightness");
      var color :- StrField(ctx, "color", "context.color");
      var temperature :- IntField(ctx, "colorTemperature", "int", "context.colorTemperature");
      Success(ColorBulbEvent(h, power, brightness, color, temperature))
    case StripLight =>
      var power :- StrField(ctx, "powerState", "context.powerState");
      var brightness :- IntField(ctx, "brightness", "int", "context.brightness");
      var color :- StrField(ctx, "color", "context.color");
      Success(StripLightEvent(h, power, brightness, color))
    case PlugMiniUS =>
      var power :- StrField(ctx, "powerState", "context.powerState");
      Success(PlugMiniUSEvent(h, power))
    case PlugMiniJP =>
      var power :- StrField(ctx, "powerState", "context.powerState");
      Success(PlugMiniJPEvent(h, power))
    case Meter =>
      var temperature :- FloatField(ctx, "temperature", "context.temperature");
      var scale :- StrField(ctx, "scale", "context.scale");
      var humidity :- IntField(ctx, "humidity", "int", "context.humidity");
      Success(MeterEvent(h, temperature, scale, humidity))
    case MeterPlus =>
      var temperature :- FloatField(ctx, "temperature", "context.temperature");
      var scale :- StrField(ctx, "scale", "context.scale");
      var humidity :- IntField(ctx, "humidity", "int", "context.humidity");
      Success(MeterPlusEvent(h, temperature, scale, humidity))
  }

  /** Decoding a body into the event record of kind `k`. */
  function DecodeEvent(k: EventKind, v: JValue): (r: Result<Event, Error>)
    ensures r.Success? ==> KindOfEvent(r.value) == k
    ensures r.Success? ==> PeekDeviceType(v) == Success(r.value.header.deviceType)
  {
    var top :- DecodeStruct(v, EventTypeName(k), "");
    var eventType :- StrField(top, "eventType", "eventType");
    var eventVersion :- StrField(top, "eventVersion", "eventVersion");
    var ctx :- DecodeStruct(Member(top, "context"), ContextTypeName(k), "context");
    var deviceType :- StrField(ctx, "deviceType", "context.deviceType");
    var deviceMac :- StrField(ctx, "deviceMac", "context.deviceMac");
    var time :- IntField(ctx, "timeOfSample", "int64", "context.timeOfSample");
    DecodeContext(k, EventHeader(eventType, eventVersion, deviceType, deviceMac, time), ctx)
  }

  function UnknownDeviceType(token: string): Error {
    Message("unknown device type: " + token)
  }

  /** `ParseWebhookRequest` on an already decoded body: peek the device type,
      then decode the body into the event type it names. */
  function ParseWebhook(v: JValue): (r: Result<Event, Error>)
    ensures PeekDeviceType(v).Failure? ==> r == Failure(PeekDeviceType(v).error)
    ensures PeekDeviceType(v).Success? && KindOf(PeekDeviceType(v).value).None? ==>
      r == Failure(UnknownDeviceType(PeekDeviceType(v).value))
    ensures r.Success? ==>
      && PeekDeviceType(v) == Success(r.value.header.deviceType)
      && KindOf(r.value.header.deviceType) == Some(KindOfEvent(r.value))
  {
    var token :- PeekDeviceType(v);
    match KindOf(token)
    case None => Failure(UnknownDeviceType(token))
    case Some(k) => DecodeEvent(k, v)
  }

  /** A body whose context decodes but lacks `deviceType` (or holds null
      there) gives the empty token, which no event type claims. */
  lemma MissingDeviceTypeFails(v: JValue)
    requires ContextOf(v, PeekType, PeekContextType).Success?
    requires Member(ContextOf(v, PeekType, PeekContextType).value, "deviceType") == JNull
    ensures ParseWebhook(v) == Failure(UnknownDeviceType(""))
  {
    assert PeekDeviceType(v) == Success("");
    assert KindOf("") == None;
  }

  // ---------------------------------------------------------------------
  // Writing an event as the service does, and reading it back

  function HeaderMembers(h: EventHeader): seq<(string, JValue)> {
    [("deviceType", JStr(h.deviceType)), ("deviceMac", JStr(h.deviceMac)), ("timeOfSample", JInt(h.timeOfSample))]
  }

  function ContextMembers(e: Event): seq<(string, JValue)> {
    match e
    case MotionSensorEvent(_, d) => [("detectionState", JStr(d))]
    case ContactSensorEvent(_, d, m, b, o) =>
      [("detectionState", JStr(d)), ("doorMode", JStr(m)), ("brightness", JStr(b)), ("openState", JStr(o))]
    case LockEvent(_, s) => [("lockState", JStr(s))]
    case IndoorCamEvent(_, d) => [("detectionState", JStr(d))]
    case PanTiltCamEvent(_, d) => [("detectionState", JStr(d))]
    case ColorBulbEvent(_, p, b, c, t) =>
      [("powerState", JStr(p)), ("brightness", JInt(b)), ("color", JStr(c)), ("colorTemperature", JInt(t))]
    case StripLightEvent(_, p, b, c) => [("powerState", JStr(p)), ("brightness", JInt(b)), ("color", JStr(c))]
    case PlugMiniUSEvent(_, p) => [("powerState", JStr(p))]
    case PlugMiniJPEvent(_, p) => [("powerState", JStr(p))]
    case MeterEvent(_, t, s, hu) => [("temperature", JFrac(t.literal)), ("scale", JStr(s)), ("humidity", JInt(hu))]
    case MeterPlusEvent(_, t, s, hu) => [("temperature", JFrac(t.literal)), ("scale", JStr(s)), ("humidity", JInt(hu))]
  }

  /** An event body in the layout of the service's examples. */
  function EncodeEvent(e: Event): JValue {
    JObj([
      ("eventType", JStr(e.header.eventType)),
      ("eventVersion", JStr(e.header.eventVersion)),
      ("context", JObj(HeaderMembers(e.header) + ContextMembers(e)))])
  }

  /** The names of the header fields, which no event type reuses. */
  predicate IsHeaderKey(key: string) {
    key == "deviceType" || key == "deviceMac" || key == "timeOfSample"
  }

  lemma ContextKeysAreNotHeaderKeys(e: Event)
    ensures forall i :: 0 <= i < |ContextMembers(e)| ==> !IsHeaderKey(ContextMembers(e)[i].0)
  {
  }

  /** The header fields read back from the context an event is written with. */
  lemma HeaderRoundTrip(e: Event)
    ensures var ctx := HeaderMembers(e.header) + ContextMembers(e);
      && StrField(ctx, "deviceType", "context.deviceType") == Success(e.header.deviceType)
      && StrField(ctx, "deviceMac", "context.deviceMac") == Success(e.header.deviceMac)
      && IntField(ctx, "timeOfSample", "int64", "context.timeOfSample") == Success(e.header.timeOfSample)
  {
    ContextKeysAreNotHeaderKeys(e);
    HeaderBeforeRest(e.header, ContextMembers(e));
  }

  /** The header members read back whatever follows them, as long as no later
      member repeats a header key. */
  lemma HeaderBeforeRest(h: EventHeader, rest: seq<(string, JValue)>)
    requires forall i :: 0 <= i < |rest| ==> !IsHeaderKey(rest[i].0)
    ensures Member(HeaderMembers(h) + rest, "deviceType") == JStr(h.deviceType)
    ensures Member(HeaderMembers(h) + rest, "deviceMac") == JStr(h.deviceMac)
    ensures Member(HeaderMembers(h) + rest, "timeOfSample") == JInt(h.timeOfSample)
  {
    assert HeaderMembers(h) == [] + [("deviceType", JStr(h.deviceType)), ("deviceMac", JStr(h.deviceMac)), ("timeOfSample", JInt(h.timeOfSample))];
    Members3([], "deviceType", JStr(h.deviceType), "deviceMac", JStr(h.deviceMac), "timeOfSample", JInt(h.timeOfSample));
    MemberBefore(HeaderMembers(h), rest, "deviceType");
    MemberBefore(HeaderMembers(h), rest, "deviceMac");
    MemberBefore(HeaderMembers(h), rest, "timeOfSample");
  }

  /** The type-specific fields read back from the context an event is written
      with. */
  lemma ContextRoundTrip(e: Event)
    ensures DecodeContext(KindOfEvent(e), e.header, HeaderMembers(e.header) + ContextMembers(e)) == Success(e)
  {
    match e
    case MotionSensorEvent(_, _) =>
    case ContactSensorEvent(_, _, _, _, _) => ContactRoundTrip(e);
    case LockEvent(_, _) =>
    case IndoorCamEvent(_, _) =>
    case PanTiltCamEvent(_, _) =>
    case ColorBulbEvent(_, _, _, _, _) => ColorBulbRoundTrip(e);
    case StripLightEvent(_, _, _, _) => StripLightRoundTrip(e);
    case PlugMiniUSEvent(_, _) =>
    case PlugMiniJPEvent(_, _) =>
    case MeterEvent(_, _, _, _) => MeterRoundTrip(e);
    case MeterPlusEvent(_, _, _, _) => MeterRoundTrip(e);
  }

  lemma ContactRoundTrip(e: Event)
    requires e.ContactSensorEvent?
    ensures DecodeContext(Contact, e.header, HeaderMembers(e.header) + ContextMembers(e)) == Success(e)
  {
    var ContactSensorEvent(h, d, m, b, o) := e;
    var ctx := HeaderMembers(h) + [("detectionState", JStr(d)), ("doorMode", JStr(m)), ("brightness", JStr(b)), ("openState", JStr(o))];
    assert ContextMembers(e) == ctx[3..];
    Members4(HeaderMembers(h), "detectionState", JStr(d), "doorMode", JStr(m), "brightness", JStr(b), "openState", JStr(o));
    DecodeContactOf(h, ctx, d, m, b, o);
  }

  lemma DecodeContactOf(h: EventHeader, ctx: seq<(string, JValue)>, d: string, m: string, b: string, o: string)
    requires Member(ctx, "detectionState") == JStr(d) && Member(ctx, "doorMode") == JStr(m)
    requires Member(ctx, "brightness") == JStr(b) && Member(ctx, "openState") == JStr(o)
    ensures DecodeContext(Contact, h, ctx) == Success(ContactSensorEvent(h, d, m, b, o))
  {
    assert StrField(ctx, "detectionState", "context.detectionState") == Success(d);
    assert StrField(ctx, "doorMode", "context.doorMode") == Success(m);
    assert StrField(ctx, "brightness", "context.brightness") == Success(b);
    assert StrField(ctx, "openState", "context.openState") == Success(o);
  }

  lemma ColorBulbRoundTrip(e: Event)
    requires e.ColorBulbEvent?
    ensures DecodeContext(ColorBulb, e.header, HeaderMembers(e.header) + ContextMembers(e)) == Success(e)
  {
    var ColorBulbEvent(h, p, b, c, t) := e;
    var ctx := HeaderMembers(h) + [("powerState", JStr(p)), ("brightness", JInt(b)), ("color", JStr(c)), ("colorTemperature", JInt(t))];
    assert ContextMembers(e) == ctx[3..];
    assert "powerState" != "brightness" by { assert "powerState"[0] != "brightness"[0]; }
    Members4(HeaderMembers(h), "powerState", JStr(p), "brightness", JInt(b), "color", JStr(c), "colorTemperature", JInt(t));
    DecodeColorBulbOf(h, ctx, p, b, c, t);
  }

  lemma DecodeColorBulbOf(h: EventHeader, ctx: seq<(string, JValue)>, p: string, b: Int64, c: string, t: Int64)
    requires Member(ctx, "powerState") == JStr(p) && Member(ctx, "brightness") == JInt(b)
    requires Member(ctx, "color") == JStr(c) && Member(ctx, "colorTemperature") == JInt(t)
    ensures DecodeContext(ColorBulb, h, ctx) == Success(ColorBulbEvent(h, p, b, c, t))
  {
    assert StrField(ctx, "powerState", "context.powerState") == Success(p);
    assert IntField(ctx, "brightness", "int", "context.brightness") == Success(b);
    assert StrField(ctx, "color", "context.color") == Success(c);
    assert IntField(ctx, "colorTemperature", "int", "context.colorTemperature") == Success(t);
  }

  lemma StripLightRoundTrip(e: Event)
    requires e.StripLightEvent?
    ensures DecodeContext(StripLight, e.header, HeaderMembers(e.header) + ContextMembers(e)) == Success(e)
  {
    var StripLightEvent(h, p, b, c) := e;
    var ctx := HeaderMembers(h) + [("powerState", JStr(p)), ("brightness", JInt(b)), ("color", JStr(c))];
    assert ContextMembers(e) == ctx[3..];
    assert "powerState" != "brightness" by { assert "powerState"[0] != "brightness"[0]; }
    Members3(HeaderMembers(h), "powerState", JStr(p), "brightness", JInt(b), "color", JStr(c));
    DecodeStripLightOf(h, ctx, p, b, c);
  }

  lemma DecodeStripLightOf(h: EventHeader, ctx: seq<(string, JValue)>, p: string, b: Int64, c: string)
    requires Member(ctx, "powerState") == JStr(p) && Member(ctx, "brightness") == JInt(b) && Member(ctx, "color") == JStr(c)
    ensures DecodeContext(StripLight, h, ctx) == Success(StripLightEvent(h, p, b, c))
  {
    assert StrField(ctx, "powerState", "context.powerState") == Success(p);
    assert IntField(ctx, "brightness", "int", "context.brightness") == Success(b);
    assert StrField(ctx, "color", "context.color") == Success(c);
  }

  /** Both meters write and read the same three fields. */
  lemma MeterRoundTrip(e: Event)
    requires e.MeterEvent? || e.MeterPlusEvent?
    ensures DecodeContext(KindOfEvent(e), e.header, HeaderMembers(e.header) + ContextMembers(e)) == Success(e)
  {
    var h, t, sc, hu := e.header, e.temperature, e.scale, e.humidity;
    var ctx := HeaderMembers(h) + [("temperature", JFrac(t.literal)), ("scale", JStr(sc)), ("humidity", JInt(hu))];
    assert ContextMembers(e) == ctx[3..];
    Members3(HeaderMembers(h), "temperature", JFrac(t.literal), "scale", JStr(sc), "humidity", JInt(hu));
    DecodeMeterOf(KindOfEvent(e), h, ctx, t, sc, hu);
  }

  lemma DecodeMeterOf(k: EventKind, h: EventHeader, ctx: seq<(string, JValue)>, t: Float64, sc: string, hu: Int64)
    requires k == Meter || k == MeterPlus
    requires Member(ctx, "temperature") == JFrac(t.literal) && Member(ctx, "scale") == JStr(sc) && Member(ctx, "humidity") == JInt(hu)
    ensures DecodeContext(k, h, ctx) == Success(if k == Meter then MeterEvent(h, t, sc, hu) else MeterPlusEvent(h, t, sc, hu))
  {
    assert FloatField(ctx, "temperature", "context.temperature") == Success(t);
    assert StrField(ctx, "scale", "context.scale") == Success(sc);
    assert IntField(ctx, "humidity", "int", "context.humidity") == Success(hu);
  }

  /** Every event whose device type is its own token is parsed back from the
      body it is written as. */
  lemma ParseWebhookOfEncode(e: Event)
    requires e.header.deviceType == TokenOf(KindOfEvent(e))
    ensures ParseWebhook(EncodeEvent(e)) == Success(e)
  {
    var k := KindOfEvent(e);
    var v := EncodeEvent(e);
    var ctx := HeaderMembers(e.header) + ContextMembers(e);
    assert v.members == [] + [("eventType", JStr(e.header.eventType)), ("eventVersion", JStr(e.header.eventVersion)), ("context", JObj(ctx))];
    Members3([], "eventType", JStr(e.header.eventType), "eventVersion", JStr(e.header.eventVersion), "context", JObj(ctx));
    HeaderRoundTrip(e);
    ContextRoundTrip(e);
    KindOfToken(k);
    assert PeekDeviceType(v) == Success(e.header.deviceType);
    assert DecodeEvent(k, v) == Success(e);
  }

  /** The context of a motion sensor report in the service's layout, which
      lists the detection state before the sample time. */
  function MotionReportContext(mac: string, detection: string, time: Int64): (ctx: seq<(string, JValue)>)
    ensures Member(ctx, "deviceType") == JStr("WoPresence") && Member(ctx, "deviceMac") == JStr(mac)
    ensures Member(ctx, "detectionState") == JStr(detection) && Member(ctx, "timeOfSample") == JInt(time)
  {
    var ctx := [
      ("deviceType", JStr("WoPresence")), ("deviceMac", JStr(mac)),
      ("detectionState", JStr(detection)), ("timeOfSample", JInt(time))];
    assert ctx == [] + ctx;
    Members4([], "deviceType", JStr("WoPresence"), "deviceMac", JStr(mac),
      "detectionState", JStr(detection), "timeOfSample", JInt(time));
    ctx
  }

  /** The top level of an event body in the service's layout. */
  function ReportBody(eventType: string, eventVersion: string, ctx: seq<(string, JValue)>): (top: seq<(string, JValue)>)
    ensures Member(top, "eventType") == JStr(eventType) && Member(top, "eventVersion") == JStr(eventVersion)
    ensures Member(top, "context") == JObj(ctx)
  {
    var top := [("eventType", JStr(eventType)), ("eventVersion", JStr(eventVersion)), ("context", JObj(ctx))];
    assert top == [] + top;
    Members3([], "eventType", JStr(eventType), "eventVersion", JStr(eventVersion), "context", JObj(ctx));
    top
  }

  /** A motion sensor report parses to a motion event carrying its fields. */
  lemma MotionReport(eventType: string, eventVersion: string, mac: string, detection: string, time: Int64)
    ensures ParseWebhook(JObj(ReportBody(eventType, eventVersion, MotionReportContext(mac, detection, time))))
      == Success(MotionSensorEvent(EventHeader(eventType, eventVersion, "WoPresence", mac, time), detection))
  {
    var ctx := MotionReportContext(mac, detection, time);
    var h := EventHeader(eventType, eventVersion, "WoPresence", mac, time);
    DecodeEventOf(Motion, ReportBody(eventType, eventVersion, ctx), ctx, h);
    KindOfToken(Motion);
  }

  /** A body whose members carry the header fields decodes into the event the
      context decoder builds on that header, and the peek reads its device
      type. */
  lemma DecodeEventOf(k: EventKind, top: seq<(string, JValue)>, ctx: seq<(string, JValue)>, h: EventHeader)
    requires Member(top, "eventType") == JStr(h.eventType) && Member(top, "eventVersion") == JStr(h.eventVersion)
    requires Member(top, "context") == JObj(ctx)
    requires Member(ctx, "deviceType") == JStr(h.deviceType) && Member(ctx, "deviceMac") == JStr(h.deviceMac)
    requires Member(ctx, "timeOfSample") == JInt(h.timeOfSample)
    ensures PeekDeviceType(JObj(top)) == Success(h.deviceType)
    ensures DecodeEvent(k, JObj(top)) == DecodeContext(k, h, ctx)
  {
    assert StrField(top, "eventType", "eventType") == Success(h.eventType);
    assert StrField(top, "eventVersion", "eventVersion") == Success(h.eventVersion);
    assert StrField(ctx, "deviceType", "context.deviceType") == Success(h.deviceType);
    assert StrField(ctx, "deviceMac", "context.deviceMac") == Success(h.deviceMac);
    assert IntField(ctx, "timeOfSample", "int64", "context.timeOfSample") == Success(h.timeOfSample);
  }

  // ---------------------------------------------------------------------
  // The request body as a stream: peek, then replay

  newtype byte = b: int | 0 <= b < 256

  /** What one `json.Decoder.Decode` call does to a byte stream: the value it
      decodes (or the syntax error) and how many bytes it read from the stream
      to get there. */
  datatype ReadResult = ReadResult(value: Result<JValue, Error>, read: nat)

  /** The decoder reads a prefix of its input, and that prefix alone decodes to
      the same value. */
  ghost predicate ReadsPrefix(decode: seq<byte> -> ReadResult) {
    forall body: seq<byte> ::
      decode(body).read <= |body| && decode(body[..decode(body).read]).value == decode(body).value
  }

  /** An `*http.Request` reduced to the unread part of its body. */
  class Request {
    var body: seq<byte>

    constructor (body: seq<byte>)
      ensures this.body == body
    {
      this.body := body;
    }
  }

  /** The peek on a decoder's outcome. */
  function PeekOf(value: Result<JValue, Error>): Result<string, Error> {
    var v :- value;
    PeekDeviceType(v)
  }

  /** `deviceTypeFromWebhookRequest`: decodes through a tee into a buffer; on
      success the body becomes exactly the bytes read, on failure the body is
      left with the bytes the decoder did not read. */
  method DeviceTypeFromWebhookRequest(r: Request, decode: seq<byte> -> ReadResult) returns (deviceType: string, err: Option<Error>)
    requires ReadsPrefix(decode)
    modifies r
    ensures var step := decode(old(r.body));
      match PeekOf(step.value)
      case Success(t) => deviceType == t && err.None? && r.body == old(r.body)[..step.read]
      case Failure(e) => deviceType == "" && err == Some(e) && r.body == old(r.body)[step.read..]
  {
    var step := decode(r.body);
    var peek := PeekOf(step.value);
    if peek.Failure? {
      r.body := r.body[step.read..];
      return "", Some(peek.error);
    }
    r.body := r.body[..step.read];
    return peek.value, None;
  }

  /** `ParseWebhookRequest`. The full decode runs on the replayed bytes, and
      sees the value the peek saw. */
  method ParseWebhookRequest(r: Request, decode: seq<byte> -> ReadResult) returns (event: Result<Event, Error>)
    requires ReadsPrefix(decode)
    modifies r
    ensures event == match decode(old(r.body)).value
      case Failure(e) => Failure(e)
      case Success(v) => ParseWebhook(v)
    ensures var step := decode(old(r.body)); var kept := old(r.body)[..step.read];
      if PeekOf(step.value).Failure? then r.body == old(r.body)[step.read..]
      else if KindOf(PeekOf(step.value).value).None? then r.body == kept
      else r.body == kept[decode(kept).read..]
  {
    var deviceType, err := DeviceTypeFromWebhookRequest(r, decode);
    if err.Some? {
      return Failure(err.value);
    }
    var kind := KindOf(deviceType);
    if kind.None? {
      return Failure(UnknownDeviceType(deviceType));
    }
    var step := decode(r.body);
    r.body := r.body[step.read..];
    match step.value {
      case Failure(e) =>
        return Failure(e);
      case Success(v) =>
        return DecodeEvent(kind.value, v);
    }
  }

  // ---------------------------------------------------------------------
  // Managing the webhook registration

  datatype HttpMethod = Get | Post | Delete

  /** One call to the API: method, path and the JSON value sent as body. */
  datatype ApiCall = ApiCall(httpMethod: HttpMethod, path: string, body: JValue)

  const SetupPath := "/v1.0/webhook/setupWebhook"
  const QueryPath := "/v1.0/webhook/queryWebhook"
  const UpdatePath := "/v1.0/webhook/updateWebhook"
  const DeletePath := "/v1.0/webhook/deleteWebhook"

  /** The member `key` of an object body; null for anything else. */
  function Field(v: JValue, key: string): JValue {
    if v.JObj? then Member(v.members, key) else JNull
  }

  predicate HasMember(v: JValue, key: string) {
    v.JObj? && exists i :: 0 <= i < |v.members| && v.members[i].0 == key
  }

  const AllDevices := "ALL"
  const DeviceListError := "deviceList value is only supporting \"ALL\" for now"

  /** `webhookSetupRequest` as JSON: `url` and `deviceList` are omitted when
      empty. */
  function SetupBody(url: string, deviceList: string): JValue {
    JObj([("action", JStr("setupWebhook"))]
      + (if url != "" then [("url", JStr(url))] else [])
      + (if deviceList != "" then [("deviceList", JStr(deviceList))] else []))
  }

  /** `Setup`: refuses any device list but "ALL" before calling. */
  function SetupCall(url: string, deviceList: string): (r: Result<ApiCall, Error>)
    ensures r.Failure? <==> deviceList != AllDevices
    ensures r.Failure? ==> r.error == Message(DeviceListError)
    ensures r.Success? ==>
      && r.value.httpMethod == Post && r.value.path == SetupPath
      && Field(r.value.body, "action") == JStr("setupWebhook")
      && Field(r.value.body, "deviceList") == JStr(AllDevices)
      && (url != "" ==> Field(r.value.body, "url") == JStr(url))
      && (url == "" ==> !HasMember(r.value.body, "url"))
  {
    if deviceList != AllDevices then Failure(Message(DeviceListError))
    else
      var body := SetupBody(url, deviceList);
      if url != "" then
        assert body.members == [] + [("action", JStr("setupWebhook")), ("url", JStr(url)), ("deviceList", JStr(deviceList))];
        Members3([], "action", JStr("setupWebhook"), "url", JStr(url), "deviceList", JStr(deviceList));
        Success(ApiCall(Post, SetupPath, body))
      else
        assert body.members == [] + [("action", JStr("setupWebhook")), ("deviceList", JStr(deviceList))];
        Members2([], "action", JStr("setupWebhook"), "deviceList", JStr(deviceList));
        Success(ApiCall(Post, SetupPath, body))
  }

  /** `WebhookQueryActionType`. */
  const QueryURL := "queryUrl"
  const QueryDetails := "queryDetails"
  const QueryUrlRequired := "URL need to be specified when the action is queryDetails"

  /** `webhookQueryRequest`; `urls` is a nil slice unless set, and is sent as
      null then (the field has no `omitempty`). */
  datatype QueryRequest = QueryRequest(action: string, urls: Option<seq<string>>)

  function QueryBody(req: QueryRequest): JValue {
    JObj([
      ("action", JStr(req.action)),
      ("urls", match req.urls
        case None => JNull
        case Some(us) => JArr(seq(|us|, i requires 0 <= i < |us| => JStr(us[i]))))])
  }

  /** `Query`: builds the request as the source does, setting `URLs` only for
      the details action, and refusing that action without a URL. */
  method QueryCall(action: string, url: string) returns (r: Result<ApiCall, Error>)
    ensures r.Failure? <==> action == QueryDetails && url == ""
    ensures r.Failure? ==> r.error == Message(QueryUrlRequired)
    ensures r.Success? ==> r.value.httpMethod == Post && r.value.path == QueryPath
    ensures r.Success? ==> Field(r.value.body, "action") == JStr(action)
    ensures r.Success? && action == QueryDetails ==> Field(r.value.body, "urls") == JArr([JStr(url)])
    ensures r.Success? && action != QueryDetails ==> Field(r.value.body, "urls") == JNull
  {
    var req := QueryRequest(action, None);
    if action == QueryDetails {
      if url == "" {
        return Failure(Message(QueryUrlRequired));
      }
      req := req.(urls := Some([url]));
    }
    var body := QueryBody(req);
    assert body.members == [] + [("action", JStr(action)), ("urls", body.members[1].1)];
    Members2([], "action", JStr(action), "urls", body.members[1].1);
    r := Success(ApiCall(Post, QueryPath, body));
  }

  /** `webhookUpdateRequest` as JSON. */
  function UpdateBody(url: string, enable: bool): JValue {
    JObj([("action", JStr("updateWebhook")), ("config", JObj([("url", JStr(url)), ("enable", JBool(enable))]))])
  }

  /** `Update` as written: the body is an update, the path is the query path. */
  function UpdateCallAsWritten(url: string, enable: bool): (r: ApiCall)
    ensures r.httpMethod == Post && r.path == QueryPath
    ensures Field(r.body, "action") == JStr("updateWebhook")
    ensures Field(Field(r.body, "config"), "url") == JStr(url)
    ensures Field(Field(r.body, "config"), "enable") == JBool(enable)
  {
    var body := UpdateBody(url, enable);
    var config := [("url", JStr(url)), ("enable", JBool(enable))];
    assert body.members == [] + [("action", JStr("updateWebhook")), ("config", JObj(config))];
    Members2([], "action", JStr("updateWebhook"), "config", JObj(config));
    assert config == [] + config;
    Members2([], "url", JStr(url), "enable", JBool(enable));
    ApiCall(Post, QueryPath, body)
  }

  /** An update sent as written lands on the path of the query call, so the
      service receives an update body at its query endpoint. */
  lemma UpdateHitsQueryPath(url: string, enable: bool)
    ensures UpdateCallAsWritten(url, enable).path == QueryPath != UpdatePath
    ensures Field(UpdateCallAsWritten(url, enable).body, "action") != JStr(QueryURL)
    ensures Field(UpdateCallAsWritten(url, enable).body, "action") != JStr(QueryDetails)
  {
  }

  /** `Update` with the path its action names. */
  function UpdateCall(url: string, enable: bool): (r: ApiCall)
    ensures r.httpMethod == Post && r.path == UpdatePath
    ensures Field(r.body, "action") == JStr("updateWebhook")
    ensures Field(Field(r.body, "config"), "url") == JStr(url)
    ensures Field(Field(r.body, "config"), "enable") == JBool(enable)
  {
    UpdateCallAsWritten(url, enable).(path := UpdatePath)
  }

  /** `webhookDeleteRequest` as JSON; `url` is always present. */
  function DeleteBody(url: string): JValue {
    JObj([("action", JStr("deleteWebhook")), ("url", JStr(url))])
  }

  function DeleteCall(url: string): (r: ApiCall)
    ensures r.httpMethod == Delete && r.path == DeletePath
    ensures Field(r.body, "action") == JStr("deleteWebhook")
    ensures Field(r.body, "url") == JStr(url) && HasMember(r.body, "url")
  {
    var body := DeleteBody(url);
    assert body.members == [] + [("action", JStr("deleteWebhook")), ("url", JStr(url))];
    Members2([], "action", JStr("deleteWebhook"), "url", JStr(url));
    assert body.members[1].0 == "url";
    ApiCall(Delete, DeletePath, body)
  }

  /** With the update path corrected, each management call has a path of its
      own, and the path's last segment is the call's action. */
  lemma WebhookPathsDistinct()
    ensures |{SetupPath, QueryPath, UpdatePath, DeletePath}| == 4
    ensures SetupPath == "/v1.0/webhook/" + "setupWebhook"
    ensures UpdatePath == "/v1.0/webhook/" + "updateWebhook"
    ensures DeletePath == "/v1.0/webhook/" + "deleteWebhook"
  {
  }

  /** What a management call returns: the validation error, or the transport
      error of sending it; the response envelope is never read. */
  function Perform(call: Result<ApiCall, Error>, send: ApiCall -> Result<JValue, Error>): (r: Option<Error>)
    ensures r.None? <==> call.Success? && send(call.value).Success?
    ensures call.Failure? ==> r == Some(call.error)
  {
    match call
    case Failure(e) => Some(e)
    case Success(c) =>
      match send(c)
      case Failure(e) => Some(e)
      case Success(_) => None
  }

  /** Any envelope, even one reporting an error code, counts as success. */
  lemma EnvelopeIgnored(call: ApiCall, envelope: JValue)
    ensures Perform(Success(call), c => Success(envelope)) == None
  {
  }
}
