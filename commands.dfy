/** The device command encoder: the constructors that build the
    `{command, parameter, commandType}` record sent to
    `POST /v1.1/devices/{id}/commands`. Parameters are decimal renderings
    joined by fixed separators; each rendering is proved against the reference
    decoder that reads its fields back. */
module Commands {
  import opened Wrappers
  import opened Text
  import opened Json

  /** `DeviceCommandRequest`, the body of a command call. */
  datatype DeviceCommandRequest = DeviceCommandRequest(command: string, parameter: string, commandType: string)

  const DefaultParameter := "default"
  const CommandType := "command"
  const CustomizeType := "customize"

  /** The constructors that take no argument: each sends a fixed command name
      with parameter "default". */
  datatype NullaryCommand =
    | TurnOn | TurnOff | Press | Lock | Unlock | Toggle | Start | Stop | Dock
    | FullyOpen | CloseUp | CloseDown
    | VolumeAdd | VolumeSub | ChannelAdd | ChannelSub | SetMute
    | FastForward | Rewind | Next | Previous | Pause | Play | StopPlayer
    | FanSwing | FanTimer | FanLowSpeed | FanMiddleSpeed | FanHighSpeed
    | LightBrightnessUp | LightBrightnessDown

  /** The command name each argument-less constructor sends. */
  function CommandName(c: NullaryCommand): string {
    match c
    case TurnOn => "turnOn"
    case TurnOff => "turnOff"
    case Press => "press"
    case Lock => "lock"
    case Unlock => "unlock"
    case Toggle => "toggle"
    case Start => "start"
    case Stop => "stop"
    case Dock => "dock"
    case FullyOpen => "fullyOpen"
    case CloseUp => "closeUp"
    case CloseDown => "closeDown"
    case VolumeAdd => "volumeAdd"
    case VolumeSub => "volumeSub"
    case ChannelAdd => "channelAdd"
    case ChannelSub => "channelSub"
    case SetMute => "setMute"
    case FastForward => "FastForward"
    case Rewind => "Rewind"
    case Next => "Next"
    case Previous => "Previous"
    case Pause => "Pause"
    case Play => "Play"
    case StopPlayer => "Stop"
    case FanSwing => "swing"
    case FanTimer => "timer"
    case FanLowSpeed => "lowSpeed"
    case FanMiddleSpeed => "middleSpeed"
    case FanHighSpeed => "highSpeed"
    case LightBrightnessUp => "brightnessUp"
    case LightBrightnessDown => "brightnessDown"
  }

  /** Reference reading of a command name back to the argument-less
      constructor that sends it, looking among the names of the same length. */
  function NullaryByName(name: string): Option<NullaryCommand> {
    match |name|
    case 4 =>
      if name == "lock" then Some(Lock)
      else if name == "stop" then Some(Stop)
      else if name == "dock" then Some(Dock)
      else if name == "Next" then Some(Next)
      else if name == "Play" then Some(Play)
      else if name == "Stop" then Some(StopPlayer)
      else None
    case 5 =>
      if name == "press" then Some(Press)
      else if name == "start" then Some(Start)
      else if name == "Pause" then Some(Pause)
      else if name == "swing" then Some(FanSwing)
      else if name == "timer" then Some(FanTimer)
      else None
    case 6 =>
      if name == "turnOn" then Some(TurnOn)
      else if name == "unlock" then Some(Unlock)
      else if name == "toggle" then Some(Toggle)
      else if name == "Rewind" then Some(Rewind)
      else None
    case 7 =>
      if name == "turnOff" then Some(TurnOff)
      else if name == "closeUp" then Some(CloseUp)
      else if name == "setMute" then Some(SetMute)
      else None
    case 8 =>
      if name == "Previous" then Some(Previous)
      else if name == "lowSpeed" then Some(FanLowSpeed)
      else None
    case 9 =>
      if name == "fullyOpen" then Some(FullyOpen)
      else if name == "closeDown" then Some(CloseDown)
      else if name == "volumeAdd" then Some(VolumeAdd)
      else if name == "volumeSub" then Some(VolumeSub)
      else if name == "highSpeed" then Some(FanHighSpeed)
      else None
    case 10 =>
      if name == "channelAdd" then Some(ChannelAdd)
      else if name == "channelSub" then Some(ChannelSub)
      else None
    case 11 =>
      if name == "FastForward" then Some(FastForward)
      else if name == "middleSpeed" then Some(FanMiddleSpeed)
      else None
    case 12 =>
      if name == "brightnessUp" then Some(LightBrightnessUp)
      else None
    case 14 =>
      if name == "brightnessDown" then Some(LightBrightnessDown)
      else None
    case _ => None
  }

  /** Reading a sent name back gives the constructor that sent it. */
  lemma NullaryByNameOf(c: NullaryCommand)
    ensures NullaryByName(CommandName(c)) == Some(c)
  {
    match c
    case TurnOn =>
    case TurnOff =>
    case Press =>
    case Lock =>
    case Unlock =>
    case Toggle =>
    case Start =>
    case Stop =>
    case Dock =>
    case FullyOpen =>
    case CloseUp =>
    case CloseDown =>
    case VolumeAdd =>
    case VolumeSub =>
    case ChannelAdd =>
    case ChannelSub =>
    case SetMute =>
    case FastForward =>
    case Rewind =>
    case Next =>
    case Previous =>
    case Pause =>
    case Play =>
    case StopPlayer =>
    case FanSwing =>
    case FanTimer =>
    case FanLowSpeed =>
    case FanMiddleSpeed =>
    case FanHighSpeed =>
    case LightBrightnessUp =>
    case LightBrightnessDown =>
  }

  /** A name no argument-less constructor sends is read as none of them. */
  lemma NullaryByNameNone(name: string, c: NullaryCommand)
    requires NullaryByName(name).None?
    ensures CommandName(c) != name
  {
    NullaryByNameOf(c);
  }

  /** No two argument-less constructors send the same command name; in
      particular the player's "Stop" and the vacuum's "stop" differ by case. */
  lemma NullaryNamesDistinct(a: NullaryCommand, b: NullaryCommand)
    requires CommandName(a) == CommandName(b)
    ensures a == b
  {
    NullaryByNameOf(a);
    NullaryByNameOf(b);
  }

  /** The request of an argument-less constructor. */
  function NullaryRequest(c: NullaryCommand): (r: DeviceCommandRequest)
    ensures NullaryByName(r.command) == Some(c)
    ensures r.parameter == DefaultParameter && r.commandType == CommandType
  {
    NullaryByNameOf(c);
    DeviceCommandRequest(CommandName(c), DefaultParameter, CommandType)
  }

  // ---------------------------------------------------------------------
  // Curtain position

  /** `SetPositionMode`; any other integer is accepted and sent as the default. */
  const DefaultMode: Int64 := 0
  const PerformanceMode: Int64 := 1
  const SilentMode: Int64 := 2

  /** The position actually sent: below 0 becomes 0, above 100 becomes 100. */
  function Clamp(position: int): (r: int)
    ensures 0 <= r <= 100
    ensures 0 <= position <= 100 ==> r == position
    ensures position < 0 ==> r == 0
    ensures 100 < position ==> r == 100
  {
    if position < 0 then 0 else if 100 < position then 100 else position
  }

  /** The mode field: the mode's number for performance and silent mode,
      "ff" for the default mode and for every other value. */
  function ModeToken(mode: int): (r: string)
    ensures r == "ff" <==> mode != PerformanceMode && mode != SilentMode
    ensures r != "ff" ==> ParseInt(r) == Some(mode)
    ensures ',' !in r
  {
    if mode == PerformanceMode || mode == SilentMode then Itoa(mode) else "ff"
  }

  /** The three comma-separated fields of a curtain position parameter. */
  function PositionFields(index: int, mode: int, position: int): seq<string> {
    [Itoa(index), ModeToken(mode), Itoa(Clamp(position))]
  }

  /** Splitting three fields that contain no comma, joined by commas. */
  lemma SplitThree(a: string, b: string, c: string, sep: char)
    requires sep !in a && sep !in b && sep !in c
    ensures Split(a + [sep] + b + [sep] + c, sep) == [a, b, c]
  {
    assert a + [sep] + b + [sep] + c == a + [sep] + (b + [sep] + c);
    SplitCons(a, sep, b + [sep] + c);
    SplitCons(b, sep, c);
    SplitWithoutSeparator(c, sep);
  }

  /** `SetPosition`, building its parameter step by step as the source does. */
  method SetPosition(index: Int64, mode: Int64, position: Int64) returns (cmd: DeviceCommandRequest)
    ensures cmd.command == "setPosition" && cmd.commandType == CommandType
    ensures Split(cmd.parameter, ',') == PositionFields(index, mode, position)
    ensures ParseInt(Split(cmd.parameter, ',')[0]) == Some(index)
    ensures ParseInt(Split(cmd.parameter, ',')[2]) == Some(Clamp(position))
    ensures cmd == PositionRequest(index, mode, position)
  {
    var pos := position;
    if pos < 0 {
      pos := 0;
    } else if 100 < pos {
      pos := 100;
    }
    assert pos == Clamp(position);

    var parameter := "";
    parameter := parameter + (Itoa(index) + ",");
    assert parameter == Itoa(index) + [','];
    if mode == PerformanceMode || mode == SilentMode {
      parameter := parameter + Itoa(mode);
    } else {
      parameter := parameter + "ff";
    }
    assert parameter == Itoa(index) + [','] + ModeToken(mode);
    parameter := parameter + ",";
    parameter := parameter + Itoa(pos);

    NoSeparatorInItoa(index, ',');
    NoSeparatorInItoa(pos, ',');
    SplitThree(Itoa(index), ModeToken(mode), Itoa(pos), ',');
    assert parameter == Itoa(index) + [','] + ModeToken(mode) + [','] + Itoa(pos);
    cmd := DeviceCommandRequest("setPosition", parameter, CommandType);
  }

  /** The request `SetPosition` returns, as a value. */
  function PositionRequest(index: Int64, mode: Int64, position: Int64): (r: DeviceCommandRequest)
    ensures r.command == "setPosition" && r.commandType == CommandType
    ensures Split(r.parameter, ',') == PositionFields(index, mode, position)
  {
    var fields := PositionFields(index, mode, position);
    NoSeparatorInItoa(index, ',');
    NoSeparatorInItoa(Clamp(position), ',');
    SplitThree(fields[0], fields[1], fields[2], ',');
    DeviceCommandRequest("setPosition", fields[0] + [','] + fields[1] + [','] + fields[2], CommandType)
  }

  // ---------------------------------------------------------------------
  // Humidifier, fan, lights, vacuum, TV

  /** `HumidifierMode`: -1 for auto, 101-103 for the preset levels, or an
      exact humidity 0-100. */
  const AutoMode: Int64 := -1
  const LowMode: Int64 := 101
  const MidMode: Int64 := 102
  const HighMode: Int64 := 103

  function SetModeCommand(mode: Int64): (r: DeviceCommandRequest)
    ensures r.command == "setMode" && r.commandType == CommandType
    ensures r.parameter == "auto" <==> mode == AutoMode
    ensures mode != AutoMode ==> ParseInt(r.parameter) == Some(mode)
  {
    assert ParseInt("auto") == None;
    DeviceCommandRequest("setMode", if mode == AutoMode then "auto" else Itoa(mode), CommandType)
  }

  /** `PowerState` and its lower-case rendering. */
  const PowerOn := "ON"
  const PowerOff := "OFF"

  function PowerToLower(power: string): (r: string)
    ensures |r| == |power|
    ensures forall i :: 0 <= i < |r| ==> !IsUpperAscii(r[i])
    ensures forall i :: 0 <= i < |power| && !IsUpperAscii(power[i]) ==> r[i] == power[i]
    ensures forall i :: 0 <= i < |power| && IsUpperAscii(power[i]) ==> r[i] as int == power[i] as int + 32
  {
    ToLowerAscii(power)
  }

  /** `SmartFanMode`. */
  const StandardFanMode: Int64 := 1
  const NaturalFanMode: Int64 := 2

  /** `SetAllStatusCommand`: `"%s,%d,%d,%d"` of the lower-cased power, the fan
      mode, the fan speed and the shake range. */
  function SetAllStatusCommand(power: string, fanMode: Int64, fanSpeed: Int64, shakeRange: Int64): (r: DeviceCommandRequest)
    ensures r.command == "setAllStatus" && r.commandType == CommandType
    ensures Split(r.parameter, ',') == Split(PowerToLower(power), ',') + [Itoa(fanMode), Itoa(fanSpeed), Itoa(shakeRange)]
  {
    var tail := Itoa(fanMode) + [','] + Itoa(fanSpeed) + [','] + Itoa(shakeRange);
    NoSeparatorInItoa(fanMode, ',');
    NoSeparatorInItoa(fanSpeed, ',');
    NoSeparatorInItoa(shakeRange, ',');
    SplitThree(Itoa(fanMode), Itoa(fanSpeed), Itoa(shakeRange), ',');
    SplitConcat(PowerToLower(power), ',', tail);
    DeviceCommandRequest("setAllStatus", PowerToLower(power) + [','] + tail, CommandType)
  }

  function SetBrightnessCommand(brightness: Int64): (r: DeviceCommandRequest)
    ensures r.command == "setBrightness" && r.commandType == CommandType
    ensures ParseInt(r.parameter) == Some(brightness)
  {
    DeviceCommandRequest("setBrightness", Itoa(brightness), CommandType)
  }

  /** `SetColorCommand`: `"%d:%d:%d"` of red, green and blue. */
  function SetColorCommand(red: Int64, green: Int64, blue: Int64): (r: DeviceCommandRequest)
    ensures r.command == "setColor" && r.commandType == CommandType
    ensures Split(r.parameter, ':') == [Itoa(red), Itoa(green), Itoa(blue)]
  {
    NoSeparatorInItoa(red, ':');
    NoSeparatorInItoa(green, ':');
    NoSeparatorInItoa(blue, ':');
    SplitThree(Itoa(red), Itoa(green), Itoa(blue), ':');
    DeviceCommandRequest("setColor", Itoa(red) + [':'] + Itoa(green) + [':'] + Itoa(blue), CommandType)
  }

  function SetColorTemperatureCommand(temperature: Int64): (r: DeviceCommandRequest)
    ensures r.command == "setColorTemperature" && r.commandType == CommandType
    ensures ParseInt(r.parameter) == Some(temperature)
  {
    DeviceCommandRequest("setColorTemperature", Itoa(temperature), CommandType)
  }

  /** `VacuumPowerLevel`. */
  const QuietVacuumPowerLevel: Int64 := 0
  const StandardVacuumPowerLevel: Int64 := 1
  const StrongVacuumPowerLevel: Int64 := 2
  const MaxVacuumPowerLevel: Int64 := 3

  function PowLevelCommand(level: Int64): (r: DeviceCommandRequest)
    ensures r.command == "PowLevel" && r.commandType == CommandType
    ensures ParseInt(r.parameter) == Some(level)
  {
    DeviceCommandRequest("PowLevel", Itoa(level), CommandType)
  }

  function SetChannelCommand(channelNumber: Int64): (r: DeviceCommandRequest)
    ensures r.command == "SetChannel" && r.commandType == CommandType
    ensures ParseInt(r.parameter) == Some(channelNumber)
  {
    DeviceCommandRequest("SetChannel", Itoa(channelNumber), CommandType)
  }

  // ---------------------------------------------------------------------
  // Lock keys

  /** A Go `time.Time` reduced to what the encoder reads: its Unix seconds and
      its nanoseconds within the second. */
  datatype Time = Time(unix: Int64, nsec: nat)

  /** Unix seconds of January 1, year 1, 00:00:00 UTC: the zero `time.Time`. */
  const ZeroTimeUnix: Int64 := -62135596800

  /** `time.Time.IsZero`: the zero instant, which is not the Unix epoch. */
  predicate IsZero(t: Time) {
    t.unix == ZeroTimeUnix && t.nsec == 0
  }

  /** `PasscodeType`. */
  const PermanentPasscode := "permanent"
  const TimeLimitPasscode := "timeLimit"
  const DisposablePasscode := "disposable"
  const UrgentPasscode := "urgent"

  /** The passcode types that need a start and an end time. */
  predicate NeedsTimes(typ: string) {
    typ == TimeLimitPasscode || typ == DisposablePasscode
  }

  /** `createKeyCommandParameters`. */
  datatype KeyParameters = KeyParameters(name: string, typ: string, password: string, startTime: int, endTime: int)

  const NameKey := "{\"name\":"
  const TypeKey := ",\"type\":"
  const PasswordKey := ",\"password\":"
  const StartTimeKey := ",\"startTime\":"
  const EndTimeKey := ",\"endTime\":"

  /** json.Marshal of the key parameters: the five fields in declaration order,
      no spaces. */
  function EncodeKeyParameters(p: KeyParameters): string {
    NameKey + (Quote(p.name) + (TypeKey + (Quote(p.typ) + (PasswordKey + (Quote(p.password)
      + (StartTimeKey + (Itoa(p.startTime) + (EndTimeKey + (Itoa(p.endTime) + "}")))))))))
  }

  /** Reads `key` and then a quoted JSON string. */
  function ReadStringField(s: string, key: string): Option<(string, string)> {
    var r :- StripPrefix(s, key);
    ReadQuoted(r)
  }

  /** Reads `key` and then an integer that runs up to `stop`. */
  function ReadIntField(s: string, key: string, stop: char): Option<(int, string)> {
    var r :- StripPrefix(s, key);
    ReadIntUntil(r, stop)
  }

  lemma ReadStringFieldOf(key: string, x: string, rest: string)
    ensures ReadStringField(key + (Quote(x) + rest), key) == Some((x, rest))
  {
    StripPrefixOf(key, Quote(x) + rest);
    ReadQuotedOfQuote(x, rest);
  }

  lemma ReadIntFieldOf(key: string, n: int, stop: char, rest: string)
    requires !IsNumeralChar(stop)
    ensures ReadIntField(key + (Itoa(n) + ([stop] + rest)), key, stop) == Some((n, [stop] + rest))
  {
    StripPrefixOf(key, Itoa(n) + ([stop] + rest));
    assert Itoa(n) + ([stop] + rest) == Itoa(n) + [stop] + rest;
    ReadIntUntilOf(n, stop, rest);
  }

  /** Reference decoder for the key parameters in exactly that layout. */
  function DecodeKeyParameters(s: string): Option<KeyParameters> {
    var name :- ReadStringField(s, NameKey);
    var typ :- ReadStringField(name.1, TypeKey);
    var password :- ReadStringField(typ.1, PasswordKey);
    var times :- DecodeKeyTimes(password.1);
    Some(KeyParameters(name.0, typ.0, password.0, times.0, times.1))
  }

  /** The two time fields and the closing brace that end the parameters. */
  function DecodeKeyTimes(s: string): Option<(int, int)> {
    var start :- ReadIntField(s, StartTimeKey, ',');
    var end :- ReadIntField(start.1, EndTimeKey, '}');
    if end.1 == "}" then Some((start.0, end.0)) else None
  }

  lemma KeyTimesRoundTrip(startTime: int, endTime: int)
    ensures DecodeKeyTimes(StartTimeKey + (Itoa(startTime) + (EndTimeKey + (Itoa(endTime) + "}")))) == Some((startTime, endTime))
  {
    var tail := EndTimeKey + (Itoa(endTime) + "}");
    var afterComma := tail[1..];
    assert tail == [','] + afterComma;
    ReadIntFieldOf(StartTimeKey, startTime, ',', afterComma);
    assert ReadIntField(StartTimeKey + (Itoa(startTime) + tail), StartTimeKey, ',') == Some((startTime, tail));
    EndTimeRead(endTime);
  }

  lemma EndTimeRead(endTime: int)
    ensures ReadIntField(EndTimeKey + (Itoa(endTime) + "}"), EndTimeKey, '}') == Some((endTime, "}"))
  {
    assert "}" == ['}'] + [];
    ReadIntFieldOf(EndTimeKey, endTime, '}', []);
  }

  lemma KeyParametersRoundTrip(p: KeyParameters)
    ensures DecodeKeyParameters(EncodeKeyParameters(p)) == Some(p)
  {
    var t4 := StartTimeKey + (Itoa(p.startTime) + (EndTimeKey + (Itoa(p.endTime) + "}")));
    var t3 := PasswordKey + (Quote(p.password) + t4);
    var t2 := TypeKey + (Quote(p.typ) + t3);
    assert EncodeKeyParameters(p) == NameKey + (Quote(p.name) + t2);
    ReadStringFieldOf(NameKey, p.name, t2);
    ReadStringFieldOf(TypeKey, p.typ, t3);
    ReadStringFieldOf(PasswordKey, p.password, t4);
    KeyTimesRoundTrip(p.startTime, p.endTime);
  }

  function PasswordLengthError(length: nat): Error {
    Message("the length of password must be 6 to 12 but " + Itoa(length))
  }

  function MissingTimesError(typ: string): Error {
    Message("when passcode type is " + typ + ", startTime and endTime is required but either/both is zero value")
  }

  /** `CreateKeyCommand`. The password length is Go's `len`, in UTF-8 bytes,
      and is checked before the times. */
  function CreateKeyCommand(name: string, typ: string, password: string, start: Time, end: Time): (r: Result<DeviceCommandRequest, Error>)
    ensures r.Failure? <==>
      || !(6 <= Utf8Length(password) <= 12)
      || (NeedsTimes(typ) && (IsZero(start) || IsZero(end)))
    ensures !(6 <= Utf8Length(password) <= 12) ==> r == Failure(PasswordLengthError(Utf8Length(password)))
    ensures 6 <= Utf8Length(password) <= 12 && r.Failure? ==> r.error == MissingTimesError(typ)
    ensures r.Success? ==>
      && r.value.command == "createKey" && r.value.commandType == CommandType
      && DecodeKeyParameters(r.value.parameter) == Some(KeyParameters(name, typ, password, start.unix, end.unix))
  {
    var length := Utf8Length(password);
    if length < 6 || 12 < length then
      Failure(PasswordLengthError(length))
    else if NeedsTimes(typ) && (IsZero(start) || IsZero(end)) then
      Failure(MissingTimesError(typ))
    else
      var params := KeyParameters(name, typ, password, start.unix, end.unix);
      KeyParametersRoundTrip(params);
      Success(DeviceCommandRequest("createKey", EncodeKeyParameters(params), CommandType))
  }

  /** `DeleteKeyCommand`: the parameter is the text `{"id": <id>}`. */
  const DeleteKeyPrefix := "{\"id\": "

  function DeleteKeyCommand(id: Int64): (r: DeviceCommandRequest)
    ensures r.command == "deleteKey" && r.commandType == CommandType
    ensures DeleteKeyId(r.parameter) == Some(id as int)
  {
    var body := Itoa(id) + "}";
    StripPrefixOf(DeleteKeyPrefix, body);
    assert body[..|body| - 1] == Itoa(id);
    DeviceCommandRequest("deleteKey", DeleteKeyPrefix + body, CommandType)
  }

  /** Reference decoder for a delete-key parameter. */
  function DeleteKeyId(s: string): Option<int> {
    var rest :- StripPrefix(s, DeleteKeyPrefix);
    if |rest| > 0 && rest[|rest| - 1] == '}' then ParseInt(rest[..|rest| - 1]) else None
  }

  // ---------------------------------------------------------------------
  // Buttons, blind tilt, air conditioner

  /** `ButtonPushCommand`: the caller's button name, sent verbatim, as a
      customised command. */
  function ButtonPushCommand(name: string): (r: DeviceCommandRequest)
    ensures r.commandType == CustomizeType && r.command == name && r.parameter == DefaultParameter
  {
    DeviceCommandRequest(name, DefaultParameter, CustomizeType)
  }

  /** `BlindTiltSetPositionDirection`. */
  const UpDirection := "up"
  const DownDirection := "down"

  /** `BlindTiltSetPositionCommand`: `direction;position`, the position not
      clamped. */
  function BlindTiltSetPositionCommand(direction: string, position: Int64): (r: DeviceCommandRequest)
    ensures r.command == "setPosition" && r.commandType == CommandType
    ensures Split(r.parameter, ';') == Split(direction, ';') + [Itoa(position)]
    ensures ';' !in direction ==> Split(r.parameter, ';') == [direction, Itoa(position)]
  {
    NoSeparatorInItoa(position, ';');
    SplitWithoutSeparator(Itoa(position), ';');
    SplitConcat(direction, ';', Itoa(position));
    DeviceCommandRequest("setPosition", direction + [';'] + Itoa(position), CommandType)
  }

  /** `ACMode` and `ACFanSpeed`. */
  const ACAuto: Int64 := 1
  const ACCool: Int64 := 2
  const ACDry: Int64 := 3
  const ACFan: Int64 := 4
  const ACHeat: Int64 := 5
  const ACAutoSpeed: Int64 := 1
  const ACLow: Int64 := 2
  const ACMedium: Int64 := 3
  const ACHigh: Int64 := 4

  /** `ACSetAllCommand`: `"%d,%d,%d,%s"` of the temperature, the mode, the fan
      speed and the lower-cased power. */
  function ACSetAllCommand(temperature: Int64, mode: Int64, fanSpeed: Int64, power: string): (r: DeviceCommandRequest)
    ensures r.command == "setAll" && r.commandType == CommandType
    ensures Split(r.parameter, ',') == [Itoa(temperature), Itoa(mode), Itoa(fanSpeed)] + Split(PowerToLower(power), ',')
  {
    var head := Itoa(temperature) + [','] + Itoa(mode) + [','] + Itoa(fanSpeed);
    NoSeparatorInItoa(temperature, ',');
    NoSeparatorInItoa(mode, ',');
    NoSeparatorInItoa(fanSpeed, ',');
    SplitThree(Itoa(temperature), Itoa(mode), Itoa(fanSpeed), ',');
    SplitConcat(head, ',', PowerToLower(power));
    DeviceCommandRequest("setAll", head + [','] + PowerToLower(power), CommandType)
  }

  // ---------------------------------------------------------------------
  // All constructors together

  /** A call of one of the command constructors, with its arguments. */
  datatype CommandCall =
    | NullaryCall(cmd: NullaryCommand)
    | SetPositionCall(index: Int64, mode: Int64, position: Int64)
    | SetModeCall(humidifierMode: Int64)
    | SetAllStatusCall(fanPower: string, fanMode: Int64, fanSpeed: Int64, shakeRange: Int64)
    | SetBrightnessCall(brightness: Int64)
    | SetColorCall(red: Int64, green: Int64, blue: Int64)
    | SetColorTemperatureCall(temperature: Int64)
    | PowLevelCall(level: Int64)
    | CreateKeyCall(keyName: string, typ: string, password: string, start: Time, end: Time)
    | DeleteKeyCall(id: Int64)
    | ButtonPushCall(buttonName: string)
    | BlindTiltSetPositionCall(direction: string, tiltPosition: Int64)
    | ACSetAllCall(acTemperature: Int64, acMode: Int64, acFanSpeed: Int64, acPower: string)
    | SetChannelCall(channelNumber: Int64)

  /** The request a constructor call yields, or the validation error of
      `CreateKeyCommand`. */
  function Build(c: CommandCall): Result<DeviceCommandRequest, Error> {
    match c
    case NullaryCall(cmd) => Success(NullaryRequest(cmd))
    case SetPositionCall(index, mode, position) => Success(PositionRequest(index, mode, position))
    case SetModeCall(mode) => Success(SetModeCommand(mode))
    case SetAllStatusCall(power, fanMode, fanSpeed, shakeRange) => Success(SetAllStatusCommand(power, fanMode, fanSpeed, shakeRange))
    case SetBrightnessCall(brightness) => Success(SetBrightnessCommand(brightness))
    case SetColorCall(red, green, blue) => Success(SetColorCommand(red, green, blue))
    case SetColorTemperatureCall(temperature) => Success(SetColorTemperatureCommand(temperature))
    case PowLevelCall(level) => Success(PowLevelCommand(level))
    case CreateKeyCall(name, typ, password, start, end) => CreateKeyCommand(name, typ, password, start, end)
    case DeleteKeyCall(id) => Success(DeleteKeyCommand(id))
    case ButtonPushCall(name) => Success(ButtonPushCommand(name))
    case BlindTiltSetPositionCall(direction, position) => Success(BlindTiltSetPositionCommand(direction, position))
    case ACSetAllCall(temperature, mode, fanSpeed, power) => Success(ACSetAllCommand(temperature, mode, fanSpeed, power))
    case SetChannelCall(channelNumber) => Success(SetChannelCommand(channelNumber))
  }

  /** Only a button push is sent as a customised command; every other
      constructor sends "command". Only key creation can fail. */
  lemma CommandTypes(c: CommandCall)
    ensures Build(c).Failure? ==> c.CreateKeyCall?
    ensures Build(c).Success? ==> (Build(c).value.commandType == CustomizeType <==> c.ButtonPushCall?)
    ensures Build(c).Success? && !c.ButtonPushCall? ==> Build(c).value.commandType == CommandType
  {
  }

  /** No constructor sends an empty parameter, so `omitempty` never drops the
      parameter from the request body. */
  lemma ParametersNonEmpty(c: CommandCall)
    ensures Build(c).Success? ==> Build(c).value.parameter != ""
  {
    match c
    case SetAllStatusCall(power, fanMode, fanSpeed, shakeRange) =>
      assert |Split(Build(c).value.parameter, ',')| >= 3;
    case SetColorCall(_, _, _) =>
      assert |Split(Build(c).value.parameter, ':')| == 3;
    case SetPositionCall(_, _, _) =>
      assert |Split(Build(c).value.parameter, ',')| == 3;
    case BlindTiltSetPositionCall(_, _) =>
      assert |Split(Build(c).value.parameter, ';')| >= 2;
    case ACSetAllCall(_, _, _, _) =>
      assert |Split(Build(c).value.parameter, ',')| >= 4;
    case CreateKeyCall(_, _, _, _, _) =>
      assert Build(c).Success? ==> DecodeKeyParameters(Build(c).value.parameter).Some?;
    case DeleteKeyCall(_) =>
      assert DeleteKeyId(Build(c).value.parameter).Some?;
    case _ =>
  }

  /** Curtain and blind tilt share the command name "setPosition" and are told
      apart only by the parameter's separator. */
  lemma SetPositionShared(index: Int64, mode: Int64, position: Int64, direction: string, tilt: Int64)
    ensures PositionRequest(index, mode, position).command == BlindTiltSetPositionCommand(direction, tilt).command
    ensures |Split(PositionRequest(index, mode, position).parameter, ',')| == 3
  {
  }

  // ---------------------------------------------------------------------
  // Worked values

  lemma ACSetAllExample()
    ensures ACSetAllCommand(26, ACAuto, ACMedium, PowerOn).parameter == "26,1,3,on"
  {
    assert Itoa(26) == "26";
    assert Itoa(1) == "1";
    assert Itoa(3) == "3";
    var head := Itoa(26) + [','] + Itoa(1) + [','] + Itoa(3);
    assert head == "26,1,3";
    assert PowerToLower(PowerOn) == "on";
    assert ACSetAllCommand(26, ACAuto, ACMedium, PowerOn).parameter == head + [','] + PowerToLower(PowerOn);
  }

  lemma SetColorExample()
    ensures SetColorCommand(122, 80, 20).parameter == "122:80:20"
  {
    assert Itoa(122) == "122";
    assert Itoa(80) == "80";
    assert Itoa(20) == "20";
  }

  lemma SetModeExamples()
    ensures SetModeCommand(AutoMode).parameter == "auto"
    ensures SetModeCommand(LowMode).parameter == "101"
  {
    assert Itoa(101) == "101";
  }

  lemma ButtonPushExample()
    ensures ButtonPushCommand("ボタン") == DeviceCommandRequest("ボタン", "default", "customize")
  {
  }

  /** The four passcode types: only the temporary and the one-time code need
      times, and the Unix epoch is not the zero time. */
  lemma PasscodeTypesNeedingTimes()
    ensures NeedsTimes(TimeLimitPasscode) && NeedsTimes(DisposablePasscode)
    ensures !NeedsTimes(PermanentPasscode) && !NeedsTimes(UrgentPasscode)
    ensures !IsZero(Time(0, 0))
  {
    assert PermanentPasscode[0] != TimeLimitPasscode[0];
  }

  /** A five-byte password is one byte short, whatever the other arguments. */
  lemma ShortPasswordRefused(name: string, typ: string, start: Time, end: Time)
    ensures var r := CreateKeyCommand(name, typ, "12345", start, end);
      r.Failure? && r.error == PasswordLengthError(5)
  {
    assert Utf8Length("12345") == 5;
  }

  /** A six-byte permanent password is accepted with any times. */
  lemma SixBytePasswordAccepted(name: string, start: Time, end: Time)
    ensures CreateKeyCommand(name, PermanentPasscode, "123456", start, end).Success?
  {
    assert Utf8Length("123456") == 6;
    PasscodeTypesNeedingTimes();
  }

  /** Six characters are not always six bytes: six kana are eighteen. */
  lemma PasswordLengthInBytes(name: string, typ: string, start: Time, end: Time)
    ensures var r := CreateKeyCommand(name, typ, "ああああああ", start, end);
      r.Failure? && r.error == PasswordLengthError(18)
  {
    assert Utf8Length("ああああああ") == 18;
  }
}
