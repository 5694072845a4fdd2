/** The `brightness` field of a device status, an integer for colour bulbs and
    an ambient word ("bright", "dim") for motion and contact sensors. The record
    keeps both readings, with -1 marking "no integer reading". */
module Brightness {
  import opened Wrappers
  import opened Text
  import opened Json

  /** The two fields of `BrightnessState`. */
  datatype BrightnessValue = BrightnessValue(intBrightness: Int64, ambientBrightness: string)

  /** The zero value: what a status that never carried `brightness` holds. */
  const ZeroBrightness := BrightnessValue(0, "")

  const IntUnavailable := Message("integer brightness value is only available for color bulb devices")
  const AmbientUnavailable := Message("ambient brightness value is only available for motion sensor, contact sensor devices")
  const BothReadingsFailed := "cannot unmarshal to both of int and string"

  /** `BrightnessState.Int`: the integer reading, refused for any negative value. */
  function Int(b: BrightnessValue): (r: (Int64, Option<Error>))
    ensures r.1.None? <==> b.intBrightness >= 0
    ensures r.1.None? ==> r.0 == b.intBrightness
    ensures r.1.Some? ==> r == (-1, Some(IntUnavailable))
  {
    if b.intBrightness < 0 then (-1, Some(IntUnavailable)) else (b.intBrightness, None)
  }

  /** `BrightnessState.AmbientBrightness`: the ambient word, refused when empty. */
  function AmbientBrightness(b: BrightnessValue): (r: (string, Option<Error>))
    ensures r.1.None? <==> b.ambientBrightness != ""
    ensures r.1.None? ==> r.0 == b.ambientBrightness
    ensures r.1.Some? ==> r == ("", Some(AmbientUnavailable))
  {
    if b.ambientBrightness != "" then (b.ambientBrightness, None) else ("", Some(AmbientUnavailable))
  }

  /** The receiver after `UnmarshalJSON(j)` on a receiver holding `prev`, and the
      error returned. The sentinel -1 is written first, so it stays whenever no
      integer is read. */
  function Unmarshal(prev: BrightnessValue, j: JValue): (r: (BrightnessValue, Option<Error>))
    ensures r.1.None? <==> j.JNull? || j.JStr? || (j.JInt? && InInt64(j.n))
    ensures j.JInt? && InInt64(j.n) ==>
      && Int(r.0) == (if j.n >= 0 then (j.n as Int64, None) else (-1, Some(IntUnavailable)))
      && AmbientBrightness(r.0) == AmbientBrightness(prev)
    ensures j.JStr? ==>
      && Int(r.0) == (-1, Some(IntUnavailable))
      && AmbientBrightness(r.0) == (if j.s != "" then (j.s, None) else ("", Some(AmbientUnavailable)))
    ensures j.JNull? ==> Int(r.0) == (0, None) && r.0.ambientBrightness == prev.ambientBrightness
    ensures r.1.Some? ==>
      && r.0 == prev.(intBrightness := -1)
      && r.1.value == Wrapped(BothReadingsFailed, UnmarshalTypeError(KindName(j), "string", ""))
  {
    var sentinel := prev.(intBrightness := -1);
    match DecodeInt(j, 0, "int", "")
    case Success(iv) => (sentinel.(intBrightness := iv), None)
    case Failure(_) =>
      match DecodeString(j, "", "")
      case Failure(e) => (sentinel, Some(Wrapped(BothReadingsFailed, e)))
      case Success(sv) => (sentinel.(ambientBrightness := sv), None)
  }

  /** `BrightnessState`, decoded in place through its pointer receiver. */
  class BrightnessState {
    var intBrightness: Int64
    var ambientBrightness: string

    function Value(): BrightnessValue
      reads this
    {
      BrightnessValue(intBrightness, ambientBrightness)
    }

    constructor ()
      ensures Value() == ZeroBrightness
    {
      intBrightness := 0;
      ambientBrightness := "";
    }

    method UnmarshalJSON(b: JValue) returns (err: Option<Error>)
      modifies this
      ensures (Value(), err) == Unmarshal(old(Value()), b)
    {
      intBrightness := -1;
      var iv: Int64 := 0;
      match DecodeInt(b, iv, "int", "") {
        case Success(i) =>
          intBrightness := i;
          return None;
        case Failure(_) =>
          var sv := "";
          match DecodeString(b, sv, "") {
            case Failure(e) =>
              return Some(Wrapped(BothReadingsFailed, e));
            case Success(s) =>
              ambientBrightness := s;
              return None;
          }
      }
    }
  }

  /** The `brightness` field of a freshly decoded `DeviceStatus`: left at its
      zero value when the member is absent, otherwise decoded by
      `UnmarshalJSON` into the zero value. */
  method DecodeBrightnessField(member: Option<JValue>) returns (value: BrightnessValue, err: Option<Error>)
    ensures member.None? ==> err.None? && Int(value) == (0, None) && AmbientBrightness(value).1.Some?
    ensures member.Some? ==> (value, err) == Unmarshal(ZeroBrightness, member.value)
    ensures member.Some? && member.value.JInt? && 0 <= member.value.n && InInt64(member.value.n) ==>
      err.None? && Int(value) == (member.value.n as Int64, None) && AmbientBrightness(value) == ("", Some(AmbientUnavailable))
    ensures member.Some? && member.value.JStr? && member.value.s != "" ==>
      err.None? && Int(value) == (-1, Some(IntUnavailable)) && AmbientBrightness(value) == (member.value.s, None)
  {
    var state := new BrightnessState();
    err := None;
    if member.Some? {
      err := state.UnmarshalJSON(member.value);
    }
    value := state.Value();
  }

  /** The cases of TestDeviceStatusBrightness: 100 for a colour bulb, "bright"
      for a motion sensor, "dim" for a contact sensor. */
  lemma BrightnessExamples()
    ensures var (v, e) := Unmarshal(ZeroBrightness, JInt(100));
      e.None? && Int(v) == (100, None) && AmbientBrightness(v) == ("", Some(AmbientUnavailable))
    ensures var (v, e) := Unmarshal(ZeroBrightness, JStr("bright"));
      e.None? && Int(v) == (-1, Some(IntUnavailable)) && AmbientBrightness(v) == ("bright", None)
    ensures var (v, e) := Unmarshal(ZeroBrightness, JStr("dim"));
      e.None? && Int(v) == (-1, Some(IntUnavailable)) && AmbientBrightness(v) == ("dim", None)
  {
  }
}
