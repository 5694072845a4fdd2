/** A device's firmware version, which the API sends either as a JSON integer
    or as a JSON string and the library keeps as one string. */
module DeviceVersionCodec {
  import opened Wrappers
  import opened Text
  import opened Json

  /** What `DeviceVersion.UnmarshalJSON` stores for the wire value `b`, or the
      error it returns. The integer reading is tried first; only when it fails
      is the value read as a string. */
  function DecodeVersion(b: JValue): (r: Result<string, Error>)
    ensures r.Success? <==> b.JNull? || b.JStr? || (b.JInt? && InInt64(b.n))
    ensures b.JInt? && InInt64(b.n) ==> r.Success? && ParseInt(r.value) == Some(b.n)
    ensures b.JStr? ==> r == Success(b.s)
    ensures b.JNull? ==> r == Success("0")
    ensures r.Failure? ==> r.error == UnmarshalTypeError(KindName(b), "string", "")
  {
    match DecodeInt(b, 0, "int", "")
    case Success(i) => Success(Itoa(i))
    case Failure(_) => DecodeString(b, "", "")
  }

  /** An integer and its decimal text decode to the same version. */
  lemma IntegerAndTextAgree(n: int)
    requires InInt64(n)
    ensures DecodeVersion(JInt(n)) == DecodeVersion(JStr(Itoa(n)))
  {
    assert DecodeInt(JInt(n), 0, "int", "") == Success(n);
  }

  /** Decoding the string form of a decoded version gives it back. */
  lemma DecodeIdempotent(b: JValue)
    requires DecodeVersion(b).Success?
    ensures DecodeVersion(JStr(DecodeVersion(b).value)) == DecodeVersion(b)
  {
  }

  /** The integer reading wins whenever it succeeds. */
  lemma IntegerReadingFirst(b: JValue)
    requires DecodeInt(b, 0, "int", "").Success?
    ensures DecodeVersion(b) == Success(Itoa(DecodeInt(b, 0, "int", "").value))
  {
  }

  /** The cases of DeviceVersion_test.go: `"string"`, `42` and an object. */
  lemma VersionExamples()
    ensures DecodeVersion(JStr("string")) == Success("string")
    ensures DecodeVersion(JInt(42)) == Success("42") == DecodeVersion(JStr("42"))
    ensures DecodeVersion(JObj([("key", JStr("value"))])).Failure?
  {
    assert Itoa(42) == "42";
  }

  /** `DeviceVersion`, a Go string written through its pointer receiver. */
  class DeviceVersion {
    var value: string

    constructor ()
      ensures value == ""
    {
      value := "";
    }

    /** Writes the decoded version on success; leaves the receiver as it was on
        failure. */
    method UnmarshalJSON(b: JValue) returns (err: Option<Error>)
      modifies this
      ensures err.None? <==> DecodeVersion(b).Success?
      ensures err.None? ==> value == DecodeVersion(b).value
      ensures err.Some? ==> value == old(value) && err.value == DecodeVersion(b).error
    {
      var i: Int64 := 0;
      match DecodeInt(b, i, "int", "") {
        case Success(iv) =>
          value := Itoa(iv);
          return None;
        case Failure(_) =>
          var s := "";
          match DecodeString(b, s, "") {
            case Failure(e) =>
              return Some(e);
            case Success(sv) =>
              value := sv;
              return None;
          }
      }
    }
  }
}
