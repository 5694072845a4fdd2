/** The device API's response envelopes: the paths the three device calls use
    and how each call reads the `statusCode` of the envelope it gets back. The
    three tables differ: a command call only fails on the codes it lists, while
    the list and status calls fail on every code but 100. */
module DeviceResponses {
  import opened Wrappers
  import opened Text

  /** The envelope code of a successful call. */
  const Success100 := 100

  const DevicesPath := "/v1.1/devices"

  function StatusPath(id: string): (p: string)
    ensures DevicesPath + "/" <= p && |p| == |DevicesPath| + 1 + |id| + |"/status"|
    ensures p[|DevicesPath| + 1..|p| - |"/status"|] == id
    ensures p[|p| - |"/status"|..] == "/status"
  {
    DevicesPath + "/" + id + "/status"
  }

  function CommandPath(id: string): (p: string)
    ensures DevicesPath + "/" <= p && |p| == |DevicesPath| + 1 + |id| + |"/commands"|
    ensures p[|DevicesPath| + 1..|p| - |"/commands"|] == id
    ensures p[|p| - |"/commands"|..] == "/commands"
  {
    DevicesPath + "/" + id + "/commands"
  }

  /** The envelope codes a command call reports as errors. */
  const CommandErrorCodes: set<int> := {151, 152, 160, 161, 171, 190}

  const DeviceTypeError := "device type error"
  const DeviceNotFound := "device not found"
  const CommandNotSupported := "command is not supported"
  const DeviceOffline := "device is offline"
  const HubOffline := "hub device is offline"
  const CommandInternalError := "device internal error due to device states not synchronizeed with server or command format is invalid"

  /** The error `DeviceService.Command` returns for an envelope code, if any. */
  function CommandStatusError(code: int): (r: Option<Error>)
    ensures r.Some? <==> code in CommandErrorCodes
    ensures r.Some? ==> r.value.Message?
  {
    if code == 151 then Some(Message(DeviceTypeError))
    else if code == 152 then Some(Message(DeviceNotFound))
    else if code == 160 then Some(Message(CommandNotSupported))
    else if code == 161 then Some(Message(DeviceOffline))
    else if code == 171 then Some(Message(HubOffline))
    else if code == 190 then Some(Message(CommandInternalError))
    else None
  }

  const ListInternalError := "device internal error due to device states not synchronized with server or too many requests limit reached"
  const StatusInternalError := "device internal error due to device states not synchronized with server"

  /** `fmt.Errorf("unknown error %d from device list API", code)`; the status
      call uses the same wording. */
  function UnknownCodeError(code: int): Error {
    Message("unknown error " + Itoa(code) + " from device list API")
  }

  /** The error `DeviceService.List` returns for an envelope code, if any. */
  function ListStatusError(code: int): (r: Option<Error>)
    ensures r.None? <==> code == Success100
    ensures code == 190 ==> r == Some(Message(ListInternalError))
    ensures code != Success100 && code != 190 ==> r == Some(UnknownCodeError(code))
  {
    if code == 190 then Some(Message(ListInternalError))
    else if code != Success100 then Some(UnknownCodeError(code))
    else None
  }

  /** The error `DeviceService.Status` returns for an envelope code, if any. */
  function StatusStatusError(code: int): (r: Option<Error>)
    ensures r.None? <==> code == Success100
    ensures code == 190 ==> r == Some(Message(StatusInternalError))
    ensures code != Success100 && code != 190 ==> r == Some(UnknownCodeError(code))
  {
    if code == 190 then Some(Message(StatusInternalError))
    else if code != Success100 then Some(UnknownCodeError(code))
    else None
  }

  /** Every code a command call refuses is refused by the list and status calls
      too, never the other way round for a code outside the command table. */
  lemma CommandTableIsNarrower(code: int)
    ensures CommandStatusError(code).Some? ==> ListStatusError(code).Some? && StatusStatusError(code).Some?
    ensures ListStatusError(code).Some? <==> StatusStatusError(code).Some?
    ensures code == Success100 ==> CommandStatusError(code).None? && ListStatusError(code).None?
  {
  }

  /** The codes outside the command table that the other calls refuse: the
      command call reports success for them. */
  lemma CommandAcceptsUnknownCodes(code: int)
    requires code != Success100 && code !in CommandErrorCodes
    ensures CommandStatusError(code).None?
    ensures ListStatusError(code) == Some(UnknownCodeError(code))
  {
  }

  /** Each code a command call refuses has its own message. */
  lemma CommandMessagesDistinct(a: int, b: int)
    requires CommandStatusError(a).Some? && CommandStatusError(a) == CommandStatusError(b)
    ensures a == b
  {
  }

  /** The unknown-code message names the code, so two unknown codes never give
      the same error. */
  lemma UnknownCodeErrorInjective(a: int, b: int)
    requires UnknownCodeError(a) == UnknownCodeError(b)
    ensures a == b
  {
    var prefix, suffix := "unknown error ", " from device list API";
    var m := prefix + Itoa(a) + suffix;
    assert m == prefix + Itoa(b) + suffix;
    assert |Itoa(a)| == |Itoa(b)|;
    assert m[|prefix|..|prefix| + |Itoa(a)|] == Itoa(a);
    assert m[|prefix|..|prefix| + |Itoa(b)|] == Itoa(b);
    ItoaInjective(a, b);
  }

  /** The list call's error tells every failing code apart. */
  lemma ListErrorIdentifiesCode(a: int, b: int)
    requires ListStatusError(a).Some? && ListStatusError(a) == ListStatusError(b)
    ensures a == b
  {
    if a != 190 && b != 190 {
      UnknownCodeErrorInjective(a, b);
    } else {
      var unknown := UnknownCodeError(if a == 190 then b else a).text;
      assert unknown[|unknown| - 1] == 'I';
    }
  }

  /** The values the API documents: 100 succeeds everywhere, 190 fails
      everywhere, 200 is an error only outside the command call. */
  lemma StatusCodeExamples()
    ensures CommandStatusError(100).None? && ListStatusError(100).None? && StatusStatusError(100).None?
    ensures CommandStatusError(190) == Some(Message(CommandInternalError))
    ensures StatusStatusError(190) == Some(Message(StatusInternalError))
    ensures CommandStatusError(200).None? && ListStatusError(200).Some?
    ensures CommandStatusError(161) == Some(Message(DeviceOffline))
  {
  }
}
