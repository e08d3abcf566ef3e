/** The state of a CallReturn object as a value, and the effect of each of its
    public operations on that state. The class in call_return.dfy is proved
    against these functions; the lemmas here state what the operations promise
    when they are combined. */
module Transitions {
  import opened PhpValues

  datatype Status = Success | Error

  /** The eight private fields of a CallReturn object. */
  datatype State = State(
    status: Status,
    statusCode: int,
    errorMessages: seq<string>,
    errorCodes: seq<int>,
    successMessages: seq<string>,
    successCodes: seq<int>,
    data: Value,
    keyValueData: map<string, Value>)

  /** The field initialisers of a freshly constructed object. */
  const Initial := State(Success, 200, [], [], [], [], Null, map[])

  /** The keys the serialiser always writes; they win over extra keys. */
  const ReservedKeys: set<string> :=
    {"status_code", "status", "error", "error_code", "success", "success_code", "data"}

  /** At most one group of messages and codes is populated: the error group is
      empty while in success, and the success group is empty while in error. */
  predicate GroupsExclusive(s: State)
  {
    && (s.status == Error ==> s.successMessages == [] && s.successCodes == [])
    && (s.status == Success ==> s.errorMessages == [] && s.errorCodes == [])
  }

  /** `$xs[] = $m` / `array_merge($xs, $m)`, guarded by `if ($m)`. */
  function AppendMessages(xs: seq<string>, m: Option<Items<string>>): (r: seq<string>)
    ensures MessageGiven(m) ==> r == xs + Elements(m.value)
    ensures !MessageGiven(m) ==> r == xs
  {
    if MessageGiven(m) then xs + Elements(m.value) else xs
  }

  /** `$ns[] = $c` / `array_merge($ns, $c)`, guarded by `if ($c)`. */
  function AppendCodes(ns: seq<int>, c: Option<Items<int>>): (r: seq<int>)
    ensures CodesGiven(c) ==> r == ns + Elements(c.value)
    ensures !CodesGiven(c) ==> r == ns
  {
    if CodesGiven(c) then ns + Elements(c.value) else ns
  }

  /** The private transition into error: the success group and the data are
      cleared; error messages and codes already present are kept. */
  function ErrorAdded(s: State): (r: State)
    ensures r.status == Error && r.statusCode == 400
    ensures r.successMessages == [] && r.successCodes == [] && r.data == Null
    ensures r.errorMessages == s.errorMessages && r.errorCodes == s.errorCodes
    ensures r.keyValueData == s.keyValueData
  {
    s.(successMessages := [], successCodes := [], data := Null, status := Error, statusCode := 400)
  }

  /** The private transition into success: the error group and the data are
      cleared; success messages and codes already present are kept. */
  function SuccessAdded(s: State): (r: State)
    ensures r.status == Success && r.statusCode == 200
    ensures r.errorMessages == [] && r.errorCodes == [] && r.data == Null
    ensures r.successMessages == s.successMessages && r.successCodes == s.successCodes
    ensures r.keyValueData == s.keyValueData
  {
    s.(errorMessages := [], errorCodes := [], data := Null, status := Success, statusCode := 200)
  }

  /** `add_error($err, $codes)`: the message is appended unconditionally, the
      codes only when truthy. */
  function AddError(s: State, err: Items<string>, codes: Option<Items<int>>): (r: State)
    ensures r.status == Error && r.statusCode == 400
    ensures r.successMessages == [] && r.successCodes == [] && r.data == Null
    ensures r.errorMessages == s.errorMessages + Elements(err)
    ensures CodesGiven(codes) ==> r.errorCodes == s.errorCodes + Elements(codes.value)
    ensures !CodesGiven(codes) ==> r.errorCodes == s.errorCodes
    ensures r.keyValueData == s.keyValueData
    ensures GroupsExclusive(r)
  {
    var e := ErrorAdded(s);
    e.(errorMessages := e.errorMessages + Elements(err),
       errorCodes := AppendCodes(e.errorCodes, codes))
  }

  /** `add_success($data, $message, $code)`: the data replaces the cleared
      data when it is not null; message and code are appended only when
      truthy. */
  function AddSuccess(s: State, data: Value, message: Option<Items<string>>, code: Option<Items<int>>): (r: State)
    ensures r.status == Success && r.statusCode == 200
    ensures r.errorMessages == [] && r.errorCodes == []
    ensures r.data == data
    ensures MessageGiven(message) ==> r.successMessages == s.successMessages + Elements(message.value)
    ensures !MessageGiven(message) ==> r.successMessages == s.successMessages
    ensures CodesGiven(code) ==> r.successCodes == s.successCodes + Elements(code.value)
    ensures !CodesGiven(code) ==> r.successCodes == s.successCodes
    ensures r.keyValueData == s.keyValueData
    ensures GroupsExclusive(r)
  {
    var e := SuccessAdded(s);
    var e' := if data != Null then e.(data := data) else e;
    e'.(successMessages := AppendMessages(e'.successMessages, message),
        successCodes := AppendCodes(e'.successCodes, code))
  }

  /** `add_data($data)`: only the data changes. */
  function AddData(s: State, d: Value): (r: State)
    ensures r.data == d
    ensures r.(data := s.data) == s
  {
    s.(data := d)
  }

  /** `clear_message()`: both groups are emptied; nothing else changes. */
  function ClearMessage(s: State): (r: State)
    ensures r.errorMessages == [] && r.errorCodes == [] && r.successMessages == [] && r.successCodes == []
    ensures r.status == s.status && r.statusCode == s.statusCode
    ensures r.data == s.data && r.keyValueData == s.keyValueData
    ensures GroupsExclusive(r)
  {
    s.(errorMessages := [], errorCodes := [], successMessages := [], successCodes := [])
  }

  /** `clear_data()`: only the data changes, to null. */
  function ClearData(s: State): (r: State)
    ensures r.data == Null
    ensures r.(data := s.data) == s
  {
    s.(data := Null)
  }

  /** `add_message($msg, $codes)`: re-enters `add_success` with the current
      data while in success, and `add_error` while in error. */
  function AddMessage(s: State, msg: Items<string>, codes: Option<Items<int>>): (r: State)
    ensures r.status == s.status
    ensures r.keyValueData == s.keyValueData
    ensures GroupsExclusive(r)
    ensures s.status == Success ==>
      && r.statusCode == 200 && r.data == s.data
      && r.errorMessages == [] && r.errorCodes == []
      && r.successMessages == AppendMessages(s.successMessages, Some(msg))
      && r.successCodes == AppendCodes(s.successCodes, codes)
    ensures s.status == Error ==>
      && r.statusCode == 400 && r.data == Null
      && r.successMessages == [] && r.successCodes == []
      && r.errorMessages == s.errorMessages + Elements(msg)
      && r.errorCodes == AppendCodes(s.errorCodes, codes)
  {
    if s.status == Success then AddSuccess(s, s.data, Some(msg), codes)
    else AddError(s, msg, codes)
  }

  /** `setStatusCode($code)`: the code is stored as given. */
  function SetStatusCode(s: State, code: int): (r: State)
    ensures r.statusCode == code
    ensures r.(statusCode := s.statusCode) == s
  {
    s.(statusCode := code)
  }

  /** The state after `getStatusCode()`: a stored 200 is corrected to 400
      while in error. The code it returns is the new state's code. */
  function Settled(s: State): (r: State)
    ensures r.status == Error ==> r.statusCode != 200
    ensures r.statusCode != s.statusCode ==> s.status == Error && s.statusCode == 200 && r.statusCode == 400
    ensures r.(statusCode := s.statusCode) == s
  {
    if s.statusCode == 200 && s.status == Error then s.(statusCode := 400) else s
  }

  /** `setKeyValueData($key, $value)`: upserts one entry of the extra map. */
  function SetKeyValueData(s: State, key: string, value: Value): (r: State)
    ensures key in r.keyValueData && r.keyValueData[key] == value
    ensures forall k :: k != key ==> (k in r.keyValueData <==> k in s.keyValueData)
    ensures forall k :: k != key && k in s.keyValueData ==> r.keyValueData[k] == s.keyValueData[k]
    ensures r.(keyValueData := s.keyValueData) == s
  {
    s.(keyValueData := s.keyValueData[key := value])
  }

  /** `get_in_array()`: the reserved keys built from the settled state,
      merged over the extra entries so that a reserved key wins. */
  function InArray(s: State): (m: map<string, Value>)
    ensures m.Keys == s.keyValueData.Keys + ReservedKeys
    ensures m["status_code"] == Int(Settled(s).statusCode)
    ensures s.status == Error ==> m["status_code"] != Int(200)
    ensures m["status"] == Str("error") <==> s.status == Error
    ensures m["status"] == Str("success") <==> s.status == Success
    ensures m["error"] == StringList(s.errorMessages) && m["error_code"] == IntList(s.errorCodes)
    ensures m["success"] == StringList(s.successMessages) && m["success_code"] == IntList(s.successCodes)
    ensures s.data == Null ==> m["data"] == List([])
    ensures s.data != Null ==> m["data"] == s.data
    ensures forall k :: k in s.keyValueData && k !in ReservedKeys ==> m[k] == s.keyValueData[k]
  {
    var t := Settled(s);
    var reserved := map[
      "status_code" := Int(t.statusCode),
      "status" := Str(if s.status == Error then "error" else "success"),
      "error" := StringList(s.errorMessages),
      "error_code" := IntList(s.errorCodes),
      "success" := StringList(s.successMessages),
      "success_code" := IntList(s.successCodes),
      "data" := if s.data == Null then List([]) else s.data];
    s.keyValueData + reserved
  }

  /** Calling `clear_message()` a second time changes nothing. */
  lemma ClearMessageIdempotent(s: State)
    ensures ClearMessage(ClearMessage(s)) == ClearMessage(s)
  {
  }

  /** `clear_data()` after `add_data($d)` leaves the same state as
      `clear_data()` alone: the payload set in between leaves no trace. */
  lemma ClearDataForgetsAddData(s: State, d: Value)
    ensures ClearData(AddData(s, d)) == ClearData(s)
  {
  }

  /** A second `getStatusCode()` returns the same code and changes nothing. */
  lemma SettledIdempotent(s: State)
    ensures Settled(Settled(s)) == Settled(s)
  {
  }

  /** An extra entry never shows through a reserved key of `get_in_array()`,
      whichever key it is stored under. */
  lemma ReservedKeysWin(s: State, key: string, value: Value, reserved: string)
    requires reserved in ReservedKeys
    ensures InArray(SetKeyValueData(s, key, value))[reserved] == InArray(s)[reserved]
  {
  }
}
