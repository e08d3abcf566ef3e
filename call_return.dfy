/** The CallReturn class: a mutable result object that a function or an API
    call returns, holding a status, a status code, error and success messages
    and codes, a payload and extra key/value entries. Every mutator is proved
    to move the object's fields exactly as the matching function of module
    Transitions moves a State. */
module CallReturns {
  import opened PhpValues
  import opened Transitions

  class CallReturn {
    var status: Status
    var statusCode: int
    var errorMessages: seq<string>
    var errorCodes: seq<int>
    var successMessages: seq<string>
    var successCodes: seq<int>
    var data: Value
    var keyValueData: map<string, Value>

    /** The object's fields as one value. */
    function Snapshot(): State
      reads this
    {
      State(status, statusCode, errorMessages, errorCodes, successMessages, successCodes, data, keyValueData)
    }

    /** The object invariant: only one group of messages and codes is populated. */
    ghost predicate Valid()
      reads this
    {
      GroupsExclusive(Snapshot())
    }

    constructor ()
      ensures Valid() && Snapshot() == Initial
      ensures IsSuccess() && !IsError()
    {
      status := Success;
      statusCode := 200;
      errorMessages := [];
      errorCodes := [];
      successMessages := [];
      successCodes := [];
      data := Null;
      keyValueData := map[];
    }

    /** Turn into error: clear the success group and the data. */
    method EventErrorAdded()
      modifies this
      ensures Snapshot() == Transitions.ErrorAdded(old(Snapshot()))
    {
      successMessages := [];
      successCodes := [];
      data := Null;
      status := Error;
      statusCode := 400;
    }

    /** Turn into success: clear the error group and the data. */
    method EventSuccessAdded()
      modifies this
      ensures Snapshot() == Transitions.SuccessAdded(old(Snapshot()))
    {
      errorMessages := [];
      errorCodes := [];
      data := Null;
      status := Success;
      statusCode := 200;
    }

    /** Add one error message or several; keep earlier error messages. */
    method AddError(err: Items<string>, codes: Option<Items<int>>)
      modifies this
      ensures Valid() && IsError()
      ensures Snapshot() == Transitions.AddError(old(Snapshot()), err, codes)
    {
      EventErrorAdded();
      match err {
        case Many(es) => errorMessages := errorMessages + es;
        case One(e) => errorMessages := errorMessages + [e];
      }
      if CodesGiven(codes) {
        match codes.value {
          case Many(ns) => errorCodes := errorCodes + ns;
          case One(n) => errorCodes := errorCodes + [n];
        }
      }
    }

    /** Add a success with an optional payload, message and code; keep earlier
        success messages. */
    method AddSuccess(d: Value, message: Option<Items<string>>, code: Option<Items<int>>)
      modifies this
      ensures Valid() && IsSuccess()
      ensures Snapshot() == Transitions.AddSuccess(old(Snapshot()), d, message, code)
    {
      EventSuccessAdded();
      if d != Null {
        data := d;
      }
      if MessageGiven(message) {
        match message.value {
          case Many(ms) => successMessages := successMessages + ms;
          case One(m) => successMessages := successMessages + [m];
        }
      }
      if CodesGiven(code) {
        match code.value {
          case Many(ns) => successCodes := successCodes + ns;
          case One(n) => successCodes := successCodes + [n];
        }
      }
    }

    method AddData(d: Value)
      requires Valid()
      modifies this
      ensures Valid()
      ensures Snapshot() == Transitions.AddData(old(Snapshot()), d)
    {
      data := d;
    }

    method ClearMessage()
      modifies this
      ensures Valid()
      ensures Snapshot() == Transitions.ClearMessage(old(Snapshot()))
    {
      errorMessages := [];
      errorCodes := [];
      successMessages := [];
      successCodes := [];
    }

    method ClearData()
      requires Valid()
      modifies this
      ensures Valid()
      ensures Snapshot() == Transitions.ClearData(old(Snapshot()))
    {
      data := Null;
    }

    /** Add a message to whichever group the current status selects. */
    method AddMessage(msg: Items<string>, codes: Option<Items<int>>)
      modifies this
      ensures Valid() && status == old(status)
      ensures Snapshot() == Transitions.AddMessage(old(Snapshot()), msg, codes)
    {
      if status == Success {
        AddSuccess(data, Some(msg), codes);
      } else {
        AddError(msg, codes);
      }
    }

    predicate IsError()
      reads this
      ensures IsError() <==> !IsSuccess()
    {
      status == Error
    }

    predicate IsSuccess()
      reads this
    {
      status == Success
    }

    /** The messages of the current status: under the invariant, all of them. */
    function GetMessage(): (r: seq<string>)
      reads this
      requires Valid()
      ensures r == successMessages + errorMessages
    {
      if status == Success then successMessages else errorMessages
    }

    method SetStatusCode(code: int)
      requires Valid()
      modifies this
      ensures Valid()
      ensures Snapshot() == Transitions.SetStatusCode(old(Snapshot()), code)
    {
      statusCode := code;
    }

    /** The status code, corrected from 200 to 400 (and stored) while in error. */
    method GetStatusCode() returns (code: int)
      requires Valid()
      modifies this
      ensures Valid()
      ensures Snapshot() == Settled(old(Snapshot()))
      ensures code == statusCode
      ensures IsError() ==> code != 200
    {
      if statusCode == 200 && IsError() {
        statusCode := 400;
      }
      code := statusCode;
    }

    /** With no key, the whole extra map; with a key, its value, or null when
        the key is absent. */
    function GetKeyValueData(key: Option<string>): (r: Value)
      reads this
      ensures key.None? ==> r == Dict(keyValueData)
      ensures key.Some? && key.value in keyValueData ==> r == keyValueData[key.value]
      ensures key.Some? ==> (r == Null <==> key.value !in keyValueData || keyValueData[key.value] == Null)
    {
      match key
      case None => Dict(keyValueData)
      case Some(k) => if k in keyValueData then keyValueData[k] else Null
    }

    method SetKeyValueData(key: string, value: Value)
      requires Valid()
      modifies this
      ensures Valid()
      ensures Snapshot() == Transitions.SetKeyValueData(old(Snapshot()), key, value)
      ensures GetKeyValueData(Some(key)) == value
      ensures forall k :: k != key ==> GetKeyValueData(Some(k)) == old(GetKeyValueData(Some(k)))
    {
      keyValueData := keyValueData[key := value];
    }

    /** The object as a flat map: the extra entries, overwritten by the
        reserved keys. Settles the status code first, as getStatusCode does. */
    method GetInArray() returns (arr: map<string, Value>)
      requires Valid()
      modifies this
      ensures Valid()
      ensures Snapshot() == Settled(old(Snapshot()))
      ensures arr == InArray(old(Snapshot()))
    {
      var code := GetStatusCode();
      var ret := map[
        "status_code" := Int(code),
        "status" := Str(if IsError() then "error" else "success"),
        "error" := StringList(errorMessages),
        "error_code" := IntList(errorCodes),
        "success" := StringList(successMessages),
        "success_code" := IntList(successCodes),
        "data" := if data == Null then List([]) else data];
      arr := keyValueData + ret;
    }
  }

  /** A new object turns into error on its first `add_error`. */
  method ErrorReturnUsage() returns (isError: bool)
    ensures isError
  {
    var ret := new CallReturn();
    ret.AddError(One("Err"), None);
    isError := ret.IsError();
  }

  /** A new object is a success, and stays one after `add_success`. */
  method SuccessUsage() returns (before: bool, after: bool)
    ensures before && after
  {
    var ret := new CallReturn();
    before := ret.IsSuccess();
    ret.AddSuccess(Int(1), Some(One("done")), None);
    after := ret.IsSuccess();
  }

  /** Extra entries appear in the serialised map, except where they collide
      with a reserved key. */
  method KeyValueUsage() returns (arr: map<string, Value>)
    ensures ReservedKeys <= arr.Keys
    ensures arr["status"] == Str("success")
    ensures arr["error"] == List([]) && arr["error_code"] == List([])
    ensures arr["success"] == List([]) && arr["success_code"] == List([])
    ensures arr["data"] == Dict(map["asd" := Str("ONE")])
    ensures "total" in arr && arr["total"] == Str("100")
  {
    var ret := new CallReturn();
    ret.AddData(Dict(map["asd" := Str("ONE")]));
    ret.SetKeyValueData("total", Str("100"));
    ret.SetKeyValueData("status", Str("error"));
    arr := ret.GetInArray();
  }

  /** A code of 200 stored while in error is read as 400; a code set after
      the error is read as set. */
  method StatusCodeUsage() returns (corrected: int, explicit: int)
    ensures corrected == 400 && explicit == 404
  {
    var ret := new CallReturn();
    ret.AddError(One("x"), None);
    ret.SetStatusCode(200);
    corrected := ret.GetStatusCode();
    ret.SetStatusCode(404);
    explicit := ret.GetStatusCode();
  }
}
