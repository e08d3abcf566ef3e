/** Sequences of calls on one CallReturn object, and what holds across them:
    the two groups never fill at the same time, error messages accumulate
    until a success or a clear, the extra entries survive every status change,
    and the status is the one chosen by the latest add_error or add_success. */
module CallSequences {
  import opened PhpValues
  import opened Transitions

  /** One call of a public operation that can change the object. The pure
      reads (is_error, the getters, getKeyValueData) are left out: they change
      nothing. */
  datatype Call =
    | AddErrorCall(err: Items<string>, codes: Option<Items<int>>)
    | AddSuccessCall(payload: Value, message: Option<Items<string>>, code: Option<Items<int>>)
    | AddDataCall(newData: Value)
    | ClearMessageCall
    | ClearDataCall
    | AddMessageCall(msg: Items<string>, codes: Option<Items<int>>)
    | SetStatusCodeCall(newCode: int)
    | GetStatusCodeCall
    | SetKeyValueDataCall(key: string, value: Value)
    | GetInArrayCall

  function Step(s: State, c: Call): State
  {
    match c
    case AddErrorCall(err, codes) => AddError(s, err, codes)
    case AddSuccessCall(d, message, code) => AddSuccess(s, d, message, code)
    case AddDataCall(d) => AddData(s, d)
    case ClearMessageCall => ClearMessage(s)
    case ClearDataCall => ClearData(s)
    case AddMessageCall(msg, codes) => AddMessage(s, msg, codes)
    case SetStatusCodeCall(code) => SetStatusCode(s, code)
    case GetStatusCodeCall => Settled(s)
    case SetKeyValueDataCall(key, value) => SetKeyValueData(s, key, value)
    case GetInArrayCall => Settled(s)
  }

  /** The state after making the calls in order, starting from `s`. */
  function Run(s: State, calls: seq<Call>): State
    decreases |calls|
  {
    if calls == [] then s else Run(Step(s, calls[0]), calls[1..])
  }

  /** The status a sequence of calls leaves, read off the calls alone: the
      latest add_error or add_success decides, and `st` when there is none. */
  function LatestStatus(st: Status, calls: seq<Call>): Status
    decreases |calls|
  {
    if calls == [] then st
    else match calls[|calls| - 1]
      case AddErrorCall(_, _) => Error
      case AddSuccessCall(_, _, _) => Success
      case _ => LatestStatus(st, calls[..|calls| - 1])
  }

  /** The concatenation of the messages of several add_error calls. */
  function Flatten(errs: seq<Items<string>>): seq<string>
    decreases |errs|
  {
    if errs == [] then [] else Elements(errs[0]) + Flatten(errs[1..])
  }

  /** One add_error call per element of `errs`, without codes. */
  function ErrorCalls(errs: seq<Items<string>>): (calls: seq<Call>)
    ensures |calls| == |errs|
    ensures forall i :: 0 <= i < |errs| ==> calls[i] == AddErrorCall(errs[i], None)
  {
    seq(|errs|, i requires 0 <= i < |errs| => AddErrorCall(errs[i], None))
  }

  /** Every call keeps the object invariant. */
  lemma StepKeepsGroupsExclusive(s: State, c: Call)
    requires GroupsExclusive(s)
    ensures GroupsExclusive(Step(s, c))
  {
  }

  /** However many calls are made, the invariant holds after them all. */
  lemma {:induction false} RunKeepsGroupsExclusive(s: State, calls: seq<Call>)
    requires GroupsExclusive(s)
    ensures GroupsExclusive(Run(s, calls))
    decreases |calls|
  {
    if calls != [] {
      StepKeepsGroupsExclusive(s, calls[0]);
      RunKeepsGroupsExclusive(Step(s, calls[0]), calls[1..]);
    }
  }

  /** Making one more call is one more step after the others. */
  lemma {:induction false} RunSnoc(s: State, calls: seq<Call>, c: Call)
    ensures Run(s, calls + [c]) == Step(Run(s, calls), c)
    decreases |calls|
  {
    if calls == [] {
      assert calls + [c] == [c];
    } else {
      assert (calls + [c])[0] == calls[0];
      assert (calls + [c])[1..] == calls[1..] + [c];
      RunSnoc(Step(s, calls[0]), calls[1..], c);
    }
  }

  /** The status after any calls is the one the latest add_error or
      add_success chose; add_message and every other call keep it. */
  lemma {:induction false} RunStatusIsLatest(s: State, calls: seq<Call>)
    ensures Run(s, calls).status == LatestStatus(s.status, calls)
    decreases |calls|
  {
    if calls != [] {
      var front, last := calls[..|calls| - 1], calls[|calls| - 1];
      assert calls == front + [last];
      RunSnoc(s, front, last);
      RunStatusIsLatest(s, front);
    }
  }

  /** Extra entries survive every call except setKeyValueData. */
  lemma {:induction false} RunKeepsKeyValueData(s: State, calls: seq<Call>)
    requires forall i :: 0 <= i < |calls| ==> !calls[i].SetKeyValueDataCall?
    ensures Run(s, calls).keyValueData == s.keyValueData
    decreases |calls|
  {
    if calls != [] {
      RunKeepsKeyValueData(Step(s, calls[0]), calls[1..]);
    }
  }

  /** Without add_success or clear_message, error messages already present
      are never lost: add_error and add_message only append to them. */
  lemma {:induction false} RunKeepsErrorMessages(s: State, calls: seq<Call>)
    requires GroupsExclusive(s)
    requires forall i :: 0 <= i < |calls| ==> !calls[i].AddSuccessCall? && !calls[i].ClearMessageCall?
    ensures s.errorMessages <= Run(s, calls).errorMessages
    decreases |calls|
  {
    if calls != [] {
      var t := Step(s, calls[0]);
      assert s.errorMessages <= t.errorMessages;
      StepKeepsGroupsExclusive(s, calls[0]);
      RunKeepsErrorMessages(t, calls[1..]);
    }
  }

  /** Successive add_error calls accumulate their messages in call order,
      and the object ends in error. */
  lemma {:induction false} ErrorsAccumulate(s: State, errs: seq<Items<string>>)
    requires errs != []
    ensures Run(s, ErrorCalls(errs)).errorMessages == s.errorMessages + Flatten(errs)
    ensures Run(s, ErrorCalls(errs)).status == Error
    decreases |errs|
  {
    var t := AddError(s, errs[0], None);
    assert ErrorCalls(errs)[1..] == ErrorCalls(errs[1..]);
    if |errs| == 1 {
      assert Flatten(errs) == Elements(errs[0]);
    } else {
      ErrorsAccumulate(t, errs[1..]);
      assert s.errorMessages + Flatten(errs) == (s.errorMessages + Elements(errs[0])) + Flatten(errs[1..]);
    }
  }
}
