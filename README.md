# CallReturn, modelled in Dafny

`CallReturn` is a small PHP result object that functions and API handlers
return. It records a status (`success` or `error`), an HTTP-like status code,
two groups of messages and codes (error and success), an optional payload
(`data`) and extra key/value entries. Its fluent mutators move the object
between the two statuses: turning into error clears the success group and the
payload and sets the code to 400; turning into success clears the error group
and the payload and sets the code to 200. `get_in_array` serialises the object
to a flat map with reserved keys that win over the extra entries.

The project has four modules:

- `PhpValues` (`php_values.dfy`): the PHP values involved. `Value` covers
  null, booleans, integers, strings, lists and string-keyed associative
  arrays; `Items<T>` is a `string|string[]` or `int|int[]` argument; the
  predicates `MessageGiven` and `CodesGiven` are PHP truthiness of the optional
  message and code arguments (null, `""`, `"0"`, `0` and `[]` are false).
- `Transitions` (`transitions.dfy`): the eight fields as a `State` value and
  one function per operation, each stating the new value of every field, plus
  lemmas about combining them.
- `CallReturns` (`call_return.dfy`): the class `CallReturn` with the same
  eight fields, updated in place. Each mutator has `modifies this` and is
  proved to leave `Snapshot()` equal to the matching `Transitions` function of
  the old snapshot. The object invariant `Valid()` says that only one group of
  messages and codes is populated at a time. Four client methods replay the
  scenarios of the library's unit tests and of the status-code correction.
- `CallSequences` (`call_sequences.dfy`): arbitrary sequences of calls, and
  what holds across them, proved by induction.

The payload is a `Value` whose `Null` is PHP null rather than an
`Option<Value>`: `add_data(null)` stores null, extra values may be null, and
`getKeyValueData($key)` answers null both for a missing key and for a key
stored with null (`?? null`). The model follows the code in two places where a
reader of the doc comments might expect otherwise: `add_error` appends its
message unconditionally while `add_success` appends its message only when it
is truthy, and `add_message` in success resets the status code to 200 and in
error clears the payload, because it re-enters `add_success` or `add_error`.

## Model

| member | source | states |
|---|---|---|
| `Transitions.AppendMessages` | src/CallReturn.php:111-114 | the success messages gain the argument's elements exactly when the argument is truthy, and are unchanged otherwise |
| `Transitions.AppendCodes` | src/CallReturn.php:86-89 | a code list gains the argument's elements exactly when the argument is truthy (null, 0 and `[]` append nothing) |
| `Transitions.ErrorAdded` | src/CallReturn.php:48-55 | entering error clears success messages, success codes and data, sets status error and code 400, and keeps the error group and the extra map |
| `Transitions.SuccessAdded` | src/CallReturn.php:62-69 | entering success clears error messages, error codes and data, sets status success and code 200, and keeps the success group and the extra map |
| `Transitions.AddError` | src/CallReturn.php:79-92 | after `add_error` the object is in error with code 400, the success group and data are empty, the error messages are the old ones followed by the argument (always), the codes are appended only when truthy, the extra map is unchanged, and the invariant holds |
| `Transitions.AddSuccess` | src/CallReturn.php:104-121 | after `add_success` the object is in success with code 200, the error group is empty, data equals the argument (null stays null), message and code are appended only when truthy, the extra map is unchanged, and the invariant holds |
| `Transitions.AddData` | src/CallReturn.php:127-132 | only `data` changes, to the argument |
| `Transitions.ClearMessage` | src/CallReturn.php:137-145 | all four lists become empty; status, code, data and extra map are unchanged |
| `Transitions.ClearData` | src/CallReturn.php:150-155 | only `data` changes, to null |
| `Transitions.AddMessage` | src/CallReturn.php:162-170 | the status never changes; in success data is kept, code becomes 200, the error group is emptied and the success lists grow when truthy; in error data becomes null, code becomes 400, the success group is emptied and the message is appended to the error messages |
| `Transitions.SetStatusCode` | src/CallReturn.php:222-226 | only the code changes, to the argument, whatever it is |
| `Transitions.Settled` | src/CallReturn.php:231-237 | reading the code never yields 200 in error; the stored code changes only from 200 to 400 in error; no other field changes |
| `Transitions.SetKeyValueData` | src/CallReturn.php:270-274 | the key maps to the value afterwards, every other key keeps its presence and value, and no other field changes |
| `Transitions.InArray` | src/CallReturn.php:287-299 | the keys are exactly the extra keys plus the seven reserved ones; `status` is `"error"` exactly when in error and `"success"` exactly when in success; `status_code` is the corrected code and never 200 in error; the four lists are serialised in order; `data` is `[]` for null and the payload otherwise; every non-reserved extra key keeps its value |
| `Transitions.ClearMessageIdempotent` | src/CallReturn.php:137-145 | calling `clear_message` twice leaves the same state as once |
| `Transitions.ClearDataForgetsAddData` | src/CallReturn.php:127-155 | `clear_data` after `add_data` leaves the same state as `clear_data` alone |
| `Transitions.SettledIdempotent` | src/CallReturn.php:231-237 | a second `getStatusCode` returns the same code and changes nothing |
| `Transitions.ReservedKeysWin` | src/CallReturn.php:298 | storing an extra entry under any key, reserved or not, changes no reserved key of the serialised map |
| `CallReturns.CallReturn.constructor` | src/CallReturn.php:30-41 | a new object is a success with code 200, four empty lists, null data and an empty extra map, and satisfies the invariant |
| `CallReturns.CallReturn.EventErrorAdded` | src/CallReturn.php:48-55 | the fields move as `Transitions.ErrorAdded` says |
| `CallReturns.CallReturn.EventSuccessAdded` | src/CallReturn.php:62-69 | the fields move as `Transitions.SuccessAdded` says |
| `CallReturns.CallReturn.AddError` | src/CallReturn.php:79-92 | the fields move as `Transitions.AddError` says; afterwards `IsError()` holds and so does the invariant |
| `CallReturns.CallReturn.AddSuccess` | src/CallReturn.php:104-121 | the fields move as `Transitions.AddSuccess` says; afterwards `IsSuccess()` holds and so does the invariant |
| `CallReturns.CallReturn.AddData` | src/CallReturn.php:127-132 | the fields move as `Transitions.AddData` says; the invariant is kept |
| `CallReturns.CallReturn.ClearMessage` | src/CallReturn.php:137-145 | the fields move as `Transitions.ClearMessage` says; the invariant holds afterwards |
| `CallReturns.CallReturn.ClearData` | src/CallReturn.php:150-155 | the fields move as `Transitions.ClearData` says; the invariant is kept |
| `CallReturns.CallReturn.AddMessage` | src/CallReturn.php:162-170 | the status is unchanged and the fields move as `Transitions.AddMessage` says |
| `CallReturns.CallReturn.IsError` | src/CallReturn.php:175-186 | `is_error` holds exactly when `is_success` does not |
| `CallReturns.CallReturn.GetMessage` | src/CallReturn.php:191-194 | under the invariant, the messages of the current status are all the messages the object holds |
| `CallReturns.CallReturn.SetStatusCode` | src/CallReturn.php:222-226 | the fields move as `Transitions.SetStatusCode` says; the invariant is kept |
| `CallReturns.CallReturn.GetStatusCode` | src/CallReturn.php:231-237 | the fields move as `Transitions.Settled` says; the returned code is the stored one and is never 200 in error |
| `CallReturns.CallReturn.GetKeyValueData` | src/CallReturn.php:259-262 | with no key the whole extra map; with a key its value when present; null exactly when the key is absent or stored with null |
| `CallReturns.CallReturn.SetKeyValueData` | src/CallReturn.php:270-274 | reading the key afterwards gives the value, reading any other key gives what it gave before, and the fields move as `Transitions.SetKeyValueData` says |
| `CallReturns.CallReturn.GetInArray` | src/CallReturn.php:287-299 | the result is `Transitions.InArray` of the state before the call, and the code is settled as `getStatusCode` settles it |
| `CallReturns.ErrorReturnUsage` | tests/UnitTest.php:16-23 | a new object is in error after one `add_error` |
| `CallReturns.SuccessUsage` | tests/UnitTest.php:25-35 | a new object is a success, and still one after `add_success(1, 'done')` |
| `CallReturns.KeyValueUsage` | tests/UnitTest.php:37-57 | after `add_data`, `total => '100'` and `status => 'error'`, the serialised map holds every reserved key, `status` is still `"success"`, the lists are empty, `data` is the payload and `total` is `"100"` |
| `CallReturns.StatusCodeUsage` | src/CallReturn.php:222-237 | a code of 200 stored in error reads as 400; a code of 404 set after the error reads as 404 |
| `CallSequences.StepKeepsGroupsExclusive` | src/CallReturn.php:48-69 | every mutator keeps only one group of messages and codes populated |
| `CallSequences.RunKeepsGroupsExclusive` | src/CallReturn.php:48-69 | the invariant holds after any sequence of calls |
| `CallSequences.RunStatusIsLatest` | src/CallReturn.php:162-170 | after any sequence of calls the status is the one chosen by the latest `add_error` or `add_success`; `add_message` and every other call keep it |
| `CallSequences.RunKeepsKeyValueData` | src/CallReturn.php:270-274 | the extra map survives every call other than `setKeyValueData`, status changes included |
| `CallSequences.RunKeepsErrorMessages` | src/CallReturn.php:71-92 | without `add_success` or `clear_message`, error messages already present are never lost |
| `CallSequences.ErrorsAccumulate` | src/CallReturn.php:79-92 | successive `add_error` calls leave the old error messages followed by all the new ones in call order, and the object in error |

## Left out

- `headerJson`, `headerJsonWithError` and `headerJsonWithSuccess` (src/CallReturn.php:301-319): they send an HTTP header and response code, echo JSON and end the process; their `add_error`/`add_success` steps are the modelled methods.
- JSON encoding of the serialised map: a library call; the model stops at the map `get_in_array` returns.
- The `return $this` of every mutator: the Dafny methods return nothing, since chaining only changes how callers write calls.
- The plain getters `get_success_message`, `get_error_message`, `get_data`, `get_error_codes` and `get_success_codes`: they return a field, and the Dafny fields are readable directly.
- PHP array details: `array_merge` renumbering of numeric-looking string keys, the insertion order of the serialised map and of associative arrays, and the difference between a list and an associative array beyond the `List`/`Dict` split. Extra keys are treated as non-numeric strings.
- Messages other than strings and codes other than integers, and associative arrays passed as messages or codes: the arguments are typed as their doc comments say. In particular a null passed to `add_error` is not modelled.
- Floating-point numbers and objects as payload or extra values.
- The `is_null` checks on the array fields in `get_in_array` (src/CallReturn.php:292-295): they can never be true, so the lists are serialised as they are.
- The nullable type of `status`: only `'success'` and `'error'` are ever assigned, so it is a two-valued `Status`.
- The 64-bit width of PHP integers: the status code and the codes are stored and compared, never computed with.
