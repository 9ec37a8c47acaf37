/** The REST API's error envelope (apps/core/exceptions.py): the payload of
    an error response is flattened into one human-readable message and
    wrapped as `{'error': {status_code, message, details}}`; `APIError` and
    its subclasses carry a message and a status code. DRF's own
    `exception_handler` is not part of this model: its result is the input
    of `CustomExceptionHandler`. */
module Errors {
  import opened Common

  const DEFAULT_ERROR_MESSAGE: string := "An error occurred"
  const ENTRY_SEPARATOR: string := "; "

  /** A value in an error payload: a list, whose elements appear through
      their `str`, or any other value. `text` is the value's own `str`. */
  datatype ErrorValue =
    | Single(text: string)
    | Many(items: seq<string>, text: string)

  /** `response.data`: a dict (its entries in key order), a list (its
      elements through their `str`), or anything else (a string, `None`). */
  datatype ErrorData =
    | DictData(fields: seq<(string, ErrorValue)>)
    | ListData(elements: seq<string>)
    | OtherData

  /** `key in data` and `data[key]`: the value of the first entry with that key. */
  function Lookup(fields: seq<(string, ErrorValue)>, key: string): (r: Option<ErrorValue>)
    ensures r.None? <==> forall k :: 0 <= k < |fields| ==> fields[k].0 != key
    ensures r.Some? ==> exists k :: 0 <= k < |fields| && fields[k] == (key, r.value)
  {
    if |fields| == 0 then None
    else if fields[0].0 == key then Some(fields[0].1)
    else
      var r := Lookup(fields[1..], key);
      assert r.Some? ==> exists k :: 0 <= k < |fields[1..]| && fields[1..][k] == (key, r.value);
      r
  }

  /** `"{field}: {error}"` for each element of the errors list. */
  function Prefixed(field: string, items: seq<string>): (r: seq<string>)
    ensures |r| == |items|
    ensures forall i :: 0 <= i < |items| ==> r[i] == field + ": " + items[i]
  {
    seq(|items|, i requires 0 <= i < |items| => field + ": " + items[i])
  }

  /** Each entry is the field name and a colon, followed by the item
      unchanged, so both can be read back out of it. */
  lemma PrefixedReadsBack(field: string, items: seq<string>, i: nat)
    requires i < |items|
    ensures var e := Prefixed(field, items)[i];
      && |e| == |field| + 2 + |items[i]|
      && e[..|field|] == field && e[|field|..|field| + 2] == ": " && e[|field| + 2..] == items[i]
  {
  }

  /** The entries one field contributes: one per element of a list value,
      one for any other value. */
  function FieldEntries(field: string, errors: ErrorValue): seq<string> {
    match errors
    case Many(items, _) => Prefixed(field, items)
    case Single(text) => [field + ": " + text]
  }

  /** The `messages` list the nested loops build, field after field. */
  function Entries(fields: seq<(string, ErrorValue)>): seq<string> {
    if |fields| == 0 then []
    else
      var last := fields[|fields| - 1];
      Entries(fields[..|fields| - 1]) + FieldEntries(last.0, last.1)
  }

  /** `get_error_message(data)`. */
  function ErrorMessage(data: ErrorData): string {
    match data
    case DictData(fields) =>
      var detail := Lookup(fields, "detail");
      if detail.Some? then detail.value.text
      else
        var messages := Entries(fields);
        if |messages| > 0 then Join(messages, ENTRY_SEPARATOR) else DEFAULT_ERROR_MESSAGE
    case ListData(elements) =>
      if |elements| > 0 then elements[0] else DEFAULT_ERROR_MESSAGE
    case OtherData => DEFAULT_ERROR_MESSAGE
  }

  /** `get_error_message`, with its loops over the fields and their errors. */
  method GetErrorMessage(data: ErrorData) returns (message: string)
    ensures message == ErrorMessage(data)
  {
    match data {
      case DictData(fields) =>
        var detail := Lookup(fields, "detail");
        if detail.Some? {
          return detail.value.text;
        }
        var messages: seq<string> := [];
        var k := 0;
        while k < |fields|
          invariant 0 <= k <= |fields|
          invariant messages == Entries(fields[..k])
        {
          var (field, errors) := fields[k];
          assert fields[..k + 1][..k] == fields[..k];
          match errors {
            case Many(items, _) =>
              var j := 0;
              while j < |items|
                invariant 0 <= j <= |items|
                invariant messages == Entries(fields[..k]) + Prefixed(field, items[..j])
              {
                messages := messages + [field + ": " + items[j]];
                j := j + 1;
              }
              assert items[..j] == items;
            case Single(text) =>
              messages := messages + [field + ": " + text];
          }
          k := k + 1;
        }
        assert fields[..k] == fields;
        message := if |messages| > 0 then Join(messages, ENTRY_SEPARATOR) else DEFAULT_ERROR_MESSAGE;
      case ListData(elements) =>
        message := if |elements| > 0 then elements[0] else DEFAULT_ERROR_MESSAGE;
      case OtherData =>
        message := DEFAULT_ERROR_MESSAGE;
    }
  }

  /** The entries of consecutive runs of fields follow each other. */
  lemma {:induction false} EntriesAppend(a: seq<(string, ErrorValue)>, b: seq<(string, ErrorValue)>)
    ensures Entries(a + b) == Entries(a) + Entries(b)
  {
    if |b| > 0 {
      var b', last := b[..|b| - 1], b[|b| - 1];
      assert (a + b)[..|a + b| - 1] == a + b';
      assert (a + b)[|a + b| - 1] == last;
      calc {
        Entries(a + b);
        Entries(a + b') + FieldEntries(last.0, last.1);
        { EntriesAppend(a, b'); }
        Entries(a) + Entries(b') + FieldEntries(last.0, last.1);
        Entries(a) + Entries(b);
      }
    } else {
      assert a + b == a;
    }
  }

  /** The entries are in key order: those of field `k` come after those of
      every earlier field and before those of every later one. */
  lemma {:induction false} EntriesInKeyOrder(fields: seq<(string, ErrorValue)>, k: nat)
    requires k < |fields|
    ensures Entries(fields) ==
      Entries(fields[..k]) + FieldEntries(fields[k].0, fields[k].1) + Entries(fields[k + 1..])
  {
    var before, x, after := fields[..k], fields[k], fields[k + 1..];
    assert fields == (before + [x]) + after;
    calc {
      Entries(fields);
      Entries((before + [x]) + after);
      { EntriesAppend(before + [x], after); }
      Entries(before + [x]) + Entries(after);
      { EntriesAppend(before, [x]); }
      Entries(before) + Entries([x]) + Entries(after);
      { EntriesSingle(x); }
      Entries(before) + FieldEntries(x.0, x.1) + Entries(after);
    }
  }

  lemma EntriesSingle(x: (string, ErrorValue))
    ensures Entries([x]) == FieldEntries(x.0, x.1)
  {
    assert [x][..0] == [];
  }

  /** A field contributes nothing exactly when its value is an empty list. */
  predicate NoErrors(v: ErrorValue) {
    v.Many? && |v.items| == 0
  }

  /** There are no entries exactly when every value is an empty list. */
  lemma {:induction false} EntriesEmptyIff(fields: seq<(string, ErrorValue)>)
    ensures |Entries(fields)| == 0 <==> forall k :: 0 <= k < |fields| ==> NoErrors(fields[k].1)
  {
    if |fields| > 0 {
      var init := fields[..|fields| - 1];
      EntriesEmptyIff(init);
      assert forall k :: 0 <= k < |init| ==> init[k] == fields[k];
    }
  }

  /** A `detail` key decides the message, whatever the other keys are. */
  lemma {:induction false} DetailDominates(before: seq<(string, ErrorValue)>, detail: ErrorValue,
                                           after: seq<(string, ErrorValue)>)
    requires forall k :: 0 <= k < |before| ==> before[k].0 != "detail"
    ensures ErrorMessage(DictData(before + [("detail", detail)] + after)) == detail.text
  {
    LookupFindsFirst(before, "detail", detail, after);
  }

  lemma {:induction false} LookupFindsFirst(before: seq<(string, ErrorValue)>, key: string, v: ErrorValue,
                                            after: seq<(string, ErrorValue)>)
    requires forall k :: 0 <= k < |before| ==> before[k].0 != key
    ensures Lookup(before + [(key, v)] + after, key) == Some(v)
  {
    if |before| > 0 {
      LookupFindsFirst(before[1..], key, v, after);
      assert (before + [(key, v)] + after)[1..] == before[1..] + [(key, v)] + after;
    }
  }

  /** The default message appears for a payload that is neither a dict with
      a `detail` or some error, nor a non-empty list; a non-empty list gives
      its first element. */
  lemma FallbackCases(data: ErrorData)
    ensures data.OtherData? ==> ErrorMessage(data) == DEFAULT_ERROR_MESSAGE
    ensures data.ListData? ==>
      ErrorMessage(data) == if |data.elements| > 0 then data.elements[0] else DEFAULT_ERROR_MESSAGE
    ensures data.DictData? && Lookup(data.fields, "detail").None?
            && (forall k :: 0 <= k < |data.fields| ==> NoErrors(data.fields[k].1)) ==>
      ErrorMessage(data) == DEFAULT_ERROR_MESSAGE
    ensures data.DictData? && Lookup(data.fields, "detail").None?
            && (exists k :: 0 <= k < |data.fields| && !NoErrors(data.fields[k].1)) ==>
      ErrorMessage(data) == Join(Entries(data.fields), ENTRY_SEPARATOR)
  {
    if data.DictData? {
      EntriesEmptyIff(data.fields);
    }
  }

  /** The body of an error response. */
  datatype Payload =
    | Raw(data: ErrorData)
    | ErrorEnvelope(statusCode: int, message: string, details: ErrorData)

  /** The response DRF's `exception_handler` produces. */
  class Response {
    const statusCode: int
    var data: Payload

    constructor (status: int, d: ErrorData)
      ensures statusCode == status && data == Raw(d)
    {
      statusCode := status;
      data := Raw(d);
    }
  }

  /** `custom_exception_handler`: given what DRF's handler returned (a
      response whose data is the raw payload, or `None` for exceptions it
      does not handle), rewrite the response's data in place into the
      envelope; the status code is kept and `None` passes through. */
  method CustomExceptionHandler(handled: Option<Response>) returns (r: Option<Response>)
    requires handled.Some? ==> handled.value.data.Raw?
    modifies if handled.Some? then {handled.value} else {}
    ensures r == handled
    ensures handled.Some? ==>
      var raw := old(handled.value.data).data;
      handled.value.data == ErrorEnvelope(handled.value.statusCode, ErrorMessage(raw), raw)
  {
    r := handled;
    if handled.Some? {
      var response := handled.value;
      var raw := response.data.data;
      var message := GetErrorMessage(raw);
      response.data := ErrorEnvelope(response.statusCode, message, raw);
    }
  }

  /** `APIError` and its subclasses. */
  datatype ErrorClass = ApiError | AuthenticationError | ValidationError | NotFoundError
                      | PermissionDeniedError | RateLimitError

  /** The class attribute `status_code`. */
  function DefaultStatus(c: ErrorClass): int {
    match c
    case ApiError => 400
    case AuthenticationError => 401
    case ValidationError => 400
    case NotFoundError => 404
    case PermissionDeniedError => 403
    case RateLimitError => 429
  }

  /** The class attribute `default_message`. */
  function DefaultMessage(c: ErrorClass): string {
    match c
    case ApiError => "An API error occurred"
    case AuthenticationError => "Authentication failed"
    case ValidationError => "Validation error"
    case NotFoundError => "Resource not found"
    case PermissionDeniedError => "Permission denied"
    case RateLimitError => "Rate limit exceeded"
  }

  /** A raised API error: its class, `self.message` (also its `str`) and `self.status_code`. */
  datatype RaisedError = RaisedError(errorClass: ErrorClass, message: string, statusCode: int)

  /** `APIError.__init__` as written: `self.message` is assigned only when a
      message is passed, and `super().__init__(self.message)` then reads it,
      so a missing message is an `AttributeError`. */
  function NewError(c: ErrorClass, message: Option<string>, statusCode: Option<int>): (r: Result<RaisedError, string>)
    ensures r.Ok? <==> message.Some?
    ensures r.Ok? ==> r.value.errorClass == c && r.value.message == message.value
    ensures r.Ok? ==> r.value.statusCode == statusCode.GetOr(DefaultStatus(c))
  {
    if message.None? then Err("AttributeError")
    else Ok(RaisedError(c, message.value, statusCode.GetOr(DefaultStatus(c))))
  }

  /** `APIError.__init__` reading `default_message` when no message is passed. */
  function NewErrorCorrected(c: ErrorClass, message: Option<string>, statusCode: Option<int>): (r: RaisedError)
    ensures r.errorClass == c
    ensures r.message == message.GetOr(DefaultMessage(c))
    ensures statusCode.Some? ==> r.statusCode == statusCode.value
    ensures statusCode.None? ==> r.statusCode == DefaultStatus(c)
    ensures message.Some? ==> NewError(c, message, statusCode) == Ok(r)
  {
    RaisedError(c, message.GetOr(DefaultMessage(c)), statusCode.GetOr(DefaultStatus(c)))
  }

  /** `NotFoundError()` raises `AttributeError` instead of a 404 error, while
      the corrected constructor gives "Resource not found" with status 404. */
  lemma NotFoundWithoutMessageFails()
    ensures NewError(NotFoundError, None, None).Err?
    ensures NewErrorCorrected(NotFoundError, None, None) == RaisedError(NotFoundError, "Resource not found", 404)
  {
  }
}
