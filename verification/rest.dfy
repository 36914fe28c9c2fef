/**
 The REST client as the reconcilers see it, and what a reconciler call
 produces.

 The HTTP client is an oracle: an operation does not perform a request, it
 records the request in its trace and receives the answer as a parameter.
 An answer is either a transport failure (the client returned an error) or a
 status code together with the body the client decoded into the receiving
 record.
 */
module Rest {

  datatype Option<+T> = None | Some(value: T)

  const StatusOK: int := 200
  const StatusCreated: int := 201
  const StatusNoContent: int := 204
  const StatusNotFound: int := 404
  const StatusConflict: int := 409

  /** The 2xx range, the statuses for which the client decodes a response body. */
  predicate IsSuccess(status: int) {
    200 <= status <= 299
  }

  datatype Method = GET | POST | PATCH | DELETE

  /** A JSON scalar of a request body. */
  datatype Field = Text(text: string) | Number(number: int)

  /** A JSON object: field name to value, omitted fields absent. */
  type Payload = map<string, Field>

  /** Adds a text field, omitted when empty (a Go `omitempty` string). */
  function WithText(body: Payload, key: string, value: string): (r: Payload)
    ensures key in r <==> key in body || value != ""
    ensures value != "" ==> r[key] == Text(value)
    ensures forall k :: k in body && k != key ==> k in r && r[k] == body[k]
    ensures forall k :: k in r ==> k in body || k == key
  {
    if value == "" then body else body[key := Text(value)]
  }

  /** Adds a number field, omitted when zero (a Go `omitempty` int). */
  function WithNumber(body: Payload, key: string, value: int): (r: Payload)
    ensures key in r <==> key in body || value != 0
    ensures value != 0 ==> r[key] == Number(value)
    ensures forall k :: k in body && k != key ==> k in r && r[k] == body[k]
    ensures forall k :: k in r ==> k in body || k == key
  {
    if value == 0 then body else body[key := Number(value)]
  }

  /** Reads a text field; a missing field decodes to "". */
  function TextOf(body: Payload, key: string): string {
    if key in body && body[key].Text? then body[key].text else ""
  }

  /** Reads a number field; a missing field decodes to 0. */
  function NumberOf(body: Payload, key: string): int {
    if key in body && body[key].Number? then body[key].number else 0
  }

  /** One request as issued: verb, path relative to the API root, query pairs, JSON body. */
  datatype Request = Request(verb: Method, path: string, query: seq<(string, string)>, body: Option<Payload>)

  /**
   The client's answer. `body` is what the client decoded into the receiving
   record; a decoding failure is reported by the client as an error and so
   counts as `TransportFailure` here.
   */
  datatype Response<B> = TransportFailure | Reply(status: int, body: B)

  /**
   The client leaves the receiving record at its zero value unless the
   status is 2xx (it decodes successful responses only).
   */
  predicate DecodesOnlyOnSuccess<B(==)>(response: Response<B>, zero: B) {
    response.Reply? && !IsSuccess(response.status) ==> response.body == zero
  }

  /**
   A 204 No Content answer carries no body, so the client leaves the
   receiving record at its zero value.
   */
  predicate DecodesNothingOnNoContent<B(==)>(response: Response<B>, zero: B) {
    response.Reply? && response.status == StatusNoContent ==> response.body == zero
  }

  datatype ErrorKind =
    | Transport                    // the request itself failed
    | Conflict                     // 409 on creating an upstream
    | UnexpectedStatus(status: int) // any status outside the operation's success set

  datatype Outcome = Ok | Absent | Failed(kind: ErrorKind)

  /** What one reconciler call produces: requests issued in order, new resource data, outcome. */
  datatype Step<D> = Step(requests: seq<Request>, data: D, outcome: Outcome)

  /** An identifier is set when it is not the empty string (Terraform's convention for `id`). */
  predicate IsSet(id: string) {
    id != ""
  }
}

/**
 The lifecycle shared by both resource kinds, as a reference against which
 every operation is checked. A resource is Unbound while its id is empty and
 Bound to its id otherwise.
 */
module Lifecycle {
  import opened Rest

  datatype Operation = Create | Read | Update | Delete

  datatype Phase = Unbound | Bound(id: string)

  function PhaseOf(id: string): (p: Phase)
    ensures p.Unbound? <==> !IsSet(id)
  {
    if IsSet(id) then Bound(id) else Unbound
  }

  /**
   The transitions an operation may make:
   - an error never moves the resource, and only a Create of a kind that
     reports conflicts (`conflicts`) reports a Conflict;
   - absence is reported only by Read, and unbinds the resource;
   - a Delete that succeeds leaves the resource data as it was (forgetting
     the id is left to the caller).
   */
  ghost predicate Permitted(op: Operation, conflicts: bool, before: Phase, after: Phase, outcome: Outcome) {
    match outcome
    case Failed(kind) => after == before && (kind.Conflict? ==> op == Create && conflicts)
    case Absent => op == Read && after == Unbound
    case Ok => op == Delete ==> after == before
  }
}
