# Kong upstream and target reconcilers, in Dafny

This project models the reconciliation logic of the two Terraform resources of
the Kong provider: `kong_upstream` (a named load-balancing target group with
`name` and `slots`) and `kong_target` (a weighted member address `target` /
`weight` of one upstream). Each Create, Read, Update and Delete is a pure
function. It takes the resource data (`id` plus fields) and the
answers of the Kong Admin API. For Update this data holds the stored id
together with the new, declared field values, as Terraform hands them to
the update. It returns a `Step`: the requests it issued
(method, path, query, JSON body), the new resource data, and an outcome.
The outcome is `Ok`, `Absent` (the id was cleared, no error) or
`Failed(kind)`, where the kind is `Transport`, `Conflict` or
`UnexpectedStatus(code)`.

The HTTP client is an oracle. An operation does not send anything. It records
each request in its trace and receives the answer as a parameter: either a
transport failure or a status together with the body the client decoded into
the receiving record.

Files:
- `rest.dfy`: module `Rest` (requests, answers, status constants, outcomes,
  JSON `omitempty` helpers) and module `Lifecycle`. `Lifecycle` is the
  shared Unbound/Bound state machine that every operation is checked against.
- `paths.dfy`: module `Paths`. It reads a `/`-joined request path back
  into its segments, so the proofs can show which resource a request
  addresses.
- `upstream.dfy`: module `KongUpstream`.
- `target.dfy`: module `KongTarget`.

Behaviour kept as the code has it:
- Target Read tests absence before it tests the status. A 404, a listing
  with `total <= 0`, or an empty `data` list all give Absent, whatever the
  status. A 500 with an empty listing is therefore Absent. The client decodes
  only 2xx answers, so every answer outside 2xx reads as Absent
  (`KongTarget.ReadAbsentOutsideSuccess`).
- The POST step of Target Update accepts only 204. Target Create accepts
  201. An update whose POST is answered 201 therefore fails and leaves the
  data unchanged (`KongTarget.UpdateRejectsCreated`).
- The two steps of Target Update fail with the same error kinds. The error
  does not say which step failed. The trace does: it holds one request when
  the DELETE failed and two when the POST failed.
- A successful Delete does not clear the id in either resource. Terraform
  forgets the resource after Delete returns, and that is outside this code.
- The POST step of Target Update succeeds only on 204, and a 204 answer has
  no content. The client then decodes no record, and the update stores the
  empty record. A successful update therefore clears the id and leaves the
  resource Unbound (`KongTarget.UpdateOnEmptyAnswerClearsId`).
- Every field of a request body is omitted when empty or zero. A stored
  target weight of 0 is therefore never sent in the POST of Target Create or
  Update, and an upstream with 0 slots is sent without `slots`.
- The upstream of a target can change without replacing the resource. Target
  Update then sends the DELETE of the stored id to the new upstream's path,
  not the old one (`KongTarget.UpdateDeletesUnderNewUpstream`).
- Target Read stores the upstream from the response's `upstream_id`. A
  target declared with an upstream name ends up holding the upstream's id
  after a refresh.

## Model

| member | source | states |
|---|---|---|
| `KongUpstream.Encode` | kong/resource_kong_upstream.go:10-14 | The JSON body holds only `id`, `name` and `slots`. Each of `id`, `name` and `slots` is present exactly when it is non-empty or non-zero. Decoding the body gives back the record. |
| `KongUpstream.FromResourceData` | kong/resource_kong_upstream.go:120-130 | Name and slots are always copied. The id is set in the request exactly when the stored id is set. Storing the request back gives the original data. |
| `KongUpstream.ToResourceData` | kong/resource_kong_upstream.go:132-136 | The stored id, name and slots are all the response record's. Nothing is kept from the data as it was before. |
| `KongUpstream.StoredRecordRoundTrip` | kong/resource_kong_upstream.go:132-136 | Setting a response record into the data takes id, name and slots from the record. The next request built from that data is the record again. |
| `KongUpstream.ItemPath` | kong/resource_kong_upstream.go:74 | For a `/`-free id, `upstreams/{id}` splits into the segments `upstreams` and the id. |
| `KongUpstream.Create` | kong/resource_kong_upstream.go:50-67 | Issues one POST of the stored fields to `upstreams/`. The checks run in order: a transport error gives Transport, 409 gives Conflict, any other status but 201 gives UnexpectedStatus. Errors leave the data unchanged. On 201 the data is the created record. |
| `KongUpstream.Read` | kong/resource_kong_upstream.go:69-87 | Issues one GET of `upstreams/{id}`. On 404 it reports Absent, clears only the id, and reports no error. A transport error gives Transport. Any other status but 200 gives UnexpectedStatus with that status. Errors leave the data unchanged. On 200 it refreshes id, name and slots from the response. |
| `KongUpstream.Update` | kong/resource_kong_upstream.go:89-103 | Issues one PATCH of the stored fields to `upstreams/{id}`. It succeeds exactly on 200 and then stores the response. A transport error gives Transport, and any other status gives UnexpectedStatus with that status. Every failure leaves the data unchanged. |
| `KongUpstream.Delete` | kong/resource_kong_upstream.go:105-118 | Issues one DELETE of `upstreams/{id}`. It succeeds exactly on 204. A transport error gives Transport, and any other status gives UnexpectedStatus with that status. The data is never changed. |
| `KongUpstream.CreateThenRead` | kong/resource_kong_upstream.go:55-85 | Create answered 201 is followed by a Read answered 200 with the same record. The Read goes to the new id's path. It ends with the requested name and slots and the server's id. |
| `KongUpstream.ReadIdempotent` | kong/resource_kong_upstream.go:78-85 | Reading again with the same answer leaves the data as the first read left it. |
| `KongUpstream.OperationsAddressStoredId` | kong/resource_kong_upstream.go:71-110 | Read, Update and Delete address the same path, `upstreams/{stored id}`. |
| `KongTarget.Encode` | kong/resource_kong_target.go:10-15 | The JSON body holds only `id`, `target` and `weight`, never the upstream. Each of `id`, `target` and `weight` is present exactly when it is non-empty or non-zero. Decoding the body gives back the request with the upstream dropped. |
| `KongTarget.FromResourceData` | kong/resource_kong_target.go:149-161 | Target, weight and upstream are always copied. The id is set exactly when the stored id is set. No stored field is lost. |
| `KongTarget.ToResourceData` | kong/resource_kong_target.go:163-168 | The stored id, target, weight and upstream are all the response record's. The upstream is the record's `upstream_id`. |
| `KongTarget.StoredRecordRoundTrip` | kong/resource_kong_target.go:163-168 | Setting a response record into the data takes all four fields from it, including the upstream from `upstream_id`. The next request carries those values. |
| `KongTarget.ReadQuery` | kong/resource_kong_target.go:94 | The read query is `id={id}`. It is empty exactly when the id is unset. |
| `KongTarget.CollectionPath` | kong/resource_kong_target.go:79 | For a `/`-free upstream, `upstreams/{upstream}/targets` splits into `upstreams`, the upstream and `targets`. |
| `KongTarget.ItemPath` | kong/resource_kong_target.go:140 | For a `/`-free upstream and id, `upstreams/{upstream}/targets/{id}` splits into `upstreams`, the upstream, `targets` and the id. |
| `KongTarget.ActivePath` | kong/resource_kong_target.go:97 | For a `/`-free upstream, the read path splits into `upstreams`, the upstream, `targets`, `active` and a trailing empty segment. |
| `KongTarget.PostRequest` | kong/resource_kong_target.go:125 | The creating request is a POST with no query to the upstream's target collection. Its body is the encoding of the stored target, so it decodes to the target without the upstream and carries `weight` exactly when the weight is non-zero. |
| `KongTarget.DeleteRequest` | kong/resource_kong_target.go:118 | The removing request is a DELETE with no query and no body, sent to the stored target's item path. |
| `KongTarget.Create` | kong/resource_kong_target.go:74-89 | Issues exactly one POST. It succeeds exactly on 201 and stores the created record. A transport error or any other status is an error that leaves the data unchanged. It never reports a Conflict. |
| `KongTarget.Read` | kong/resource_kong_target.go:91-110 | Issues one GET of the active listing with the id query. It is Absent exactly when the status is 404, the total is non-positive or the data is empty. Absent clears only the id and is checked before the status. It is Ok exactly when the listing is non-empty and the status is 200. Ok stores `data[0]`. A transport error gives Transport. A non-empty listing with a status other than 200 gives UnexpectedStatus with that status. Errors leave the data unchanged. |
| `KongTarget.Update` | kong/resource_kong_target.go:112-134 | Issues the DELETE first. The POST follows exactly when the DELETE is answered 204. It succeeds exactly when the POST is answered 204. It then stores the record decoded from that answer, with that record's id. At each step, a transport error gives Transport and any status but 204 gives UnexpectedStatus with that status. Every failure leaves the data unchanged. |
| `KongTarget.Delete` | kong/resource_kong_target.go:136-147 | Issues one DELETE of the stored target. It succeeds exactly on 204. A transport error gives Transport, and any other status gives UnexpectedStatus with that status. The data is never changed. |
| `KongTarget.ReadAbsentOutsideSuccess` | kong/resource_kong_target.go:97-103 | The client leaves the listing empty unless the status is 2xx. Under that rule, every answer outside 2xx (a 500 included) is Absent and clears the id. |
| `KongTarget.ReadTakesFirst` | kong/resource_kong_target.go:108 | Only the first listed target matters. Listings that differ after it give the same result. |
| `KongTarget.UpdateStopsAfterFailedDelete` | kong/resource_kong_target.go:118-123 | A failed DELETE step means no POST is issued. The POST's answer is irrelevant and the data is unchanged. |
| `KongTarget.UpdateRejectsCreated` | kong/resource_kong_target.go:125-130 | A POST answered 201 succeeds in Create. The same answer makes Update fail with UnexpectedStatus(201), after both requests, with the data unchanged. |
| `KongTarget.UpdateOnEmptyAnswerClearsId` | kong/resource_kong_target.go:125-132 | A 204 answer to the POST carries no record. The update then reports Ok, stores the empty record and leaves the resource Unbound. |
| `KongTarget.UpdateReplacesId` | kong/resource_kong_target.go:132 | After a successful update the stored id is the id of whatever record was decoded from the POST's answer. The old id is not kept. |
| `KongTarget.UpdateAddressesOneUpstream` | kong/resource_kong_target.go:118-125 | The DELETE comes before the POST. The DELETE's path is the POST's path followed by `/` and the stored id. For a `/`-free upstream and id, the DELETE's segments are the POST's segments plus the id. |
| `KongTarget.UpdateDeletesUnderNewUpstream` | kong/resource_kong_target.go:115-118 | When the data handed to Update carries a changed upstream, the DELETE goes to the new upstream's path with the stored id, never to the old upstream's path. |
| `KongTarget.DeletePathIdentifiesTarget` | kong/resource_kong_target.go:140 | Two stored targets get the same DELETE path exactly when they have the same upstream and id. This assumes `/`-free upstreams and ids. |
| `Paths.Split` | kong/resource_kong_target.go:118 | Splitting a path at `/` gives `/`-free segments. Joining them gives back the path. |
| `Paths.SplitJoin` | kong/resource_kong_target.go:140 | A path joined from `/`-free segments splits back into exactly those segments. |

## Left out

- The HTTP client: connection, base URL, relative URL resolution, query encoding, JSON decoding of responses. Requests become a trace of records. Paths are the plain concatenations the code writes. Responses are parameters carrying the decoded body. A decoding failure reported by the client falls in the same branch as a transport failure.
- The client's rule that only 2xx answers are decoded is not built into the operations. It is stated as the predicate `Rest.DecodesOnlyOnSuccess` and used where it changes the result (Target Read).
- The Terraform schema (types, `Default: 100`, `ForceNew` on slots, `Required`, the import passthrough): this is framework metadata. The stored data is a typed record.
- The type assertions on `meta` and on `d.Get` results: these cannot fail on typed records.
- Error message texts: errors are modelled by kind only. The extra format arguments of the Target Delete error are cosmetic.
- The calls that set fields into Terraform's resource data return errors that the code ignores. The model ignores them too.
- Remote behaviour (name uniqueness, active-target filtering, cascading deletes): this belongs to the Kong server, not to this code.
- Go's `int` is 64 bits wide. `slots` and `weight` are only copied, never computed with, so they are unbounded integers here.
