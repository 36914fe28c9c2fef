/**
 The `kong_upstream` resource: a named load-balancing target group with a
 fixed slot-table size, managed through the Kong Admin API collection
 `upstreams/`.
 */
module KongUpstream {
  import opened Rest
  import Lifecycle
  import Paths

  /** What Terraform stores for one upstream; `id` is "" while unset. */
  datatype UpstreamData = UpstreamData(id: string, name: string, slots: int)

  /** The `Upstream` record: the request body and the response body alike. */
  datatype Upstream = Upstream(id: string, name: string, slots: int)

  /** The JSON body of an `Upstream`; every field is omitted when empty or zero. */
  function Encode(u: Upstream): (body: Payload)
    ensures body.Keys <= {"id", "name", "slots"}
    ensures "id" in body <==> IsSet(u.id)
    ensures "name" in body <==> u.name != ""
    ensures "slots" in body <==> u.slots != 0
    ensures Decode(body) == u
  {
    WithNumber(WithText(WithText(map[], "id", u.id), "name", u.name), "slots", u.slots)
  }

  /** Reads an `Upstream` from a JSON body; missing fields become "" or 0. */
  function Decode(body: Payload): Upstream {
    Upstream(TextOf(body, "id"), TextOf(body, "name"), NumberOf(body, "slots"))
  }

  /**
   The request record built from the stored data (name and slots always, the
   id only when one is set). Storing it back gives the data it came from.
   */
  function FromResourceData(d: UpstreamData): (u: Upstream)
    ensures u.name == d.name && u.slots == d.slots
    ensures IsSet(u.id) <==> IsSet(d.id)
    ensures ToResourceData(u) == d
  {
    var u := Upstream("", d.name, d.slots);
    if IsSet(d.id) then u.(id := d.id) else u
  }

  /**
   The stored data after a response record is set into it: id, name and
   slots all come from the record, none is kept from before.
   */
  function ToResourceData(u: Upstream): (d: UpstreamData)
    ensures d.id == u.id && d.name == u.name && d.slots == u.slots
  {
    UpstreamData(u.id, u.name, u.slots)
  }

  /** `upstreams/{id}`: the path of one upstream. */
  function ItemPath(id: string): (path: string)
    ensures Paths.Plain(id) ==> Paths.Split(path) == ["upstreams", id]
  {
    var path := "upstreams/" + id;
    assert Paths.Plain(id) ==> Paths.Split(path) == ["upstreams", id] by {
      if Paths.Plain(id) {
        assert path == "upstreams" + "/" + id;
        Paths.SplitAfterSegment("upstreams", id);
        Paths.SplitPlain(id);
      }
    }
    path
  }

  /**
   Create: one POST of the stored fields to the collection. A transport
   failure, then 409 (Conflict), then any status but 201 are errors that
   leave the data alone; 201 stores the created record.
   */
  function Create(d: UpstreamData, response: Response<Upstream>): (r: Step<UpstreamData>)
    ensures r.requests == [Request(POST, "upstreams/", [], Some(Encode(FromResourceData(d))))]
    ensures r.outcome.Ok? <==> response.Reply? && response.status == StatusCreated
    ensures response.TransportFailure? ==> r.outcome == Failed(Transport)
    ensures response.Reply? && response.status == StatusConflict ==> r.outcome == Failed(Conflict)
    ensures (response.Reply? && response.status != StatusConflict && response.status != StatusCreated)
            ==> r.outcome == Failed(UnexpectedStatus(response.status))
    ensures !r.outcome.Ok? ==> r.data == d
    ensures r.outcome.Ok? ==> FromResourceData(r.data) == response.body
    ensures Lifecycle.Permitted(Lifecycle.Create, true, Lifecycle.PhaseOf(d.id), Lifecycle.PhaseOf(r.data.id), r.outcome)
  {
    var requests := [Request(POST, "upstreams/", [], Some(Encode(FromResourceData(d))))];
    match response
    case TransportFailure => Step(requests, d, Failed(Transport))
    case Reply(status, created) =>
      if status == StatusConflict then Step(requests, d, Failed(Conflict))
      else if status != StatusCreated then Step(requests, d, Failed(UnexpectedStatus(status)))
      else Step(requests, ToResourceData(created), Ok)
  }

  /**
   Read: one GET of the upstream's own path. 404 means the upstream is gone:
   the id is cleared and no error is reported. Any other status but 200 is an
   error that leaves the data alone; 200 refreshes id, name and slots.
   */
  function Read(d: UpstreamData, response: Response<Upstream>): (r: Step<UpstreamData>)
    ensures r.requests == [Request(GET, ItemPath(d.id), [], None)]
    ensures r.outcome == Absent <==> response.Reply? && response.status == StatusNotFound
    ensures r.outcome == Absent ==> r.data == d.(id := "")
    ensures r.outcome.Ok? <==> response.Reply? && response.status == StatusOK
    ensures r.outcome.Ok? ==> FromResourceData(r.data) == response.body
    ensures r.outcome.Failed? ==> r.data == d
    ensures response.TransportFailure? ==> r.outcome == Failed(Transport)
    ensures (response.Reply? && response.status != StatusNotFound && response.status != StatusOK)
            ==> r.outcome == Failed(UnexpectedStatus(response.status))
    ensures Lifecycle.Permitted(Lifecycle.Read, true, Lifecycle.PhaseOf(d.id), Lifecycle.PhaseOf(r.data.id), r.outcome)
  {
    var requests := [Request(GET, ItemPath(d.id), [], None)];
    match response
    case TransportFailure => Step(requests, d, Failed(Transport))
    case Reply(status, found) =>
      if status == StatusNotFound then Step(requests, d.(id := ""), Absent)
      else if status != StatusOK then Step(requests, d, Failed(UnexpectedStatus(status)))
      else Step(requests, ToResourceData(found), Ok)
  }

  /**
   Update: one PATCH of the stored fields to the upstream's own path. Only
   200 succeeds and stores the returned record; anything else is an error
   that leaves the data alone.
   */
  function Update(d: UpstreamData, response: Response<Upstream>): (r: Step<UpstreamData>)
    ensures r.requests == [Request(PATCH, ItemPath(d.id), [], Some(Encode(FromResourceData(d))))]
    ensures r.outcome.Ok? <==> response.Reply? && response.status == StatusOK
    ensures r.outcome.Ok? ==> FromResourceData(r.data) == response.body
    ensures !r.outcome.Ok? ==> r.data == d
    ensures response.TransportFailure? ==> r.outcome == Failed(Transport)
    ensures (response.Reply? && response.status != StatusOK) ==> r.outcome == Failed(UnexpectedStatus(response.status))
    ensures Lifecycle.Permitted(Lifecycle.Update, true, Lifecycle.PhaseOf(d.id), Lifecycle.PhaseOf(r.data.id), r.outcome)
  {
    var u := FromResourceData(d);
    var requests := [Request(PATCH, ItemPath(u.id), [], Some(Encode(u)))];
    match response
    case TransportFailure => Step(requests, d, Failed(Transport))
    case Reply(status, updated) =>
      if status != StatusOK then Step(requests, d, Failed(UnexpectedStatus(status)))
      else Step(requests, ToResourceData(updated), Ok)
  }

  /**
   Delete: one DELETE of the upstream's own path. Only 204 succeeds; the
   resource data is never changed, whatever the answer.
   */
  function Delete(d: UpstreamData, response: Response<()>): (r: Step<UpstreamData>)
    ensures r.requests == [Request(DELETE, ItemPath(d.id), [], None)]
    ensures r.data == d
    ensures r.outcome.Ok? <==> response.Reply? && response.status == StatusNoContent
    ensures response.TransportFailure? ==> r.outcome == Failed(Transport)
    ensures (response.Reply? && response.status != StatusNoContent) ==> r.outcome == Failed(UnexpectedStatus(response.status))
    ensures Lifecycle.Permitted(Lifecycle.Delete, true, Lifecycle.PhaseOf(d.id), Lifecycle.PhaseOf(r.data.id), r.outcome)
  {
    var requests := [Request(DELETE, ItemPath(d.id), [], None)];
    match response
    case TransportFailure => Step(requests, d, Failed(Transport))
    case Reply(status, _) =>
      if status != StatusNoContent then Step(requests, d, Failed(UnexpectedStatus(status)))
      else Step(requests, d, Ok)
  }

  /** Storing a response record and building the next request from it gives back that record. */
  lemma StoredRecordRoundTrip(u: Upstream)
    ensures FromResourceData(ToResourceData(u)) == u
  {
  }

  /**
   Create followed by Read against a server that echoes the requested name
   and slots, and later returns the stored record under the new id, ends
   with the requested name and slots and the server's id.
   */
  lemma CreateThenRead(d: UpstreamData, created: Upstream)
    requires created.name == d.name && created.slots == d.slots
    ensures var c := Create(d, Reply(StatusCreated, created));
            var r := Read(c.data, Reply(StatusOK, created));
            && c.outcome == Ok && r.outcome == Ok
            && r.requests[0].path == ItemPath(created.id)
            && r.data == UpstreamData(created.id, d.name, d.slots)
  {
  }

  /** Reading again with the same answer changes nothing more: a refresh is idempotent. */
  lemma ReadIdempotent(d: UpstreamData, response: Response<Upstream>)
    ensures Read(Read(d, response).data, response).data == Read(d, response).data
  {
  }

  /** Read, Update and Delete address the same single upstream, named by the stored id. */
  lemma OperationsAddressStoredId(d: UpstreamData, a: Response<Upstream>, b: Response<Upstream>, c: Response<()>)
    requires Paths.Plain(d.id)
    ensures Paths.Split(Read(d, a).requests[0].path) == ["upstreams", d.id]
    ensures Update(d, b).requests[0].path == Read(d, a).requests[0].path == Delete(d, c).requests[0].path
  {
  }
}
