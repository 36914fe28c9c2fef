/**
 The `kong_target` resource: a weighted member address of one upstream,
 managed under `upstreams/{upstream}/targets`. The Admin API has no in-place
 update of a target, so Update deletes the target and posts a new one.
 */
module KongTarget {
  import opened Rest
  import Lifecycle
  import Paths

  /** What Terraform stores for one target; `id` is "" while unset. */
  datatype TargetData = TargetData(id: string, target: string, weight: int, upstream: string)

  /** The `TargetRequest` record; `upstream` goes into the path, never into the body. */
  datatype TargetRequest = TargetRequest(id: string, target: string, weight: int, upstream: string)

  /** The `TargetResponse` record; `upstream` is the `upstream_id` the server reports. */
  datatype TargetResponse = TargetResponse(id: string, target: string, weight: int, upstream: string)

  /** The `Targets` listing answered by the active-targets endpoint. */
  datatype Targets = Targets(total: int, data: seq<TargetResponse>)

  /** The listing the client leaves behind when it decodes nothing. */
  const NoTargets := Targets(0, [])

  /** The created record the client leaves behind when it decodes nothing. */
  const NoRecord := TargetResponse("", "", 0, "")

  /**
   The JSON body of a `TargetRequest`: id, target and weight, each omitted
   when empty or zero, and never the upstream.
   */
  function Encode(t: TargetRequest): (body: Payload)
    ensures body.Keys <= {"id", "target", "weight"}
    ensures "id" in body <==> IsSet(t.id)
    ensures "target" in body <==> t.target != ""
    ensures "weight" in body <==> t.weight != 0
    ensures Decode(body) == t.(upstream := "")
  {
    WithNumber(WithText(WithText(map[], "id", t.id), "target", t.target), "weight", t.weight)
  }

  /** Reads a `TargetRequest` from a JSON body; the upstream is not in it. */
  function Decode(body: Payload): TargetRequest {
    TargetRequest(TextOf(body, "id"), TextOf(body, "target"), NumberOf(body, "weight"), "")
  }

  /**
   The request record built from the stored data: target, weight and
   upstream always, the id only when one is set. Nothing of the data is lost.
   */
  function FromResourceData(d: TargetData): (t: TargetRequest)
    ensures t.target == d.target && t.weight == d.weight && t.upstream == d.upstream
    ensures IsSet(t.id) <==> IsSet(d.id)
    ensures ToResourceData(TargetResponse(t.id, t.target, t.weight, t.upstream)) == d
  {
    var t := TargetRequest("", d.target, d.weight, d.upstream);
    if IsSet(d.id) then t.(id := d.id) else t
  }

  /**
   The stored data after a response record is set into it: every field,
   the upstream included, comes from the record.
   */
  function ToResourceData(t: TargetResponse): (d: TargetData)
    ensures d.id == t.id && d.target == t.target && d.weight == t.weight && d.upstream == t.upstream
  {
    TargetData(t.id, t.target, t.weight, t.upstream)
  }

  /** The query of a read: the target's id, omitted when unset. */
  function ReadQuery(id: string): (q: seq<(string, string)>)
    ensures |q| <= 1
    ensures q == [] <==> !IsSet(id)
    ensures forall i :: 0 <= i < |q| ==> q[i] == ("id", id)
  {
    if IsSet(id) then [("id", id)] else []
  }

  /** `upstreams/{upstream}/targets`: where targets are created. */
  function CollectionPath(upstream: string): (path: string)
    ensures Paths.Plain(upstream) ==> Paths.Split(path) == ["upstreams", upstream, "targets"]
  {
    var path := "upstreams/" + upstream + "/targets";
    assert Paths.Plain(upstream) ==> Paths.Split(path) == ["upstreams", upstream, "targets"] by {
      if Paths.Plain(upstream) {
        assert path == "upstreams" + "/" + (upstream + "/" + "targets");
        Paths.SplitAfterSegment("upstreams", upstream + "/" + "targets");
        Paths.SplitAfterSegment(upstream, "targets");
        Paths.SplitPlain("targets");
      }
    }
    path
  }

  /** `upstreams/{upstream}/targets/{id}`: one target of one upstream. */
  function ItemPath(upstream: string, id: string): (path: string)
    ensures Paths.Plain(upstream) && Paths.Plain(id) ==> Paths.Split(path) == ["upstreams", upstream, "targets", id]
  {
    var path := "upstreams/" + upstream + "/targets/" + id;
    assert Paths.Plain(upstream) && Paths.Plain(id) ==> Paths.Split(path) == ["upstreams", upstream, "targets", id] by {
      if Paths.Plain(upstream) && Paths.Plain(id) {
        assert path == "upstreams" + "/" + (upstream + "/" + ("targets" + "/" + id));
        Paths.SplitAfterSegment("upstreams", upstream + "/" + ("targets" + "/" + id));
        Paths.SplitAfterSegment(upstream, "targets" + "/" + id);
        Paths.SplitAfterSegment("targets", id);
        Paths.SplitPlain(id);
      }
    }
    path
  }

  /** `upstreams/{upstream}/targets/active/`: the listing of an upstream's active targets. */
  function ActivePath(upstream: string): (path: string)
    ensures Paths.Plain(upstream) ==> Paths.Split(path) == ["upstreams", upstream, "targets", "active", ""]
  {
    var path := "upstreams/" + upstream + "/targets/active/";
    assert Paths.Plain(upstream) ==> Paths.Split(path) == ["upstreams", upstream, "targets", "active", ""] by {
      if Paths.Plain(upstream) {
        assert path == "upstreams" + "/" + (upstream + "/" + ("targets" + "/" + ("active" + "/" + "")));
        Paths.SplitAfterSegment("upstreams", upstream + "/" + ("targets" + "/" + ("active" + "/" + "")));
        Paths.SplitAfterSegment(upstream, "targets" + "/" + ("active" + "/" + ""));
        Paths.SplitAfterSegment("targets", "active" + "/" + "");
        Paths.SplitAfterSegment("active", "");
        Paths.SplitPlain("");
      }
    }
    path
  }

  /** The POST that creates a target from the stored data. */
  function PostRequest(d: TargetData): (req: Request)
    ensures req.verb == POST && req.query == []
    ensures req.path == CollectionPath(d.upstream)
    ensures req.body == Some(Encode(FromResourceData(d)))
    ensures req.body.Some? && Decode(req.body.value) == FromResourceData(d).(upstream := "")
    ensures "weight" in req.body.value <==> d.weight != 0
  {
    var t := FromResourceData(d);
    Request(POST, CollectionPath(t.upstream), [], Some(Encode(t)))
  }

  /** The DELETE of the stored target. */
  function DeleteRequest(d: TargetData): (req: Request)
    ensures req.verb == DELETE && req.query == [] && req.body == None
    ensures req.path == ItemPath(d.upstream, d.id)
  {
    var t := FromResourceData(d);
    Request(DELETE, ItemPath(t.upstream, t.id), [], None)
  }

  /**
   Create: one POST under the upstream. A transport failure or any status
   but 201 is an error that leaves the data alone; 201 stores the created
   record. There is no conflict case.
   */
  function Create(d: TargetData, response: Response<TargetResponse>): (r: Step<TargetData>)
    ensures r.requests == [PostRequest(d)]
    ensures r.outcome.Ok? <==> response.Reply? && response.status == StatusCreated
    ensures response.TransportFailure? ==> r.outcome == Failed(Transport)
    ensures (response.Reply? && response.status != StatusCreated) ==> r.outcome == Failed(UnexpectedStatus(response.status))
    ensures !r.outcome.Ok? ==> r.data == d
    ensures r.outcome.Ok? ==> r.data == ToResourceData(response.body)
    ensures Lifecycle.Permitted(Lifecycle.Create, false, Lifecycle.PhaseOf(d.id), Lifecycle.PhaseOf(r.data.id), r.outcome)
  {
    var requests := [PostRequest(d)];
    match response
    case TransportFailure => Step(requests, d, Failed(Transport))
    case Reply(status, created) =>
      if status != StatusCreated then Step(requests, d, Failed(UnexpectedStatus(status)))
      else Step(requests, ToResourceData(created), Ok)
  }

  /** The listing shows no target: 404, a non-positive total or no data. */
  predicate ShowsNothing(status: int, listing: Targets) {
    status == StatusNotFound || listing.total <= 0 || |listing.data| == 0
  }

  /**
   Read: one GET of the upstream's active targets, filtered by id. Absence
   is tested first: on 404, a non-positive total or an empty data list the id
   is cleared and no error is reported, whatever the status. Otherwise any
   status but 200 is an error that leaves the data alone, and 200 stores the
   first listed target.
   */
  function Read(d: TargetData, response: Response<Targets>): (r: Step<TargetData>)
    ensures r.requests == [Request(GET, ActivePath(d.upstream), ReadQuery(d.id), None)]
    ensures r.outcome == Absent <==> response.Reply? && ShowsNothing(response.status, response.body)
    ensures r.outcome == Absent ==> r.data == d.(id := "")
    ensures r.outcome.Ok? <==> response.Reply? && !ShowsNothing(response.status, response.body) && response.status == StatusOK
    ensures r.outcome.Ok? ==> |response.body.data| > 0 && r.data == ToResourceData(response.body.data[0])
    ensures r.outcome.Failed? ==> r.data == d
    ensures response.TransportFailure? ==> r.outcome == Failed(Transport)
    ensures (response.Reply? && !ShowsNothing(response.status, response.body) && response.status != StatusOK)
            ==> r.outcome == Failed(UnexpectedStatus(response.status))
    ensures Lifecycle.Permitted(Lifecycle.Read, false, Lifecycle.PhaseOf(d.id), Lifecycle.PhaseOf(r.data.id), r.outcome)
  {
    var t := FromResourceData(d);
    var requests := [Request(GET, ActivePath(t.upstream), ReadQuery(t.id), None)];
    match response
    case TransportFailure => Step(requests, d, Failed(Transport))
    case Reply(status, listing) =>
      if ShowsNothing(status, listing) then Step(requests, d.(id := ""), Absent)
      else if status != StatusOK then Step(requests, d, Failed(UnexpectedStatus(status)))
      else Step(requests, ToResourceData(listing.data[0]), Ok)
  }

  /**
   Update, as delete then create: a DELETE of the stored target, and only
   once that is answered 204, a POST of the stored fields under the same
   upstream. The POST, too, succeeds only on 204. Any failure leaves the
   data alone; success stores whatever record the client decoded from the
   POST's answer, its id in place of the old one.
   */
  function Update(d: TargetData, deleted: Response<()>, created: Response<TargetResponse>): (r: Step<TargetData>)
    ensures 1 <= |r.requests| <= 2 && r.requests[0] == DeleteRequest(d)
    ensures |r.requests| == 2 <==> deleted.Reply? && deleted.status == StatusNoContent
    ensures |r.requests| == 2 ==> r.requests[1] == PostRequest(d)
    ensures r.outcome.Ok? <==> |r.requests| == 2 && created.Reply? && created.status == StatusNoContent
    ensures r.outcome.Ok? ==> r.data == ToResourceData(created.body) && r.data.id == created.body.id
    ensures !r.outcome.Ok? ==> r.data == d
    ensures deleted.TransportFailure? ==> r.outcome == Failed(Transport)
    ensures (deleted.Reply? && deleted.status != StatusNoContent) ==> r.outcome == Failed(UnexpectedStatus(deleted.status))
    ensures (|r.requests| == 2 && created.TransportFailure?) ==> r.outcome == Failed(Transport)
    ensures (|r.requests| == 2 && created.Reply? && created.status != StatusNoContent)
            ==> r.outcome == Failed(UnexpectedStatus(created.status))
    ensures Lifecycle.Permitted(Lifecycle.Update, false, Lifecycle.PhaseOf(d.id), Lifecycle.PhaseOf(r.data.id), r.outcome)
  {
    var removal := DeleteRequest(d);
    match deleted
    case TransportFailure => Step([removal], d, Failed(Transport))
    case Reply(status, _) =>
      if status != StatusNoContent then Step([removal], d, Failed(UnexpectedStatus(status)))
      else
        var requests := [removal, PostRequest(d)];
        match created
        case TransportFailure => Step(requests, d, Failed(Transport))
        case Reply(status', record) =>
          if status' != StatusNoContent then Step(requests, d, Failed(UnexpectedStatus(status')))
          else Step(requests, ToResourceData(record), Ok)
  }

  /**
   Delete: one DELETE of the stored target. Only 204 succeeds; the resource
   data is never changed, whatever the answer.
   */
  function Delete(d: TargetData, response: Response<()>): (r: Step<TargetData>)
    ensures r.requests == [DeleteRequest(d)]
    ensures r.data == d
    ensures r.outcome.Ok? <==> response.Reply? && response.status == StatusNoContent
    ensures response.TransportFailure? ==> r.outcome == Failed(Transport)
    ensures (response.Reply? && response.status != StatusNoContent) ==> r.outcome == Failed(UnexpectedStatus(response.status))
    ensures Lifecycle.Permitted(Lifecycle.Delete, false, Lifecycle.PhaseOf(d.id), Lifecycle.PhaseOf(r.data.id), r.outcome)
  {
    var requests := [DeleteRequest(d)];
    match response
    case TransportFailure => Step(requests, d, Failed(Transport))
    case Reply(status, _) =>
      if status != StatusNoContent then Step(requests, d, Failed(UnexpectedStatus(status)))
      else Step(requests, d, Ok)
  }

  /**
   Storing a response record and building the next request from it keeps
   all four fields; the upstream comes from the response's `upstream_id`.
   */
  lemma StoredRecordRoundTrip(t: TargetResponse)
    ensures FromResourceData(ToResourceData(t)) == TargetRequest(t.id, t.target, t.weight, t.upstream)
  {
  }

  /**
   With a client that decodes only 2xx answers, every read answered outside
   2xx reports the target absent: the empty listing is tested before the
   status. A 500 therefore clears the id without an error.
   */
  lemma ReadAbsentOutsideSuccess(d: TargetData, response: Response<Targets>)
    requires response.Reply? && !IsSuccess(response.status)
    requires DecodesOnlyOnSuccess(response, NoTargets)
    ensures Read(d, response).outcome == Absent
    ensures Read(d, response).data == d.(id := "")
  {
  }

  /** Only the first listed target is looked at; the rest of the listing is ignored. */
  lemma ReadTakesFirst(d: TargetData, status: int, total: int, first: TargetResponse, rest: seq<TargetResponse>, rest': seq<TargetResponse>)
    ensures Read(d, Reply(status, Targets(total, [first] + rest)))
         == Read(d, Reply(status, Targets(total, [first] + rest')))
  {
  }

  /**
   When the DELETE step fails, no POST is issued, so the answer the POST
   would have received makes no difference, and the data is unchanged.
   */
  lemma UpdateStopsAfterFailedDelete(d: TargetData, deleted: Response<()>, c1: Response<TargetResponse>, c2: Response<TargetResponse>)
    requires !(deleted.Reply? && deleted.status == StatusNoContent)
    ensures Update(d, deleted, c1) == Update(d, deleted, c2)
    ensures Update(d, deleted, c1).requests == [DeleteRequest(d)]
    ensures Update(d, deleted, c1).data == d
  {
  }

  /**
   The POST of an update must be answered 204: a 201, which is what Create
   succeeds on, makes the update fail and leaves the data alone.
   */
  lemma UpdateRejectsCreated(d: TargetData, record: TargetResponse)
    ensures Create(d, Reply(StatusCreated, record)).outcome == Ok
    ensures Update(d, Reply(StatusNoContent, ()), Reply(StatusCreated, record))
         == Step([DeleteRequest(d), PostRequest(d)], d, Failed(UnexpectedStatus(StatusCreated)))
  {
  }

  /**
   A 204 answer has no content, so the client decodes no record from the
   POST of an update. The update then succeeds and stores the empty record:
   the id is cleared and the resource is left Unbound.
   */
  lemma UpdateOnEmptyAnswerClearsId(d: TargetData, deleted: Response<()>, created: Response<TargetResponse>)
    requires deleted.Reply? && deleted.status == StatusNoContent
    requires created.Reply? && created.status == StatusNoContent
    requires DecodesNothingOnNoContent(created, NoRecord)
    ensures var r := Update(d, deleted, created);
            && r.outcome == Ok
            && r.data == TargetData("", "", 0, "")
            && Lifecycle.PhaseOf(r.data.id) == Lifecycle.Unbound
  {
  }

  /**
   A successful update leaves the old id behind: the stored id is the new
   record's, even when the old one is set and differs.
   */
  lemma UpdateReplacesId(d: TargetData, record: TargetResponse)
    requires IsSet(d.id) && record.id != d.id
    ensures var r := Update(d, Reply(StatusNoContent, ()), Reply(StatusNoContent, record));
            r.outcome == Ok && r.data.id == record.id && r.data.id != d.id
  {
  }

  /**
   The DELETE and the POST of an update address the same upstream: the
   DELETE names the stored target inside the collection the POST adds to.
   */
  lemma UpdateAddressesOneUpstream(d: TargetData, deleted: Response<()>, created: Response<TargetResponse>)
    requires deleted.Reply? && deleted.status == StatusNoContent
    ensures var r := Update(d, deleted, created);
            && r.requests[0].verb == DELETE && r.requests[1].verb == POST
            && r.requests[0].path == r.requests[1].path + "/" + d.id
    ensures var r := Update(d, deleted, created);
            Paths.Plain(d.upstream) && Paths.Plain(d.id)
            ==> Paths.Split(r.requests[0].path) == Paths.Split(r.requests[1].path) + [d.id]
  {
  }

  /**
   An update changing the upstream sends the DELETE of the stored id to the
   new upstream's path, since the upstream in the data is already the new one.
   */
  lemma UpdateDeletesUnderNewUpstream(d: TargetData, upstream: string, deleted: Response<()>, created: Response<TargetResponse>)
    requires upstream != d.upstream
    ensures var r := Update(d.(upstream := upstream), deleted, created);
            r.requests[0].path == ItemPath(upstream, d.id) && r.requests[0].path != ItemPath(d.upstream, d.id)
  {
    var p := ItemPath(upstream, d.id);
    var q := ItemPath(d.upstream, d.id);
    if |upstream| != |d.upstream| {
      assert |p| != |q|;
    } else {
      var k :| 0 <= k < |upstream| && upstream[k] != d.upstream[k];
      assert p[10 + k] == upstream[k];
      assert q[10 + k] == d.upstream[k];
    }
  }

  /** Two different stored targets (plain upstream and id) are never deleted through the same path. */
  lemma DeletePathIdentifiesTarget(d1: TargetData, d2: TargetData)
    requires Paths.Plain(d1.upstream) && Paths.Plain(d1.id)
    requires Paths.Plain(d2.upstream) && Paths.Plain(d2.id)
    ensures DeleteRequest(d1).path == DeleteRequest(d2).path <==> d1.upstream == d2.upstream && d1.id == d2.id
  {
  }
}
