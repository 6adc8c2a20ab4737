/** The Amenity routes: /amenities and /amenities/<amenity_id> (api/v1/views/amenities.py). */
module AmenitiesView {
  import opened Values
  import opened Kinds
  import opened Objects
  import opened FileStorage
  import opened Views
  import opened Creating
  import opened Updating

  /** The body tests of `create_amenity`. */
  const CreateChecks: seq<Check> := [Present("name")]

  /** The keys `update_amenity` pops from the body. */
  const Protected: set<string> := ServerFields

  /** GET /amenities */
  method ListAmenities(s: Storage) returns (resp: Response)
    ensures ListResponse(OfKind(s.objects, Amenity), resp)
  {
    resp := ListKind(s, Amenity);
  }

  /** GET /amenities/<amenity_id> */
  method RetrieveAmenity(s: Storage, amenityId: string) returns (resp: Response)
    ensures Key(Amenity, amenityId) in s.objects ==> resp == Ok200(JObj(ToDict(Key(Amenity, amenityId), s.objects[Key(Amenity, amenityId)])))
    ensures Key(Amenity, amenityId) !in s.objects ==> resp == NotFound
  {
    resp := Retrieve(s, Amenity, amenityId);
  }

  /** DELETE /amenities/<amenity_id> */
  method DeleteAmenity(s: Storage, amenityId: string) returns (resp: Response)
    requires s.Valid()
    modifies s
    ensures s.Valid() && s.links == old(s.links)
    ensures Removed(Key(Amenity, amenityId), old(s.objects), s.objects, resp)
    ensures Persisted(resp == Deleted, old(s.file), s.objects, s.file)
  {
    resp := Remove(s, Amenity, amenityId);
  }

  /** POST /amenities */
  method CreateAmenity(s: Storage, body: Option<Val>, freshId: string, now: string) returns (resp: Response)
    requires s.Valid() && now != ""
    modifies s
    ensures s.Valid() && s.links == old(s.links)
    ensures Created(None, Amenity, CreateChecks, map[], body, freshId, now, old(s.objects), s.objects, resp)
    ensures Persisted(resp.Created201?, old(s.file), s.objects, s.file)
  {
    resp := Create(s, None, Amenity, CreateChecks, map[], body, freshId, now);
  }

  /** PUT /amenities/<amenity_id> */
  method UpdateAmenity(s: Storage, amenityId: string, body: Option<Val>, now: string) returns (resp: Response)
    requires s.Valid() && now != ""
    modifies s
    ensures s.Valid() && s.links == old(s.links)
    ensures Replaced(Key(Amenity, amenityId), Protected, body, now, old(s.objects), s.objects, resp)
    ensures Persisted(resp.Ok200?, old(s.file), s.objects, s.file)
  {
    resp := Replace(s, Amenity, Protected, amenityId, body, now);
  }

  /** The create tests in order: a body that is not a truthy JSON value is
      "Not a JSON" whatever it holds, and only then is a missing or falsy
      name "Missing name"; a body with a truthy name is accepted. */
  lemma CreateAmenityOrder(body: Option<Val>, objs: map<Key, Record>)
    ensures ReadBody(body).NotJson? ==> Screen(None, CreateChecks, body, objs) == Reject(BadRequest("Not a JSON"))
    ensures ReadBody(body).Params? && !Truthy(GetOr(ReadBody(body).params, "name")) ==>
      Screen(None, CreateChecks, body, objs) == Reject(BadRequest("Missing name"))
    ensures Screen(None, CreateChecks, body, objs).Accept? <==>
      ReadBody(body).Params? && Truthy(GetOr(ReadBody(body).params, "name"))
  {
    if ReadBody(body).Params? && !Truthy(GetOr(ReadBody(body).params, "name")) {
      ScreenFailsAt(None, CreateChecks, body, objs, 0);
    }
    if ReadBody(body).Params? && Truthy(GetOr(ReadBody(body).params, "name")) {
      assert Passes(objs, ReadBody(body).params, CreateChecks[0]);
    }
  }

  /** A created Amenity carries the truthy name it was sent, and the response
      is its dict form. */
  lemma CreateAmenityNamed(body: Option<Val>, freshId: string, now: string,
                         objs0: map<Key, Record>,
                         objs1: map<Key, Record>, resp: Response)
    requires now != ""
    requires Created(None, Amenity, CreateChecks, map[], body, freshId, now, objs0, objs1, resp)
    requires resp.Created201?
    ensures ReadBody(body).Params?
    ensures var p := ReadBody(body).params;
      var k := Key(Amenity, IdFor(p + map[], freshId));
      && "name" in p && Truthy(p["name"])
      && k in objs1 && objs1[k]["name"] == p["name"] && resp.created == ToDict(k, objs1[k])
  {
    CreatedStored(None, Amenity, CreateChecks, map[], body, freshId, now, objs0, objs1, resp);
    CreatedRequired(None, Amenity, CreateChecks, map[], body, freshId, now, objs0, objs1, resp, 0);
  }

  /** An update keeps the Amenity's id and creation time, stamps updated_at,
      and leaves the number of Amenities as it was. */
  lemma UpdateAmenityKeepsIdentity(amenityId: string, body: Option<Val>, now: string,
                                 objs0: map<Key, Record>,
                                 objs1: map<Key, Record>, resp: Response)
    requires now != "" && Tracked(objs0)
    requires Replaced(Key(Amenity, amenityId), Protected, body, now, objs0, objs1, resp) && resp.Ok200?
    ensures var k := Key(Amenity, amenityId);
      && k in objs0 && k in objs1
      && objs1[k]["id"] == VStr(amenityId)
      && objs1[k]["created_at"] == objs0[k]["created_at"]
      && objs1[k]["updated_at"] == VStr(now)
    ensures |OfKind(objs1, Amenity)| == |OfKind(objs0, Amenity)|
  {
    var k := Key(Amenity, amenityId);
    ReplacedRecord(k, Protected, body, now, objs0, objs1, resp);
    RebuiltFields(k, objs0[k], ReadBody(body).params, Protected, now);
    ReplacedTable(k, Protected, body, now, objs0, objs1, resp);
  }
}
