/** The Place routes: /cities/<city_id>/places and /places/<place_id> (api/v1/views/places.py). As written, the
    retrieve handler looks the id up among Cities and the create handler
    requires a Place, not a City, with the path id. */
module PlacesView {
  import opened Values
  import opened Kinds
  import opened Objects
  import opened FileStorage
  import opened Views
  import opened Creating
  import opened Updating

  /** The body tests of `create_city`, in order: the author must be named
      and exist, then the name must be given. */
  const CreateChecks: seq<Check> := [Present("user_id"), Names("user_id", User), Present("name")]

  /** The keys `update_city` pops from the body: the parent and the author
      are among them. */
  const Protected: set<string> := ServerFields + {"city_id", "user_id"}

  /** `params.update({"city_id": city_id})` */
  function Forced(cityId: string): Record
  {
    map["city_id" := VStr(cityId)]
  }

  /** GET /cities/<city_id>/places: the places whose city_id names the City. */
  method ListPlaces(s: Storage, cityId: string) returns (resp: Response)
    ensures Key(City, cityId) !in s.objects ==> resp == NotFound
    ensures Key(City, cityId) in s.objects ==> ListResponse(Children(s.objects, Place, "city_id", cityId), resp)
  {
    resp := ListChildren(s, Key(City, cityId), Place, "city_id");
  }

  /** GET /places/<place_id>: the handler asks the store for a City */
  method RetrievePlace(s: Storage, placeId: string) returns (resp: Response)
    ensures Key(City, placeId) in s.objects ==> resp == Ok200(JObj(ToDict(Key(City, placeId), s.objects[Key(City, placeId)])))
    ensures Key(City, placeId) !in s.objects ==> resp == NotFound
  {
    resp := Retrieve(s, City, placeId);
  }

  /** DELETE /places/<place_id> */
  method DeletePlace(s: Storage, placeId: string) returns (resp: Response)
    requires s.Valid()
    modifies s
    ensures s.Valid() && s.links == old(s.links)
    ensures Removed(Key(Place, placeId), old(s.objects), s.objects, resp)
    ensures Persisted(resp == Deleted, old(s.file), s.objects, s.file)
  {
    resp := Remove(s, Place, placeId);
  }

  /** POST /cities/<city_id>/places: the handler asks the store for a Place with the City id */
  method CreatePlace(s: Storage, cityId: string, body: Option<Val>, freshId: string, now: string) returns (resp: Response)
    requires s.Valid() && now != ""
    modifies s
    ensures s.Valid() && s.links == old(s.links)
    ensures Created(Some(Key(Place, cityId)), Place, CreateChecks, Forced(cityId), body, freshId, now,
                    old(s.objects), s.objects, resp)
    ensures Persisted(resp.Created201?, old(s.file), s.objects, s.file)
  {
    resp := Create(s, Some(Key(Place, cityId)), Place, CreateChecks, Forced(cityId), body, freshId, now);
  }

  /** PUT /places/<place_id> */
  method UpdatePlace(s: Storage, placeId: string, body: Option<Val>, now: string) returns (resp: Response)
    requires s.Valid() && now != ""
    modifies s
    ensures s.Valid() && s.links == old(s.links)
    ensures Replaced(Key(Place, placeId), Protected, body, now, old(s.objects), s.objects, resp)
    ensures Persisted(resp.Ok200?, old(s.file), s.objects, s.file)
  {
    resp := Replace(s, Place, Protected, placeId, body, now);
  }

  /** The create tests in order: a Place with the path's id, the body,
      user_id given, user_id naming a stored User, then the name; with
      all of them met the body is accepted. */
  lemma CreatePlaceOrder(cityId: string, body: Option<Val>, objs: map<Key, Record>)
    ensures Key(Place, cityId) !in objs ==> Screen(Some(Key(Place, cityId)), CreateChecks, body, objs) == Reject(NotFound)
    ensures Key(Place, cityId) in objs && ReadBody(body).NotJson? ==>
      Screen(Some(Key(Place, cityId)), CreateChecks, body, objs) == Reject(BadRequest("Not a JSON"))
    ensures Key(Place, cityId) in objs && ReadBody(body).Params? && !Truthy(GetOr(ReadBody(body).params, "user_id")) ==>
      Screen(Some(Key(Place, cityId)), CreateChecks, body, objs) == Reject(BadRequest("Missing user_id"))
    ensures Key(Place, cityId) in objs && ReadBody(body).Params? && Truthy(GetOr(ReadBody(body).params, "user_id"))
            && !Passes(objs, ReadBody(body).params, Names("user_id", User)) ==>
      Screen(Some(Key(Place, cityId)), CreateChecks, body, objs) == Reject(NotFound)
    ensures Key(Place, cityId) in objs && ReadBody(body).Params? && Truthy(GetOr(ReadBody(body).params, "user_id"))
            && Passes(objs, ReadBody(body).params, Names("user_id", User)) && !Truthy(GetOr(ReadBody(body).params, "name")) ==>
      Screen(Some(Key(Place, cityId)), CreateChecks, body, objs) == Reject(BadRequest("Missing name"))
    ensures Screen(Some(Key(Place, cityId)), CreateChecks, body, objs).Accept? <==>
      (Key(Place, cityId) in objs && ReadBody(body).Params?
       && Truthy(GetOr(ReadBody(body).params, "user_id")) && GetOr(ReadBody(body).params, "user_id").VStr? && Key(User, GetOr(ReadBody(body).params, "user_id").s) in objs
       && Truthy(GetOr(ReadBody(body).params, "name")))
  {
    var parent := Some(Key(Place, cityId));
    if Key(Place, cityId) in objs && ReadBody(body).Params? {
      var p := ReadBody(body).params;
      if !Truthy(GetOr(p, "user_id")) {
        ScreenFailsAt(parent, CreateChecks, body, objs, 0);
      } else if !Passes(objs, p, Names("user_id", User)) {
        assert Passes(objs, p, CreateChecks[0]);
        ScreenFailsAt(parent, CreateChecks, body, objs, 1);
      } else if !Truthy(GetOr(p, "name")) {
        assert Passes(objs, p, CreateChecks[0]) && Passes(objs, p, CreateChecks[1]);
        ScreenFailsAt(parent, CreateChecks, body, objs, 2);
      } else {
        assert Passes(objs, p, CreateChecks[0]) && Passes(objs, p, CreateChecks[1]) && Passes(objs, p, CreateChecks[2]);
      }
    }
  }

  /** A created Place's city_id is the path's, whatever the body said, so it
      is one of that parent's places. */
  lemma CreatePlaceParent(cityId: string, body: Option<Val>, freshId: string, now: string,
                         objs0: map<Key, Record>, objs1: map<Key, Record>, resp: Response)
    requires now != ""
    requires Created(Some(Key(Place, cityId)), Place, CreateChecks, Forced(cityId), body, freshId, now, objs0, objs1, resp)
    requires resp.Created201?
    ensures Key(Place, cityId) in objs0 && ReadBody(body).Params?
    ensures var k := Key(Place, IdFor(ReadBody(body).params + Forced(cityId), freshId));
      k in objs1 && objs1[k]["city_id"] == VStr(cityId) && k in Children(objs1, Place, "city_id", cityId)
  {
    CreatedStored(Some(Key(Place, cityId)), Place, CreateChecks, Forced(cityId), body, freshId, now, objs0, objs1, resp);
    CreatedChild(Some(Key(Place, cityId)), Place, CreateChecks, Forced(cityId), body, freshId, now, objs0, objs1, resp, "city_id");
  }

  /** A created Place names a User that is still stored, and stores the
      user_id and the truthy name it was sent. */
  lemma CreatePlaceAuthor(cityId: string, body: Option<Val>, freshId: string, now: string,
                         objs0: map<Key, Record>, objs1: map<Key, Record>, resp: Response)
    requires now != ""
    requires Created(Some(Key(Place, cityId)), Place, CreateChecks, Forced(cityId), body, freshId, now, objs0, objs1, resp)
    requires resp.Created201?
    ensures ReadBody(body).Params?
    ensures var p := ReadBody(body).params;
      var k := Key(Place, IdFor(p + Forced(cityId), freshId));
      && "user_id" in p && p["user_id"].VStr? && Key(User, p["user_id"].s) in objs1
      && k in objs1 && objs1[k]["user_id"] == p["user_id"]
      && "name" in p && Truthy(p["name"]) && objs1[k]["name"] == p["name"]
  {
    var parent := Some(Key(Place, cityId));
    CreatedStored(parent, Place, CreateChecks, Forced(cityId), body, freshId, now, objs0, objs1, resp);
    CreatedRequired(parent, Place, CreateChecks, Forced(cityId), body, freshId, now, objs0, objs1, resp, 0);
    CreatedRequired(parent, Place, CreateChecks, Forced(cityId), body, freshId, now, objs0, objs1, resp, 2);
    assert Passes(objs1, ReadBody(body).params, CreateChecks[1]);
  }

  /** An update never moves a Place to another parent or author, and
      keeps its id and the number of places. */
  lemma UpdatePlaceKeepsOwner(placeId: string, body: Option<Val>, now: string,
                               objs0: map<Key, Record>, objs1: map<Key, Record>, resp: Response)
    requires now != "" && Tracked(objs0)
    requires Replaced(Key(Place, placeId), Protected, body, now, objs0, objs1, resp) && resp.Ok200?
    ensures var k := Key(Place, placeId);
      && k in objs0 && k in objs1
      && objs1[k]["id"] == objs0[k]["id"]
      && ("city_id" in objs1[k] <==> "city_id" in objs0[k])
      && ("city_id" in objs0[k] ==> objs1[k]["city_id"] == objs0[k]["city_id"])
      && ("user_id" in objs1[k] <==> "user_id" in objs0[k])
      && ("user_id" in objs0[k] ==> objs1[k]["user_id"] == objs0[k]["user_id"])
    ensures |OfKind(objs1, Place)| == |OfKind(objs0, Place)|
  {
    var k := Key(Place, placeId);
    ReplacedKeeps(k, Protected, body, now, objs0, objs1, resp, "id");
    ReplacedKeeps(k, Protected, body, now, objs0, objs1, resp, "city_id");
    ReplacedKeeps(k, Protected, body, now, objs0, objs1, resp, "user_id");
    ReplacedTable(k, Protected, body, now, objs0, objs1, resp);
  }
}
