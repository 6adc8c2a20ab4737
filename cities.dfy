/** The City routes: /states/<state_id>/cities and /cities/<city_id>
    (api/v1/views/cities.py). */
module CitiesView {
  import opened Values
  import opened Kinds
  import opened Objects
  import opened FileStorage
  import opened Views
  import opened Creating
  import opened Updating

  /** The body tests of `create_city`. */
  const CreateChecks: seq<Check> := [Present("name")]

  /** The keys `update_city` pops from the body. */
  const Protected: set<string> := ServerFields + {"state_id"}

  /** `params.update({"state_id": state_id})` */
  function Forced(stateId: string): Record
  {
    map["state_id" := VStr(stateId)]
  }

  /** GET /states/<state_id>/cities: the cities whose state_id names the State. */
  method ListCities(s: Storage, stateId: string) returns (resp: Response)
    ensures Key(State, stateId) !in s.objects ==> resp == NotFound
    ensures Key(State, stateId) in s.objects ==> ListResponse(Children(s.objects, City, "state_id", stateId), resp)
  {
    resp := ListChildren(s, Key(State, stateId), City, "state_id");
  }

  /** GET /cities/<city_id> */
  method RetrieveCity(s: Storage, cityId: string) returns (resp: Response)
    ensures Key(City, cityId) in s.objects ==> resp == Ok200(JObj(ToDict(Key(City, cityId), s.objects[Key(City, cityId)])))
    ensures Key(City, cityId) !in s.objects ==> resp == NotFound
  {
    resp := Retrieve(s, City, cityId);
  }

  /** DELETE /cities/<city_id> */
  method DeleteCity(s: Storage, cityId: string) returns (resp: Response)
    requires s.Valid()
    modifies s
    ensures s.Valid() && s.links == old(s.links)
    ensures Removed(Key(City, cityId), old(s.objects), s.objects, resp)
    ensures Persisted(resp == Deleted, old(s.file), s.objects, s.file)
  {
    resp := Remove(s, City, cityId);
  }

  /** POST /states/<state_id>/cities */
  method CreateCity(s: Storage, stateId: string, body: Option<Val>, freshId: string, now: string) returns (resp: Response)
    requires s.Valid() && now != ""
    modifies s
    ensures s.Valid() && s.links == old(s.links)
    ensures Created(Some(Key(State, stateId)), City, CreateChecks, Forced(stateId), body, freshId, now,
                    old(s.objects), s.objects, resp)
    ensures Persisted(resp.Created201?, old(s.file), s.objects, s.file)
  {
    resp := Create(s, Some(Key(State, stateId)), City, CreateChecks, Forced(stateId), body, freshId, now);
  }

  /** PUT /cities/<city_id> */
  method UpdateCity(s: Storage, cityId: string, body: Option<Val>, now: string) returns (resp: Response)
    requires s.Valid() && now != ""
    modifies s
    ensures s.Valid() && s.links == old(s.links)
    ensures Replaced(Key(City, cityId), Protected, body, now, old(s.objects), s.objects, resp)
    ensures Persisted(resp.Ok200?, old(s.file), s.objects, s.file)
  {
    resp := Replace(s, City, Protected, cityId, body, now);
  }

  /** The create tests in order: the State, then the body, then the name;
      with all three met the body is accepted. */
  lemma CreateCityOrder(stateId: string, body: Option<Val>, objs: map<Key, Record>)
    ensures Key(State, stateId) !in objs ==> Screen(Some(Key(State, stateId)), CreateChecks, body, objs) == Reject(NotFound)
    ensures Key(State, stateId) in objs && ReadBody(body).NotJson? ==>
      Screen(Some(Key(State, stateId)), CreateChecks, body, objs) == Reject(BadRequest("Not a JSON"))
    ensures Key(State, stateId) in objs && ReadBody(body).Params? && !Truthy(GetOr(ReadBody(body).params, "name")) ==>
      Screen(Some(Key(State, stateId)), CreateChecks, body, objs) == Reject(BadRequest("Missing name"))
    ensures Screen(Some(Key(State, stateId)), CreateChecks, body, objs).Accept? <==>
      (Key(State, stateId) in objs && ReadBody(body).Params? && Truthy(GetOr(ReadBody(body).params, "name")))
  {
    if Key(State, stateId) in objs && ReadBody(body).Params? {
      if !Truthy(GetOr(ReadBody(body).params, "name")) {
        ScreenFailsAt(Some(Key(State, stateId)), CreateChecks, body, objs, 0);
      } else {
        assert Passes(objs, ReadBody(body).params, CreateChecks[0]);
      }
    }
  }

  /** A created City's state_id is the path's, whatever the body said, so
      it is listed among that State's cities; its name is the one sent. */
  lemma CreateCityParent(stateId: string, body: Option<Val>, freshId: string, now: string,
                         objs0: map<Key, Record>,
                         objs1: map<Key, Record>, resp: Response)
    requires now != ""
    requires Created(Some(Key(State, stateId)), City, CreateChecks, Forced(stateId), body, freshId, now,
                     objs0, objs1, resp)
    requires resp.Created201?
    ensures Key(State, stateId) in objs1 && ReadBody(body).Params?
    ensures var k := Key(City, IdFor(ReadBody(body).params + Forced(stateId), freshId));
      k in objs1 && objs1[k]["state_id"] == VStr(stateId) && k in Children(objs1, City, "state_id", stateId)
    ensures var p := ReadBody(body).params;
      var k := Key(City, IdFor(p + Forced(stateId), freshId));
      && "name" in p && Truthy(p["name"]) && objs1[k]["name"] == p["name"]
      && resp.created == ToDict(k, objs1[k])
  {
    CreatedStored(Some(Key(State, stateId)), City, CreateChecks, Forced(stateId), body, freshId, now,
                  objs0, objs1, resp);
    CreatedChild(Some(Key(State, stateId)), City, CreateChecks, Forced(stateId), body, freshId, now,
                 objs0, objs1, resp, "state_id");
    CreatedRequired(Some(Key(State, stateId)), City, CreateChecks, Forced(stateId), body, freshId, now,
                    objs0, objs1, resp, 0);
  }

  /** An update never moves a City to another State and keeps its id. */
  lemma UpdateCityKeepsParent(cityId: string, body: Option<Val>, now: string,
                              objs0: map<Key, Record>,
                              objs1: map<Key, Record>, resp: Response)
    requires now != "" && Tracked(objs0)
    requires Replaced(Key(City, cityId), Protected, body, now, objs0, objs1, resp) && resp.Ok200?
    ensures var k := Key(City, cityId);
      && k in objs0 && k in objs1
      && objs1[k]["id"] == objs0[k]["id"]
      && ("state_id" in objs1[k] <==> "state_id" in objs0[k])
      && ("state_id" in objs0[k] ==> objs1[k]["state_id"] == objs0[k]["state_id"])
    ensures |OfKind(objs1, City)| == |OfKind(objs0, City)|
  {
    var k := Key(City, cityId);
    ReplacedKeeps(k, Protected, body, now, objs0, objs1, resp, "id");
    ReplacedKeeps(k, Protected, body, now, objs0, objs1, resp, "state_id");
    ReplacedTable(k, Protected, body, now, objs0, objs1, resp);
  }
}
