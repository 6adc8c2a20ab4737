/** The Review routes: /places/<place_id>/reviews and /reviews/<review_id> (api/v1/views/places_reviews.py). */
module PlacesReviewsView {
  import opened Values
  import opened Kinds
  import opened Objects
  import opened FileStorage
  import opened Views
  import opened Creating
  import opened Updating

  /** The body tests of `create_review`, in order: the author must be named
      and exist, then the text must be given. */
  const CreateChecks: seq<Check> := [Present("user_id"), Names("user_id", User), Present("text")]

  /** The keys `update_review` pops from the body: the parent and the author
      are among them. */
  const Protected: set<string> := ServerFields + {"place_id", "user_id"}

  /** `params.update({"place_id": place_id})` */
  function Forced(placeId: string): Record
  {
    map["place_id" := VStr(placeId)]
  }

  /** GET /places/<place_id>/reviews: the reviews whose place_id names the Place. */
  method ListReviews(s: Storage, placeId: string) returns (resp: Response)
    ensures Key(Place, placeId) !in s.objects ==> resp == NotFound
    ensures Key(Place, placeId) in s.objects ==> ListResponse(Children(s.objects, Review, "place_id", placeId), resp)
  {
    resp := ListChildren(s, Key(Place, placeId), Review, "place_id");
  }

  /** GET /reviews/<review_id> */
  method RetrieveReview(s: Storage, reviewId: string) returns (resp: Response)
    ensures Key(Review, reviewId) in s.objects ==> resp == Ok200(JObj(ToDict(Key(Review, reviewId), s.objects[Key(Review, reviewId)])))
    ensures Key(Review, reviewId) !in s.objects ==> resp == NotFound
  {
    resp := Retrieve(s, Review, reviewId);
  }

  /** DELETE /reviews/<review_id> */
  method DeleteReview(s: Storage, reviewId: string) returns (resp: Response)
    requires s.Valid()
    modifies s
    ensures s.Valid() && s.links == old(s.links)
    ensures Removed(Key(Review, reviewId), old(s.objects), s.objects, resp)
    ensures Persisted(resp == Deleted, old(s.file), s.objects, s.file)
  {
    resp := Remove(s, Review, reviewId);
  }

  /** POST /places/<place_id>/reviews */
  method CreateReview(s: Storage, placeId: string, body: Option<Val>, freshId: string, now: string) returns (resp: Response)
    requires s.Valid() && now != ""
    modifies s
    ensures s.Valid() && s.links == old(s.links)
    ensures Created(Some(Key(Place, placeId)), Review, CreateChecks, Forced(placeId), body, freshId, now,
                    old(s.objects), s.objects, resp)
    ensures Persisted(resp.Created201?, old(s.file), s.objects, s.file)
  {
    resp := Create(s, Some(Key(Place, placeId)), Review, CreateChecks, Forced(placeId), body, freshId, now);
  }

  /** PUT /reviews/<review_id> */
  method UpdateReview(s: Storage, reviewId: string, body: Option<Val>, now: string) returns (resp: Response)
    requires s.Valid() && now != ""
    modifies s
    ensures s.Valid() && s.links == old(s.links)
    ensures Replaced(Key(Review, reviewId), Protected, body, now, old(s.objects), s.objects, resp)
    ensures Persisted(resp.Ok200?, old(s.file), s.objects, s.file)
  {
    resp := Replace(s, Review, Protected, reviewId, body, now);
  }

  /** The create tests in order: a Place with the path's id, the body,
      user_id given, user_id naming a stored User, then the text; with
      all of them met the body is accepted. */
  lemma CreateReviewOrder(placeId: string, body: Option<Val>, objs: map<Key, Record>)
    ensures Key(Place, placeId) !in objs ==> Screen(Some(Key(Place, placeId)), CreateChecks, body, objs) == Reject(NotFound)
    ensures Key(Place, placeId) in objs && ReadBody(body).NotJson? ==>
      Screen(Some(Key(Place, placeId)), CreateChecks, body, objs) == Reject(BadRequest("Not a JSON"))
    ensures Key(Place, placeId) in objs && ReadBody(body).Params? && !Truthy(GetOr(ReadBody(body).params, "user_id")) ==>
      Screen(Some(Key(Place, placeId)), CreateChecks, body, objs) == Reject(BadRequest("Missing user_id"))
    ensures Key(Place, placeId) in objs && ReadBody(body).Params? && Truthy(GetOr(ReadBody(body).params, "user_id"))
            && !Passes(objs, ReadBody(body).params, Names("user_id", User)) ==>
      Screen(Some(Key(Place, placeId)), CreateChecks, body, objs) == Reject(NotFound)
    ensures Key(Place, placeId) in objs && ReadBody(body).Params? && Truthy(GetOr(ReadBody(body).params, "user_id"))
            && Passes(objs, ReadBody(body).params, Names("user_id", User)) && !Truthy(GetOr(ReadBody(body).params, "text")) ==>
      Screen(Some(Key(Place, placeId)), CreateChecks, body, objs) == Reject(BadRequest("Missing text"))
    ensures Screen(Some(Key(Place, placeId)), CreateChecks, body, objs).Accept? <==>
      (Key(Place, placeId) in objs && ReadBody(body).Params?
       && Truthy(GetOr(ReadBody(body).params, "user_id")) && GetOr(ReadBody(body).params, "user_id").VStr? && Key(User, GetOr(ReadBody(body).params, "user_id").s) in objs
       && Truthy(GetOr(ReadBody(body).params, "text")))
  {
    var parent := Some(Key(Place, placeId));
    if Key(Place, placeId) in objs && ReadBody(body).Params? {
      var p := ReadBody(body).params;
      if !Truthy(GetOr(p, "user_id")) {
        ScreenFailsAt(parent, CreateChecks, body, objs, 0);
      } else if !Passes(objs, p, Names("user_id", User)) {
        assert Passes(objs, p, CreateChecks[0]);
        ScreenFailsAt(parent, CreateChecks, body, objs, 1);
      } else if !Truthy(GetOr(p, "text")) {
        assert Passes(objs, p, CreateChecks[0]) && Passes(objs, p, CreateChecks[1]);
        ScreenFailsAt(parent, CreateChecks, body, objs, 2);
      } else {
        assert Passes(objs, p, CreateChecks[0]) && Passes(objs, p, CreateChecks[1]) && Passes(objs, p, CreateChecks[2]);
      }
    }
  }

  /** A created Review's place_id is the path's, whatever the body said, so it
      is one of that parent's reviews. */
  lemma CreateReviewParent(placeId: string, body: Option<Val>, freshId: string, now: string,
                         objs0: map<Key, Record>, objs1: map<Key, Record>, resp: Response)
    requires now != ""
    requires Created(Some(Key(Place, placeId)), Review, CreateChecks, Forced(placeId), body, freshId, now, objs0, objs1, resp)
    requires resp.Created201?
    ensures Key(Place, placeId) in objs0 && ReadBody(body).Params?
    ensures var k := Key(Review, IdFor(ReadBody(body).params + Forced(placeId), freshId));
      k in objs1 && objs1[k]["place_id"] == VStr(placeId) && k in Children(objs1, Review, "place_id", placeId)
  {
    CreatedStored(Some(Key(Place, placeId)), Review, CreateChecks, Forced(placeId), body, freshId, now, objs0, objs1, resp);
    CreatedChild(Some(Key(Place, placeId)), Review, CreateChecks, Forced(placeId), body, freshId, now, objs0, objs1, resp, "place_id");
  }

  /** A created Review names a User that is still stored, and stores the
      user_id and the truthy text it was sent. */
  lemma CreateReviewAuthor(placeId: string, body: Option<Val>, freshId: string, now: string,
                         objs0: map<Key, Record>, objs1: map<Key, Record>, resp: Response)
    requires now != ""
    requires Created(Some(Key(Place, placeId)), Review, CreateChecks, Forced(placeId), body, freshId, now, objs0, objs1, resp)
    requires resp.Created201?
    ensures ReadBody(body).Params?
    ensures var p := ReadBody(body).params;
      var k := Key(Review, IdFor(p + Forced(placeId), freshId));
      && "user_id" in p && p["user_id"].VStr? && Key(User, p["user_id"].s) in objs1
      && k in objs1 && objs1[k]["user_id"] == p["user_id"]
      && "text" in p && Truthy(p["text"]) && objs1[k]["text"] == p["text"]
  {
    var parent := Some(Key(Place, placeId));
    CreatedStored(parent, Review, CreateChecks, Forced(placeId), body, freshId, now, objs0, objs1, resp);
    CreatedRequired(parent, Review, CreateChecks, Forced(placeId), body, freshId, now, objs0, objs1, resp, 0);
    CreatedRequired(parent, Review, CreateChecks, Forced(placeId), body, freshId, now, objs0, objs1, resp, 2);
    assert Passes(objs1, ReadBody(body).params, CreateChecks[1]);
  }

  /** An update never moves a Review to another parent or author, and
      keeps its id and the number of reviews. */
  lemma UpdateReviewKeepsOwner(reviewId: string, body: Option<Val>, now: string,
                               objs0: map<Key, Record>, objs1: map<Key, Record>, resp: Response)
    requires now != "" && Tracked(objs0)
    requires Replaced(Key(Review, reviewId), Protected, body, now, objs0, objs1, resp) && resp.Ok200?
    ensures var k := Key(Review, reviewId);
      && k in objs0 && k in objs1
      && objs1[k]["id"] == objs0[k]["id"]
      && ("place_id" in objs1[k] <==> "place_id" in objs0[k])
      && ("place_id" in objs0[k] ==> objs1[k]["place_id"] == objs0[k]["place_id"])
      && ("user_id" in objs1[k] <==> "user_id" in objs0[k])
      && ("user_id" in objs0[k] ==> objs1[k]["user_id"] == objs0[k]["user_id"])
    ensures |OfKind(objs1, Review)| == |OfKind(objs0, Review)|
  {
    var k := Key(Review, reviewId);
    ReplacedKeeps(k, Protected, body, now, objs0, objs1, resp, "id");
    ReplacedKeeps(k, Protected, body, now, objs0, objs1, resp, "place_id");
    ReplacedKeeps(k, Protected, body, now, objs0, objs1, resp, "user_id");
    ReplacedTable(k, Protected, body, now, objs0, objs1, resp);
  }
}
