/** The Place-Amenity routes: /places/<place_id>/amenities and
    /places/<place_id>/amenities/<amenity_id>
    (api/v1/views/places_amenities.py). `place.amenities` is the stored
    Amenities linked to the Place through the store's link relation. As
    written, the unlink handler deletes the Amenity object itself and never
    touches the relation; the pair staying in `links` afterwards comes from
    modelling links as a persistent relation. */
module PlacesAmenitiesView {
  import opened Values
  import opened Kinds
  import opened Objects
  import opened FileStorage
  import opened Views

  /** GET /places/<place_id>/amenities */
  method ListAmenitiesInPlace(s: Storage, placeId: string) returns (resp: Response)
    ensures Key(Place, placeId) !in s.objects ==> resp == NotFound
    ensures Key(Place, placeId) in s.objects ==> ListResponse(AmenitiesOf(s.objects, s.links, placeId), resp)
  {
    var place := s.Get(Place, placeId);
    if place.None? {
      return NotFound;
    }
    var items := DictForms(AmenitiesOf(s.objects, s.links, placeId));
    resp := Ok200(JList(items));
  }

  /** The outcome of the link handler: 404 for a missing Place, then for a
      missing Amenity; 200 with the Amenity's dict form when it is already
      linked; otherwise the link is added, the Place is saved with a fresh
      updated_at, and the answer is 201 with the Amenity's dict form. */
  predicate Linked(placeId: string, amenityId: string, now: string,
                   objs0: map<Key, Record>, links0: set<Link>,
                   objs1: map<Key, Record>, links1: set<Link>, resp: Response)
  {
    var pk, ak := Key(Place, placeId), Key(Amenity, amenityId);
    if pk !in objs0 || ak !in objs0 then resp == NotFound && objs1 == objs0 && links1 == links0
    else if ak in AmenitiesOf(objs0, links0, placeId) then
      resp == Ok200(JObj(ToDict(ak, objs0[ak]))) && objs1 == objs0 && links1 == links0
    else
      && resp == Created201(ToDict(ak, objs0[ak]))
      && links1 == links0 + {(placeId, amenityId)}
      && objs1 == objs0[pk := Touched(pk, objs0[pk], now)]
  }

  /** POST /places/<place_id>/amenities/<amenity_id> */
  method LinkAmenityToPlace(s: Storage, placeId: string, amenityId: string, now: string) returns (resp: Response)
    requires s.Valid() && now != ""
    modifies s
    ensures s.Valid()
    ensures Linked(placeId, amenityId, now, old(s.objects), old(s.links), s.objects, s.links, resp)
    ensures Persisted(resp.Created201?, old(s.file), s.objects, s.file)
  {
    var pk, ak := Key(Place, placeId), Key(Amenity, amenityId);
    var place := s.Get(Place, placeId);
    if place.None? {
      return NotFound;
    }
    var amenity := s.Get(Amenity, amenityId);
    if amenity.None? {
      return NotFound;
    }
    if ak in AmenitiesOf(s.objects, s.links, placeId) {
      return Ok200(JObj(ToDict(ak, amenity.value)));
    }
    // place_obj.amenities.append(amenity_obj)
    s.links := s.links + {(placeId, amenityId)};
    // place_obj.save()
    s.New(Place, Touched(pk, place.value, now));
    s.Save();
    resp := Created201(ToDict(ak, amenity.value));
  }

  /** The outcome of the unlink handler: 404 for a missing Place, a missing
      Amenity, or an Amenity not linked to the Place; otherwise the Amenity
      object is deleted from the store, the Place is saved with a fresh
      updated_at, and the answer is 200 `{}`. */
  predicate Unlinked(placeId: string, amenityId: string, now: string, links: set<Link>,
                     objs0: map<Key, Record>, objs1: map<Key, Record>, resp: Response)
  {
    var pk, ak := Key(Place, placeId), Key(Amenity, amenityId);
    if pk !in objs0 || ak !in objs0 || ak !in AmenitiesOf(objs0, links, placeId) then
      resp == NotFound && objs1 == objs0
    else
      resp == Deleted && objs1 == (objs0 - {ak})[pk := Touched(pk, objs0[pk], now)]
  }

  /** `amenity_obj.delete()` then `place_obj.save()`. */
  method DeleteAndTouch(s: Storage, gone: Key, kept: Key, r: Record)
    requires s.Valid() && WellFormed(kept, r)
    modifies s
    ensures s.Valid() && s.links == old(s.links)
    ensures s.objects == (old(s.objects) - {gone})[kept := r] && s.file == Snapshot(s.objects)
  {
    ghost var before := s.objects;
    s.Delete(gone.kind, gone.id);
    s.New(kept.kind, r);
    assert s.objects == (before - {gone})[kept := r];
    s.Save();
  }

  /** DELETE /places/<place_id>/amenities/<amenity_id> */
  method DeleteAmenityOfPlace(s: Storage, placeId: string, amenityId: string, now: string) returns (resp: Response)
    requires s.Valid() && now != ""
    modifies s
    ensures s.Valid() && s.links == old(s.links)
    ensures Unlinked(placeId, amenityId, now, s.links, old(s.objects), s.objects, resp)
    ensures Persisted(resp == Deleted, old(s.file), s.objects, s.file)
  {
    var pk, ak := Key(Place, placeId), Key(Amenity, amenityId);
    var place := s.Get(Place, placeId);
    if place.None? {
      return NotFound;
    }
    var amenity := s.Get(Amenity, amenityId);
    if amenity.None? {
      return NotFound;
    }
    if ak !in AmenitiesOf(s.objects, s.links, placeId) {
      return NotFound;
    }
    DeleteAndTouch(s, ak, pk, Touched(pk, place.value, now));
    resp := Deleted;
  }

  /** Linking is idempotent: once an Amenity is linked, linking it again
      answers 200 with the same dict form and changes nothing. */
  lemma LinkIdempotent(placeId: string, amenityId: string, now: string, now': string,
                       objs0: map<Key, Record>, links0: set<Link>,
                       objs1: map<Key, Record>, links1: set<Link>, resp1: Response,
                       objs2: map<Key, Record>, links2: set<Link>, resp2: Response)
    requires Linked(placeId, amenityId, now, objs0, links0, objs1, links1, resp1)
    requires resp1.Created201? || resp1.Ok200?
    requires Linked(placeId, amenityId, now', objs1, links1, objs2, links2, resp2)
    ensures resp2.Ok200? && objs2 == objs1 && links2 == links1
    ensures resp1.Ok200? ==> resp2 == resp1
    ensures resp1.Created201? ==> resp2 == Ok200(JObj(resp1.created))
  {
    var pk, ak := Key(Place, placeId), Key(Amenity, amenityId);
    assert pk in objs0 && ak in objs0;
    assert ak in objs1 && objs1[ak] == objs0[ak];
    assert ak in AmenitiesOf(objs1, links1, placeId);
  }

  /** A successful link adds exactly that Amenity to the Place's amenities,
      leaves every other Place's amenities alone, and creates or deletes no
      object. */
  lemma LinkedListed(placeId: string, amenityId: string, now: string,
                     objs0: map<Key, Record>, links0: set<Link>,
                     objs1: map<Key, Record>, links1: set<Link>, resp: Response)
    requires Linked(placeId, amenityId, now, objs0, links0, objs1, links1, resp)
    requires resp.Created201? || resp.Ok200?
    ensures Key(Amenity, amenityId) in objs0
    ensures AmenitiesOf(objs1, links1, placeId) == AmenitiesOf(objs0, links0, placeId)[Key(Amenity, amenityId) := objs0[Key(Amenity, amenityId)]]
    ensures forall q :: q != placeId ==> AmenitiesOf(objs1, links1, q) == AmenitiesOf(objs0, links0, q)
    ensures objs1.Keys == objs0.Keys
  {
    var pk, ak := Key(Place, placeId), Key(Amenity, amenityId);
    assert pk in objs0 && ak in objs0;
    if resp.Created201? {
      assert objs1 == objs0[pk := Touched(pk, objs0[pk], now)];
      assert forall k :: k in objs1 && k.kind == Amenity ==> k in objs0 && objs1[k] == objs0[k];
    }
  }

  /** A successful unlink deletes the Amenity from the whole store: it is
      gone from every Place, its class has one object fewer, and the link
      row stays behind. */
  lemma UnlinkDeletesAmenity(placeId: string, amenityId: string, now: string, links: set<Link>,
                             objs0: map<Key, Record>, objs1: map<Key, Record>, resp: Response)
    requires Unlinked(placeId, amenityId, now, links, objs0, objs1, resp) && resp == Deleted
    ensures Key(Amenity, amenityId) in objs0 && Key(Amenity, amenityId) !in objs1
    ensures forall q :: Key(Amenity, amenityId) !in AmenitiesOf(objs1, links, q)
    ensures (placeId, amenityId) in links
    ensures |OfKind(objs1, Amenity)| == |OfKind(objs0, Amenity)| - 1
  {
    var pk, ak := Key(Place, placeId), Key(Amenity, amenityId);
    assert ak in AmenitiesOf(objs0, links, placeId);
    var dropped := objs0 - {ak};
    assert objs1 == dropped[pk := Touched(pk, objs0[pk], now)];
    DropCounts(objs0, ak);
    PutCounts(dropped, pk, Touched(pk, objs0[pk], now));
  }

  /** A successful unlink saves the Place with a fresh updated_at, and its
      amenities lose exactly the unlinked one. */
  lemma UnlinkTouchesPlace(placeId: string, amenityId: string, now: string, links: set<Link>,
                           objs0: map<Key, Record>, objs1: map<Key, Record>, resp: Response)
    requires Unlinked(placeId, amenityId, now, links, objs0, objs1, resp) && resp == Deleted
    ensures Key(Place, placeId) in objs1 && objs1[Key(Place, placeId)]["updated_at"] == VStr(now)
    ensures AmenitiesOf(objs1, links, placeId) == AmenitiesOf(objs0, links, placeId) - {Key(Amenity, amenityId)}
  {
    assert objs1 == (objs0 - {Key(Amenity, amenityId)})[Key(Place, placeId) := Touched(Key(Place, placeId), objs0[Key(Place, placeId)], now)];
  }

  /** Because an unlink deletes the Amenity, linking it to the Place again
      afterwards is a 404. */
  lemma RelinkAfterUnlink(placeId: string, amenityId: string, now: string, now': string, links: set<Link>,
                          objs0: map<Key, Record>, objs1: map<Key, Record>, resp1: Response,
                          objs2: map<Key, Record>, links2: set<Link>, resp2: Response)
    requires Unlinked(placeId, amenityId, now, links, objs0, objs1, resp1) && resp1 == Deleted
    requires Linked(placeId, amenityId, now', objs1, links, objs2, links2, resp2)
    ensures resp2 == NotFound && objs2 == objs1 && links2 == links
  {
    assert Key(Amenity, amenityId) !in objs1;
  }
}
