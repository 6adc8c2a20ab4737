/** The dict form of a stored object and construction of an object from a
    mapping, as the handlers use them (`obj.to_dict()`, `Kind(**params)`
    followed by `save()`). The base model class itself is not part of this
    model; what is assumed of it is stated on each function. */
module Objects {
  import opened Values
  import opened Kinds
  import opened UserModel

  /** Attributes the base constructor manages itself. */
  const Managed: set<string> := {"__class__", "id", "created_at", "updated_at"}

  /** The server-controlled fields every update handler strips from the body. */
  const ServerFields: set<string> := {"id", "created_at", "updated_at"}

  /** A timestamp as it appears in a dict form: a non-empty string. */
  predicate IsStamp(v: Val)
  {
    v.VStr? && v.s != ""
  }

  /** What an object tracked under key k looks like: its id is the key's id,
      it carries both timestamps and no discriminator, and a User's password
      is a string (the digest the hook stored). */
  predicate WellFormed(k: Key, r: Record)
  {
    && "id" in r && r["id"] == VStr(k.id)
    && "__class__" !in r
    && "created_at" in r && IsStamp(r["created_at"])
    && "updated_at" in r && IsStamp(r["updated_at"])
    && (k.kind == User && "password" in r ==> r["password"].VStr?)
  }

  /** Every entry of a table is well formed for its key. */
  predicate Tracked(objs: map<Key, Record>)
  {
    forall k :: k in objs ==> WellFormed(k, objs[k])
  }

  /** `obj.to_dict()`: the attributes plus the `__class__` discriminator. */
  function ToDict(k: Key, r: Record): (d: Record)
  {
    r["__class__" := VStr(Name(k.kind))]
  }

  /** The id a constructed object gets: the one in the mapping when it is a
      string, otherwise a freshly generated one. */
  function IdFor(kwargs: Record, freshId: string): string
  {
    if "id" in kwargs && kwargs["id"].VStr? then kwargs["id"].s else freshId
  }

  /** The creation time a constructed object gets: the one in the mapping
      when it is a non-empty string, otherwise the current time. */
  function CreatedAt(kwargs: Record, now: string): Val
  {
    if "created_at" in kwargs && IsStamp(kwargs["created_at"]) then kwargs["created_at"] else VStr(now)
  }

  /** The attribute assignments of the constructor, each through the User
      hook when the kind is User; None when the hook raises. */
  function Hooked(kind: Kind, attrs: Record): Option<Record>
  {
    if kind == User && "password" in attrs then
      match Assigned("password", attrs["password"])
      case None => None
      case Some(v) => Some(attrs["password" := v])
    else Some(attrs)
  }

  /** `kind(**kwargs)` followed by `save()`, which refreshes updated_at:
      every entry except `__class__` becomes an attribute, a User's password
      is hashed, and id and the timestamps are filled in. None when the
      constructor raises (a User password that is not a string). */
  function Instantiate(kind: Kind, kwargs: Record, freshId: string, now: string): (r: Option<Record>)
    requires now != ""
    ensures r.Some? <==> !(kind == User && "password" in kwargs && !kwargs["password"].VStr?)
    ensures r.Some? ==> WellFormed(Key(kind, IdFor(kwargs, freshId)), r.value)
  {
    match Hooked(kind, kwargs - {"__class__"})
    case None => None
    case Some(attrs) =>
      Some(attrs["id" := VStr(IdFor(kwargs, freshId))]["created_at" := CreatedAt(kwargs, now)]["updated_at" := VStr(now)])
  }

  /** What a constructed object holds: every entry of the mapping except the
      discriminator, the id and the two timestamps, unchanged, except a
      User's password, which holds the digest. */
  lemma InstantiateFields(kind: Kind, kwargs: Record, freshId: string, now: string)
    requires now != ""
    requires Instantiate(kind, kwargs, freshId, now).Some?
    ensures var r := Instantiate(kind, kwargs, freshId, now).value;
      && r.Keys == (kwargs.Keys - {"__class__"}) + ServerFields
      && (forall f :: f in kwargs && f !in Managed && !(kind == User && f == "password") ==> r[f] == kwargs[f])
      && (kind == User && "password" in kwargs ==> r["password"] == VStr(Hash(kwargs["password"].s)))
      && r["id"] == VStr(IdFor(kwargs, freshId))
      && r["created_at"] == CreatedAt(kwargs, now)
      && r["updated_at"] == VStr(now)
  {
  }

  /** `obj.save()` on an object already stored: updated_at becomes the
      current time and nothing else changes. */
  function Touched(k: Key, r: Record, now: string): (t: Record)
    ensures t.Keys == r.Keys + {"updated_at"} && t["updated_at"] == VStr(now)
    ensures forall f :: f in r && f != "updated_at" ==> t[f] == r[f]
    ensures WellFormed(k, r) && now != "" ==> WellFormed(k, t)
  {
    r["updated_at" := VStr(now)]
  }
}
