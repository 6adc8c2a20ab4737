/** The User model's attribute hook: every assignment to `password` stores
    a digest of the assigned value (models/user.py). */
module UserModel {
  import opened Values

  /** The MD5 hex digest of a string's UTF-8 bytes. Its internals are not
      modelled: it is a fixed, arbitrary function, so it is deterministic
      and nothing else is known about it. */
  const Hash: string -> string

  /** What `User.__setattr__(name, v)` stores under `name`. None when the
      hook raises: `bytes(v, 'utf-8')` accepts only a string. */
  function Assigned(name: string, v: Val): (r: Option<Val>)
    ensures name != "password" ==> r == Some(v)
    ensures name == "password" ==> (r.Some? <==> v.VStr?)
    ensures name == "password" && v.VStr? ==> r == Some(VStr(Hash(v.s)))
  {
    if name != "password" then Some(v)
    else if v.VStr? then Some(VStr(Hash(v.s)))
    else None
  }

  /** Class attributes of User in file mode. */
  const FileDefaults: set<string> := {"email", "password", "first_name", "last_name"}

  /** `getattr(user, name)` in file mode: the instance attribute, else the
      class default "" (which never went through the hook), else None for
      an AttributeError. */
  function Lookup(attrs: Record, name: string): (r: Option<Val>)
    ensures name in attrs ==> r == Some(attrs[name])
    ensures name !in attrs && name in FileDefaults ==> r == Some(VStr(""))
    ensures name !in attrs && name !in FileDefaults ==> r == None
  {
    if name in attrs then Some(attrs[name])
    else if name in FileDefaults then Some(VStr(""))
    else None
  }

  /** A User instance; `attrs` is its `__dict__`. */
  class UserObject {
    var attrs: Record

    /** `User()` with no arguments: the base constructor assigns only id and
        the two timestamps, so the four file-mode fields read as "". */
    constructor (id: string, now: string)
      ensures attrs == map["id" := VStr(id), "created_at" := VStr(now), "updated_at" := VStr(now)]
      ensures forall f :: f in FileDefaults ==> Read(f) == Some(VStr(""))
    {
      attrs := map["id" := VStr(id), "created_at" := VStr(now), "updated_at" := VStr(now)];
    }

    function Read(name: string): Option<Val>
      reads this
    {
      Lookup(attrs, name)
    }

    /** `setattr(user, name, v)` through the overridden `__setattr__`. */
    method SetAttr(name: string, v: Val) returns (ok: bool)
      modifies this
      ensures ok <==> (name != "password" || v.VStr?)
      ensures ok && name == "password" ==> attrs == old(attrs)[name := VStr(Hash(v.s))]
      ensures ok && name != "password" ==> attrs == old(attrs)[name := v]
      ensures !ok ==> attrs == old(attrs)
    {
      var stored := Assigned(name, v);
      if stored.None? {
        return false;
      }
      attrs := attrs[name := stored.value];
      ok := true;
    }
  }

  /** Assigning an already hashed value hashes it again. */
  lemma RehashOfDigest(x: string)
    ensures Assigned("password", Assigned("password", VStr(x)).value) == Some(VStr(Hash(Hash(x))))
  {
  }

  /** Two users given the same plaintext store the same digest, and so does
      one user given it twice. */
  method SamePlaintextSameDigest(u1: UserObject, u2: UserObject, x: string)
    modifies u1, u2
    ensures u1.Read("password") == u2.Read("password") == Some(VStr(Hash(x)))
  {
    var ok1 := u1.SetAttr("password", VStr(x));
    var ok2 := u2.SetAttr("password", VStr(x));
  }
}
