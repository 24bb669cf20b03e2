/**
 * The API-token record of the catalogue and its lifecycle, as kept in the
 * database session: a table of tokens keyed by their id, the lookup that
 * guards against a blank id, revocation, stamping the last access time,
 * merging a key into the plugin extras, and the cascade that deletes a
 * user's tokens together with the user.
 *
 * The clock and the random token generator are not modelled: the current
 * time and the freshly generated id are parameters of the operations that
 * need them.
 */
module ApiToken {
  import opened Wrappers

  /** A point in time (UTC), as a count of microseconds. */
  type Time = nat

  /** The JSON values a plugin can store in a token's `plugin_extras`. */
  datatype Json =
    | JNull
    | JBool(b: bool)
    | JNumber(n: int)
    | JString(s: string)
    | JArray(items: seq<Json>)
    | JObject(fields: map<string, Json>)

  /** The contents of a `plugin_extras` column: string keys to JSON values. */
  type Extras = map<string, Json>

  /** The name a token gets when its creator gives none. */
  const DefaultName: string := "Unnamed"

  /** One row of the `api_token` table. */
  datatype Token = Token(
    id: string,
    name: string,
    userId: Option<string>,
    createdAt: Time,
    lastAccess: Option<Time>,
    pluginExtras: Option<Extras>)
  {
    /** The extras as `set_extra` reads them: a NULL (or empty) column counts as the empty map. */
    function ExtrasOrEmpty(): Extras {
      pluginExtras.GetOr(map[])
    }

    /** `touch`: the token as it is once `last_access` is stamped with `now`. */
    function Touch(now: Time): (r: Token)
      ensures r.lastAccess == Some(now)
      ensures r.id == id && r.name == name && r.userId == userId
      ensures r.createdAt == createdAt && r.pluginExtras == pluginExtras
    {
      this.(lastAccess := Some(now))
    }

    /**
     * `set_extra`: the token as it is once `key` is bound to `value` in its
     * extras. The merged map replaces the column as a whole.
     */
    function SetExtra(key: string, value: Json): (r: Token)
      ensures r.pluginExtras.Some?
      ensures r.pluginExtras.value.Keys == ExtrasOrEmpty().Keys + {key}
      ensures r.pluginExtras.value[key] == value
      ensures forall k :: k in ExtrasOrEmpty() && k != key ==>
                r.pluginExtras.value[k] == ExtrasOrEmpty()[k]
      ensures pluginExtras.None? ==> r.pluginExtras == Some(map[key := value])
      ensures r.id == id && r.name == name && r.userId == userId
      ensures r.createdAt == createdAt && r.lastAccess == lastAccess
    {
      var extras := ExtrasOrEmpty();
      this.(pluginExtras := Some(extras[key := value]))
    }
  }

  /**
   * A token built by the constructor and inserted at time `now`: the given
   * id and owner, the given name or "Unnamed", the insertion time as
   * `created_at`, and no last access and no extras yet.
   */
  function NewToken(id: string, userId: Option<string>, name: Option<string>, now: Time): (t: Token)
    ensures t.id == id && t.userId == userId
    ensures name.Some? ==> t.name == name.value
    ensures name.None? ==> t.name == "Unnamed"
    ensures t.createdAt == now
    ensures t.lastAccess.None? && t.pluginExtras.None?
  {
    Token(id, name.GetOr(DefaultName), userId, now, None, None)
  }

  /** The session's view of the table: each token under its primary key. */
  type Store = map<string, Token>

  /** `id` is the primary key: every token is stored under its own id. */
  predicate KeyedById(s: Store) {
    forall k :: k in s ==> s[k].id == k
  }

  /** Python's `not id` on an optional string: None and "" are both false. */
  predicate IsBlank(id: Option<string>) {
    id.None? || id.value == ""
  }

  /**
   * `get`: nothing for a blank id, whatever the store holds; otherwise the
   * token stored under the id, if there is one.
   */
  function Lookup(s: Store, id: Option<string>): (r: Option<Token>)
    ensures IsBlank(id) ==> r.None?
    ensures !IsBlank(id) ==> (r.Some? <==> id.value in s)
    ensures r.Some? ==> id.Some? && id.value in s && r.value == s[id.value]
    ensures KeyedById(s) && r.Some? ==> r.value.id == id.value
  {
    if IsBlank(id) then None
    else if id.value in s then Some(s[id.value])
    else None
  }

  /** What `revoke` leaves behind: the new store and whether a token was deleted. */
  datatype Revocation = Revocation(store: Store, removed: bool)

  /**
   * `revoke`: deletes the token `get` finds and reports whether there was
   * one. No token with that id remains and every other token is kept as it was.
   */
  function Revoked(s: Store, id: Option<string>): (r: Revocation)
    requires KeyedById(s)
    ensures r.removed <==> !IsBlank(id) && id.value in s
    ensures !r.removed ==> r.store == s
    ensures !IsBlank(id) ==> id.value !in r.store
    ensures r.removed ==> r.store.Keys == s.Keys - {id.value}
    ensures forall k :: k in r.store ==> k in s && r.store[k] == s[k]
    ensures forall k :: k in s && Some(k) != id ==> k in r.store
  {
    match Lookup(s, id)
    case Some(token) => Revocation(s - {token.id}, true)
    case None => Revocation(s, false)
  }

  /**
   * The user's `api_tokens` collection: the ids of the tokens it owns, which
   * are exactly the rows the cascade deletes along with the user.
   */
  function OwnedBy(s: Store, user: string): (ids: set<string>)
    ensures ids <= s.Keys
    ensures ids == s.Keys - WithoutUser(s, user).Keys
  {
    set k | k in s && s[k].userId == Some(user)
  }

  /**
   * The cascade on the user's `api_tokens` backref: deleting `user` deletes
   * every token it owns and keeps every other token as it was.
   */
  function WithoutUser(s: Store, user: string): (r: Store)
    ensures forall k :: k in r ==> k in s && r[k] == s[k] && s[k].userId != Some(user)
    ensures forall k :: k in s && s[k].userId != Some(user) ==> k in r
  {
    map k | k in s && s[k].userId != Some(user) :: s[k]
  }

  /** Inserting a token whose id is already taken violates the primary key. */
  datatype CreateError = DuplicateId

  /** The `api_token` rows held by the session. */
  class TokenTable {
    var rows: Store

    ghost predicate Valid()
      reads this
    {
      KeyedById(rows)
    }

    /** An empty table. */
    constructor ()
      ensures Valid() && rows == map[]
    {
      rows := map[];
    }

    /**
     * `ApiToken.get`: a blank id returns nothing before the session is
     * queried; otherwise the session is asked for the row with that key.
     */
    method Get(id: Option<string>) returns (r: Option<Token>)
      requires Valid()
      ensures r == Lookup(rows, id)
    {
      if id.None? || id.value == "" {
        return None;
      }
      if id.value in rows {
        r := Some(rows[id.value]);
      } else {
        r := None;
      }
    }

    /**
     * Construct a token for `userId` with the freshly generated `freshId`
     * and add it to the session at time `now`. An id that is already a key
     * of the table is refused as the database refuses a duplicate primary key.
     */
    method Create(freshId: string, userId: Option<string>, name: Option<string>, now: Time)
      returns (r: Result<Token, CreateError>)
      requires Valid()
      modifies this
      ensures Valid()
      ensures r.Failure? <==> freshId in old(rows)
      ensures r.Failure? ==> r.error == DuplicateId && rows == old(rows)
      ensures r.Success? ==> r.value == NewToken(freshId, userId, name, now)
      ensures r.Success? ==> rows == old(rows)[freshId := r.value]
    {
      if freshId in rows {
        return Failure(DuplicateId);
      }
      var token := NewToken(freshId, userId, name, now);
      rows := rows[freshId := token];
      r := Success(token);
    }

    /** `ApiToken.revoke`: delete the token `get` finds and report whether there was one. */
    method Revoke(id: Option<string>) returns (removed: bool)
      requires Valid()
      modifies this
      ensures Valid()
      ensures Revocation(rows, removed) == Revoked(old(rows), id)
    {
      var token := Get(id);
      if token.Some? {
        rows := rows - {token.value.id};
        removed := true;
      } else {
        removed := false;
      }
    }

    /** `touch` on the token stored under `id`: stamp its `last_access` with `now`. */
    method Touch(id: string, now: Time)
      requires Valid() && id in rows
      modifies this
      ensures Valid()
      ensures rows == old(rows)[id := old(rows)[id].Touch(now)]
    {
      var token := rows[id];
      rows := rows[id := token.Touch(now)];
    }

    /** `set_extra` on the token stored under `id`: bind `key` to `value` in its extras. */
    method SetExtra(id: string, key: string, value: Json)
      requires Valid() && id in rows
      modifies this
      ensures Valid()
      ensures rows == old(rows)[id := old(rows)[id].SetExtra(key, value)]
    {
      var token := rows[id];
      rows := rows[id := token.SetExtra(key, value)];
    }

    /** Deleting the user `user` deletes its tokens with it (`cascade="all, delete"`). */
    method DeleteUser(user: string)
      requires Valid()
      modifies this
      ensures Valid()
      ensures rows == WithoutUser(old(rows), user)
    {
      rows := WithoutUser(rows, user);
    }
  }
}
