/** Properties of the API-token lifecycle that relate several operations. */
module ApiTokenProperties {
  import opened Wrappers
  import opened ApiToken

  /** A blank id is answered without looking at the store: any two stores give the same (empty) answer. */
  lemma BlankIdIgnoresStore(s1: Store, s2: Store, id: Option<string>)
    requires IsBlank(id)
    ensures Lookup(s1, id) == Lookup(s2, id) == None
  {
  }

  /** Revoking a blank id deletes nothing. */
  lemma RevokeBlankIsNoOp(s: Store, id: Option<string>)
    requires KeyedById(s) && IsBlank(id)
    ensures Revoked(s, id) == Revocation(s, false)
  {
  }

  /** A second revocation of the same id reports false and changes nothing. */
  lemma RevokeIdempotent(s: Store, id: Option<string>)
    requires KeyedById(s)
    ensures KeyedById(Revoked(s, id).store)
    ensures var once := Revoked(s, id).store;
            Revoked(once, id) == Revocation(once, false)
  {
  }

  /** After a revocation `get` finds nothing under that id, and finds every other token as before. */
  lemma LookupAfterRevoke(s: Store, id: Option<string>, other: Option<string>)
    requires KeyedById(s)
    ensures Lookup(Revoked(s, id).store, id).None?
    ensures other != id ==> Lookup(Revoked(s, id).store, other) == Lookup(s, other)
  {
  }

  /** A successful revocation shrinks the table by exactly one row; a failed one by none. */
  lemma RevokeCount(s: Store, id: Option<string>)
    requires KeyedById(s)
    ensures |Revoked(s, id).store| == if Revoked(s, id).removed then |s| - 1 else |s|
  {

  }

  /** A token inserted under a fresh non-blank id is what `get` then returns for that id. */
  lemma LookupAfterCreate(s: Store, t: Token, other: Option<string>)
    requires KeyedById(s) && t.id !in s && t.id != ""
    ensures KeyedById(s[t.id := t])
    ensures Lookup(s[t.id := t], Some(t.id)) == Some(t)
    ensures other != Some(t.id) ==> Lookup(s[t.id := t], other) == Lookup(s, other)
  {
  }

  /** A token stored under the empty id (a zero-byte token) can neither be found nor revoked. */
  lemma EmptyIdUnreachable(s: Store)
    requires KeyedById(s) && "" in s
    ensures Lookup(s, Some("")).None?
    ensures Revoked(s, Some("")).store == s
  {
  }

  /** Touching twice at the same time is the same as touching once; a later touch overrides an earlier one. */
  lemma TouchOverrides(t: Token, earlier: Time, later: Time)
    ensures t.Touch(earlier).Touch(later) == t.Touch(later)
  {
  }

  /** Setting the same key twice keeps only the second value. */
  lemma SetExtraLastWins(t: Token, key: string, v1: Json, v2: Json)
    ensures t.SetExtra(key, v1).SetExtra(key, v2) == t.SetExtra(key, v2)
  {
    var e := t.ExtrasOrEmpty();
    assert e[key := v1][key := v2] == e[key := v2];
  }

  /** Setting two different keys gives the same extras in either order. */
  lemma SetExtraCommutes(t: Token, k1: string, v1: Json, k2: string, v2: Json)
    requires k1 != k2
    ensures t.SetExtra(k1, v1).SetExtra(k2, v2) == t.SetExtra(k2, v2).SetExtra(k1, v1)
  {
    var e := t.ExtrasOrEmpty();
    assert e[k1 := v1][k2 := v2] == e[k2 := v2][k1 := v1];
  }

  /** Once a user is deleted none of its tokens is left, and a second deletion changes nothing. */
  lemma DeleteUserIdempotent(s: Store, user: string)
    ensures OwnedBy(WithoutUser(s, user), user) == {}
    ensures WithoutUser(WithoutUser(s, user), user) == WithoutUser(s, user)
  {
  }

  /** The cascade deletes exactly the user's tokens: the table loses as many rows as the user owned. */
  lemma DeleteUserCount(s: Store, user: string)
    ensures |WithoutUser(s, user)| == |s| - |OwnedBy(s, user)|
  {
  }

  /** Deleting a user keeps the table keyed by id. */
  lemma DeleteUserKeepsKeys(s: Store, user: string)
    requires KeyedById(s)
    ensures KeyedById(WithoutUser(s, user))
  {
  }

  /** Revoking a token and deleting a user may happen in either order. */
  lemma RevokeDeleteUserCommute(s: Store, id: Option<string>, user: string)
    requires KeyedById(s)
    ensures KeyedById(WithoutUser(s, user))
    ensures WithoutUser(Revoked(s, id).store, user) == Revoked(WithoutUser(s, user), id).store
  {

  }

  /** Touching or extending a token keeps the table keyed by id and leaves the owner's set of tokens as it was. */
  lemma UpdateKeepsOwnership(s: Store, id: string, now: Time, key: string, value: Json, user: string)
    requires KeyedById(s) && id in s
    ensures KeyedById(s[id := s[id].Touch(now)])
    ensures KeyedById(s[id := s[id].SetExtra(key, value)])
    ensures OwnedBy(s[id := s[id].Touch(now)], user) == OwnedBy(s, user)
    ensures OwnedBy(s[id := s[id].SetExtra(key, value)], user) == OwnedBy(s, user)
  {
  }

  /** A client of the table: revoking twice reports true, then false. */
  method RevokeTwice(table: TokenTable, id: string) returns (first: bool, second: bool)
    requires table.Valid() && id != "" && id in table.rows
    modifies table
    ensures table.Valid() && id !in table.rows
    ensures first && !second
  {
    first := table.Revoke(Some(id));
    second := table.Revoke(Some(id));
  }
}
