# CKAN API tokens, modelled in Dafny

This project models the API-token record of the CKAN open-data catalogue and
its lifecycle (`ckan/model/api_token.py`). A token is one row of the
`api_token` table. It has an id, a name, the owning user's id, a creation time,
an optional last-access time and an optional map of plugin extras. The
database session holding those rows is modelled as the class
`ApiToken.TokenTable`. Its field `rows` maps each token id (the primary key) to
its token, and its methods change the table in place as the session does:

- `Create` constructs a token under a freshly generated id and adds it.
- `Get` looks a token up. A blank id (None or "") returns nothing without
  consulting the table.
- `Revoke` deletes the token `Get` finds and reports whether it did.
- `Touch` stamps `last_access` with the current time.
- `SetExtra` merges one key into the plugin extras, replacing the whole map.
- `DeleteUser` is the cascade on the user's `api_tokens` backref: deleting a
  user deletes all of that user's tokens.

Each method is proved against a pure function of the old state (`Lookup`,
`Revoked`, `NewToken`, `Token.Touch`, `Token.SetExtra`, `WithoutUser`). Those
functions state the source's promises in their contracts, and
`ApiTokenProperties` proves how the operations combine. Examples are
idempotent revocation, last-write-wins extras, exact row counts after a
cascade, and revocation commuting with user deletion.

Files:
- `wrappers.dfy`: `Option` and `Result`.
- `api_token.dfy`: the token record, the specification functions and the table class.
- `api_token_properties.dfy`: lemmas relating the operations, and a client of the table.

Two facts of the code worth knowing:
- `user_id` is a nullable foreign key (`Optional[str]`), so a token need not have an
  owner; the model has `userId: Option<string>`.
- The id comes from `token_urlsafe(nbytes)`. With `api_token.nbytes` set to 0 this
  gives the empty string, and the guard in `get` then makes the token unreachable.
  `EmptyIdUnreachable` states this.

## Model

| member | source | states |
|---|---|---|
| `ApiToken.NewToken` | ckan/model/api_token.py:46-51 | a constructed token has the given id and `user_id`, the given name or "Unnamed" when none is given, the insertion time as `created_at`, and no `last_access` and no extras |
| `ApiToken.Lookup` | ckan/model/api_token.py:53-58 | a blank id (None or "") gives nothing; otherwise a token is returned exactly when the id is a key, and it is the token stored there, whose own id is the one asked for |
| `ApiToken.Revoked` | ckan/model/api_token.py:60-67 | reports true exactly when the id is non-blank and present; afterwards no token with that id remains; on false the store is unchanged; every other token is kept with its value and no token is added |
| `ApiToken.Token.Touch` | ckan/model/api_token.py:69-70 | `last_access` becomes `now`; id, name, owner, creation time and extras are unchanged |
| `ApiToken.Token.SetExtra` | ckan/model/api_token.py:74-77 | afterwards the extras bind `key` to `value`; every other key keeps its value and no key is lost or invented; NULL extras become exactly `{key: value}`; all other fields are unchanged |
| `ApiToken.OwnedBy` | ckan/model/api_token.py:86-88 | the user's `api_tokens` collection is drawn from the table's rows and is exactly the set of rows the cascade deletes |
| `ApiToken.WithoutUser` | ckan/model/api_token.py:86-88 | the cascade keeps no token owned by the user, keeps every token owned by anyone else, and keeps each kept token unchanged |
| `ApiToken.TokenTable.Get` | ckan/model/api_token.py:53-58 | the table's lookup returns what `Lookup` specifies and changes nothing |
| `ApiToken.TokenTable.Create` | ckan/model/api_token.py:46-51 | fails with `DuplicateId`, leaving the table unchanged, exactly when the generated id is already a key; otherwise adds the `NewToken` under its id and nothing else; keeps every row under its own id |
| `ApiToken.TokenTable.Revoke` | ckan/model/api_token.py:60-67 | the new rows and the returned flag are those `Revoked` specifies for the old rows |
| `ApiToken.TokenTable.Touch` | ckan/model/api_token.py:69-72 | only the touched token changes, and it changes as `Token.Touch` specifies |
| `ApiToken.TokenTable.SetExtra` | ckan/model/api_token.py:74-79 | only the updated token changes, and it changes as `Token.SetExtra` specifies |
| `ApiToken.TokenTable.DeleteUser` | ckan/model/api_token.py:82-91 | the new rows are the old rows after the cascade, as `WithoutUser` specifies |
| `ApiTokenProperties.BlankIdIgnoresStore` | ckan/model/api_token.py:54-56 | for a blank id, `get` returns nothing whatever the store holds, so the store is never consulted |
| `ApiTokenProperties.RevokeBlankIsNoOp` | ckan/model/api_token.py:60-67 | `revoke("")` and `revoke(None)` return false and leave the store unchanged |
| `ApiTokenProperties.RevokeIdempotent` | ckan/model/api_token.py:60-67 | a second revocation of the same id returns false and leaves the store as the first left it |
| `ApiTokenProperties.LookupAfterRevoke` | ckan/model/api_token.py:53-67 | after a revocation `get` finds nothing under that id and finds every other id as before |
| `ApiTokenProperties.RevokeCount` | ckan/model/api_token.py:60-67 | a successful revocation removes exactly one row; an unsuccessful one removes none |
| `ApiTokenProperties.LookupAfterCreate` | ckan/model/api_token.py:46-58 | a token inserted under a fresh non-blank id is returned by `get` for that id; every other lookup is unchanged |
| `ApiTokenProperties.EmptyIdUnreachable` | ckan/model/api_token.py:54-56 | a token stored under the empty id can neither be found by `get` nor deleted by `revoke` |
| `ApiTokenProperties.TouchOverrides` | ckan/model/api_token.py:69-70 | the last `touch` decides `last_access`: touching at one time and then at another equals touching at the latter only |
| `ApiTokenProperties.SetExtraLastWins` | ckan/model/api_token.py:74-77 | setting the same key twice leaves the second value, as if the first call had not happened |
| `ApiTokenProperties.SetExtraCommutes` | ckan/model/api_token.py:74-77 | setting two different keys gives the same token in either order |
| `ApiTokenProperties.DeleteUserIdempotent` | ckan/model/api_token.py:86-88 | after the cascade the user owns no token, and a second cascade changes nothing |
| `ApiTokenProperties.DeleteUserCount` | ckan/model/api_token.py:86-88 | the cascade removes exactly as many rows as the user owned tokens |
| `ApiTokenProperties.DeleteUserKeepsKeys` | ckan/model/api_token.py:86-88 | the cascade keeps every remaining token under its own id |
| `ApiTokenProperties.RevokeDeleteUserCommute` | ckan/model/api_token.py:60-67 | revoking a token and deleting a user give the same table in either order |
| `ApiTokenProperties.UpdateKeepsOwnership` | ckan/model/api_token.py:69-77 | `touch` and `set_extra` keep every row under its own id and change no user's set of tokens |
| `ApiTokenProperties.RevokeTwice` | ckan/model/api_token.py:60-67 | a client of the table: revoking a present id returns true, revoking it again returns false, and the id is gone |

## Left out

- Token generation (`_make_token`: `secrets.token_urlsafe` with the `api_token.nbytes` setting read through `tk.asint`) is randomness plus a configuration lookup. The generated id is a parameter of `Create`.
- The clock (`datetime.datetime.utcnow` as the `created_at` default and in `touch`) is a parameter `now`. Times are whole microseconds.
- `meta.Session.commit()` and the `commit=` flags of `touch` and `set_extra` are transaction plumbing. Every operation takes effect at once on the table, and rollback is not modelled.
- The SQLAlchemy table and mapper declarations, the JSONB column type and `MutableDict` change tracking are persistence concerns. Only the primary key (`KeyedById`) and the delete cascade are kept.
- When `plugin_extras` is non-empty, `set_extra` first updates that dict in place and then deep-copies it. Another holder of a reference to that dict would see the change. (When it is NULL or empty, `or {}` builds a new dict and nothing existing is mutated.) The model works on values, so this aliasing is not captured.
- JSON values in the extras are modelled without floating-point numbers (numbers are integers).
- `ApiToken.__init__` can be called with an explicit `name=None`. The model's `name: Option<string>` stands for "argument given or omitted", so an explicitly null name is not modelled.
- `ApiToken.TokenTable.Touch` and `ApiToken.TokenTable.SetExtra` act on a token held by the table (`id in rows`). Touching or extending a transient token is modelled by `Token.Touch` and `Token.SetExtra` on the token value alone.
- The `owner` relationship object itself (loading the `User`) is not modelled. Only its foreign key `user_id` and the cascade are kept. The `User` entity is not part of this model.
- The dictization code (group, package, tag, vocabulary and activity dictize, `list_dictize` and `resource_dict_save`) is a separate module and is not modelled.
