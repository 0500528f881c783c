# Passkey demo server: session store, user repository and ceremony handlers

This project models the core of a small relying-party server that registers
and authenticates users with passkeys (WebAuthn). It has three parts, and
each is one Dafny module:

- `SessionStore` (`session.dfy`) is the in-memory session store behind the
  server's cookie sessions. It maps a session key to the session's fields,
  and each entry has an expiry instant. Expiry is lazy: an expired entry
  stays in the map until it is overwritten or deleted, but every read treats
  it as absent. The operations are `load`, `save` (under a new random
  512-character alphanumeric key), `update` (an unconditional upsert),
  `update_ttl` (fails on a missing or expired entry) and `delete` (succeeds
  whether or not the entry exists).
- `Users` (`users.dfy`) holds users and the user repository. The repository
  has two maps: users by id, and a passkey index from credential id to user
  id. Only `save_user` writes them. A user is a plain value, and the
  repository hands out copies.
- `Handlers` (`handlers.dfy`) holds the HTTP handlers: user registration,
  logout, and the two-step registration and authentication ceremonies. Each
  start step stores the engine's ceremony state in the caller's session.
  Each finish step reads that state back.
- `Scenarios` (`scenarios.dfy`) chains handler calls. It proves, from the
  handlers' contracts alone, what a client sees across a ceremony and on a
  replayed finish.

The foreign pieces become parameters. The clock is `now`. The random
session-key sample and the new user id are inputs. Each call into the
WebAuthn engine is a function parameter of the handler that makes it, and
`fetch_user_by_email` is one too. A failing `unwrap()` is a panic of the
request. The model returns it as an `Err(Panic)` outcome, and every such
failure happens before the handler has changed any state.

The two stores are objects (`InMemorySessionStoreState`, `UserRepository`)
with fields that their methods reassign. Each method's contract gives the
whole new state, and the pure functions it refers to (`Lookup`,
`UserRepositoryBody.Saved`, `FetchUser`, `FetchUserByPasskey`) carry the
properties. The repository invariant `Consistent` has two parts. Every
indexed credential id names a stored user, and every user is stored under
its own id. `new` establishes it and `save_user` preserves it.

Some behaviours of the code that a client may not expect, each proved in
the model:

- Re-registering a passkey does not remove the old credential id from the
  index. `save_user` removes and re-inserts only the new credential id, so
  the old id still resolves to the user, who now holds the new passkey
  (`StaleCredentialStillResolves`, `SaveAllKeepsEntries`). Nothing is ever
  removed from either map.
- The index does not always map a stored passkey's credential id to its
  owner. When two users save passkeys with the same credential id, the
  last saver wins (`LastSaverWins`).
- When the engine rejects a registration response, the registration state
  stays in the session. The `unwrap()` panics before the state is removed,
  so the client may finish again against the same state. Only a successful
  finish consumes it (`ReplayRegistrationFinish`).
- A finished authentication never removes its state, not even on success,
  so a second finish in the same session reaches the engine again
  (`ReplayAuthenticationFinish`).
- When the verified credential is not indexed, authentication finish
  answers with an HTTP 404 (Not Found) and leaves the identity unchanged.

## Model

| member | source | states |
|---|---|---|
| `SessionStore.Expirable.Get` | server/src/session.rs:15-22 | the value is absent exactly when its expiry instant is strictly before `now`; it is still returned at the expiry instant |
| `SessionStore.Lookup` | server/src/session.rs:32-39 | a read yields the stored state iff the key has an entry whose expiry is not before `now`; a never-stored key and an expired one read the same |
| `SessionStore.ExpiryIsFinal` | server/src/session.rs:16-22 | with no write in between, a key that reads as absent at t1 reads as absent at every later t2, and a key live at t2 read the same at t1 |
| `SessionStore.InMemorySessionStoreState.constructor` | server/src/session.rs:28-30 | the store starts with no entries |
| `SessionStore.InMemorySessionStoreState.Get` | server/src/session.rs:32-39 | returns exactly the live state under the key, or absence |
| `SessionStore.InMemorySessionStoreState.Insert` | server/src/session.rs:41-51 | the key now holds the state with expiry `now + ttl`, replacing any earlier entry; a read at t yields it iff t <= now + ttl; every other key reads as before at every instant |
| `SessionStore.InMemorySessionStoreState.Delete` | server/src/session.rs:53-58 | only the key's entry is removed; the key reads as absent at every instant and every other key reads as before |
| `SessionStore.InMemorySessionStore.constructor` | server/src/session.rs:61-63 | every store handle works on the one shared state |
| `SessionStore.InMemorySessionStore.Load` | server/src/session.rs:67-69 | never fails; returns the live state under the key or absence |
| `SessionStore.InMemorySessionStore.Save` | server/src/session.rs:71-82 | when the key type accepts the 512-character alphanumeric sample, stores the state under it with expiry `now + ttl` and returns it, and with ttl >= 0 a load at the same instant returns the saved state; otherwise fails with the store unchanged |
| `SessionStore.InMemorySessionStore.Update` | server/src/session.rs:84-92 | unconditional upsert: the entry becomes (state, now + ttl) whether the old one was live, expired or missing, and the given key is returned |
| `SessionStore.InMemorySessionStore.UpdateTtl` | server/src/session.rs:94-104 | a missing or expired entry gives NotFound and leaves the store unchanged; a live one keeps its state exactly and only gets expiry `now + ttl` |
| `SessionStore.InMemorySessionStore.Delete` | server/src/session.rs:106-109 | always succeeds; afterwards the key reads as absent at every instant |
| `Users.User.Create` | server/src/user.rs:12-18 | the new user has the given id and email and no passkey |
| `Users.User.UpdatePasskey` | server/src/user.rs:24-26 | the passkey becomes `Some(p)` whatever it was; id and email are unchanged |
| `Users.UserRepositoryBody.FetchUser` | server/src/user.rs:55-57 | returns the user stored under the id, and nothing for an id not stored; under the invariant the returned user carries that id |
| `Users.UserRepositoryBody.FetchUserByPasskey` | server/src/user.rs:59-66 | returns the user the credential id is indexed under when that user is stored; under the invariant it returns a user exactly when the credential id is indexed |
| `Users.UserRepositoryBody.Saved` | server/src/user.rs:44-53 | upsert by id: the saved user is fetched back exactly and every other id reads as before; a passkey's credential id is indexed under the user (last saver wins) and resolves to the user; every other index entry is unchanged; a passkey-less save leaves the index untouched; nothing is removed; the invariant is preserved |
| `Users.EmptyBody` | server/src/user.rs:37-42 | the empty repository satisfies the invariant and resolves no id and no credential id |
| `Users.SaveAllConsistent` | server/src/user.rs:44-53 | any sequence of saves from a consistent repository leaves it consistent |
| `Users.SaveAllKeepsEntries` | server/src/user.rs:44-53 | a sequence of saves never removes a user id or credential id, so an indexed credential id keeps resolving to some user for ever |
| `Users.SaveAllOtherIds` | server/src/user.rs:55-57 | an id that no save in a sequence carries is looked up exactly as before; from the empty repository it is never found |
| `Users.StaleCredentialStillResolves` | server/src/user.rs:46-51 | after a user re-saves with a passkey of a different credential id, the old credential id still resolves to that user, as does the new one |
| `Users.LastSaverWins` | server/src/user.rs:46-51 | when two users save passkeys with one credential id, it resolves to the later one, while the earlier user stays stored with a passkey whose credential id no longer resolves to it |
| `Users.UserRepository.constructor` | server/src/user.rs:37-42 | the repository starts empty and satisfies the invariant |
| `Users.UserRepository.SaveUser` | server/src/user.rs:44-53 | the body becomes `Saved(user)` of the old body, and the invariant is kept |
| `Users.UserRepository.FetchUser` | server/src/user.rs:55-57 | returns exactly the lookup of the current body |
| `Users.UserRepository.FetchUserByPasskey` | server/src/user.rs:59-66 | returns exactly the index-then-primary lookup of the current body |
| `Handlers.Application.constructor` | server/src/handlers.rs:23-26 | the application owns a fresh, empty, consistent repository |
| `Handlers.ExcludeCredentials` | server/src/handlers.rs:63-65 | the exclusion list is none iff the user has no passkey, and exactly `[cred_id]` of the stored passkey otherwise |
| `Handlers.AllowCredentials` | server/src/handlers.rs:119 | the allow list has at most one element: empty iff the user has no passkey, otherwise exactly that passkey |
| `Handlers.RegistrationStateIn` | server/src/handlers.rs:86 | reading the registration field fails as "not started" when it is absent or "unreadable" when it holds the other kind; otherwise it yields the stored state |
| `Handlers.AuthenticationStateIn` | server/src/handlers.rs:140-143 | the same for the authentication field |
| `Handlers.RegisterUser` | server/src/handlers.rs:39-52 | saves a new passkey-less user with the new id and email, which is then fetched back, and logs the caller in as that id |
| `Handlers.StartPasskeyRegistration` | server/src/handlers.rs:54-74 | fails with the session unchanged when there is no identity, no stored user or an engine error; otherwise calls the engine with the user's id, email and exclusion list and stores its state under the registration field, replacing any earlier one (last start wins) |
| `Handlers.FinishPasskeyRegistration` | server/src/handlers.rs:76-99 | every failure (no identity, unknown user, no or unreadable state, engine rejection) leaves the session and repository unchanged, so the state survives a rejected response; on success the user gets the engine's passkey and is saved, the new credential id resolves to the user, and then the registration field is removed |
| `Handlers.Logout` | server/src/handlers.rs:101-106 | a caller who is not logged in is refused with the identity unchanged; a logged-in caller is answered OK and is no longer logged in |
| `Handlers.StartPasskeyAuthentication` | server/src/handlers.rs:108-131 | fails with the session unchanged when the email lookup finds nobody or the engine fails; otherwise calls the engine with the user's allow list and stores its state under the authentication field |
| `Handlers.FinishPasskeyAuthentication` | server/src/handlers.rs:133-159 | never changes the session; logs in as the user and answers OK exactly when the verified credential id resolves, then the identity is a stored user; answers Not Found otherwise, with the identity unchanged, as on every failure |
| `Scenarios.RegisterAndEnrol` | server/src/handlers.rs:45-96 | register, start and finish: the start sends no exclusion list, and when all succeed the engine's passkey resolves to the new user and the registration state is gone |
| `Scenarios.ReplayRegistrationFinish` | server/src/handlers.rs:86-96 | a second registration finish after a successful one fails as "not started"; after an engine rejection the state is still there for the second |
| `Scenarios.ReplayAuthenticationFinish` | server/src/handlers.rs:140-158 | a second authentication finish reads the same state and, given the same engine verdict, gives the same answer as the first |

## Left out

- Concurrency. Both stores sit behind an `RwLock` in a shared static. Each store operation is modelled as one atomic step, and requests run one after another.
- The clock. `Instant::now()` is the parameter `now`. Time is an unbounded integer, so the overflow panic of `Instant + Duration` is not modelled.
- SessionStore.InMemorySessionStore.UpdateTtl: the Rust code reads the clock twice, once to read the entry and once to re-insert it. The model uses one instant for both.
- Randomness. The session-key sample and `Uuid::new_v4` are inputs. The model does not prove keys or ids unique, because the code does not check it. A colliding save replaces the earlier entry or user.
- `SessionKey::try_from` belongs to the session library. It is the parameter `acceptsKey`, and a refused key gives the `InvalidSessionKey` error.
- The session middleware. It loads a request's session fields from the store and writes them back through `save` or `update`. This model keeps the two apart. The handlers work on a `Session` object of typed fields, and JSON serialisation of ceremony states is not modelled. A field holding the other ceremony's state stands in for a deserialisation failure. The insert of a serialisable value is taken to succeed.
- Identity transport. The identity is an `Option<Uuid>`, and `Identity::login` is taken to succeed. Rejection by the identity extractor and an unparsable stored id are both the `NoIdentity` panic. Logout forgets the identity of a logged-in caller. Whatever else the identity library does to the session on logout is not part of this model.
- The WebAuthn engine (`webauthn_rs`). Challenge construction and attestation and assertion checking are opaque function parameters. Engine configuration in `Application::new` (relying-party id, origin, name) is left out.
- `fetch_user_by_email` is not part of this model. It is called at server/src/handlers.rs:114-117 but not defined in the repository code, so it is an arbitrary function of the repository and the email, with no properties assumed.
- `main.rs` (server wiring and TLS files), the command-line client `cli/main.ts` and the wasm client `client/src/lib.rs` are I/O and library glue.
