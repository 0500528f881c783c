/** Users and the dual-indexed user repository (server/src/user.rs): a primary
    map from user id to user and a secondary map from credential id to user id,
    both written only by `save_user`. A user is a plain value: the repository
    hands out copies and takes them back whole. `Uuid::new_v4` is the
    parameter `id` of `User.Create`. */
module Users {
  import opened Wrappers

  /** A 128-bit user id. */
  type Uuid = x: nat | x < 0x1_0000_0000_0000_0000_0000_0000_0000_0000

  /** The credential id an authenticator assigns to a passkey. */
  type CredentialId = seq<bv8>

  /** The public key material and signature counter of a passkey, which only
      the WebAuthn engine looks into. */
  type KeyMaterial(==, !new)

  /** A verified credential, as the WebAuthn engine produces it. */
  datatype Passkey = Passkey(credId: CredentialId, key: KeyMaterial)

  /** `User::new` is this constructor; `get_passkey` is the field `passkey`. */
  datatype User = User(id: Uuid, email: string, passkey: Option<Passkey>)
  {
    /** A new user with the given freshly generated id and email, and no passkey. */
    static function Create(id: Uuid, email: string): (u: User)
      ensures u.id == id && u.email == email && u.passkey.None?
    {
      User(id, email, None)
    }

    /** This user with passkey `p`, whatever the passkey was before; id and
        email stay as they were. */
    function UpdatePasskey(p: Passkey): (u: User)
      ensures u.passkey == Some(p)
      ensures u.id == id && u.email == email
    {
      this.(passkey := Some(p))
    }
  }

  /** The two maps behind the repository's lock. */
  datatype UserRepositoryBody = UserRepositoryBody(users: map<Uuid, User>, passkeyIndex: map<CredentialId, Uuid>)
  {
    /** The repository's invariant: every indexed credential id names a stored
        user, and every user is stored under its own id. It does NOT say that
        every stored passkey is indexed under its owner (see LastSaverWins). */
    ghost predicate Consistent() {
      && (forall c :: c in passkeyIndex ==> passkeyIndex[c] in users)
      && (forall k :: k in users ==> users[k].id == k)
    }

    /** The stored user with id `id`, if any. */
    function FetchUser(id: Uuid): (r: Option<User>)
      ensures r.Some? <==> id in users
      ensures r.Some? ==> r.value == users[id] && (Consistent() ==> r.value.id == id)
    {
      if id in users then Some(users[id]) else None
    }

    /** The user the credential id `c` is indexed under: the index lookup,
        then the primary lookup. A dangling index entry reads as absent. */
    function FetchUserByPasskey(c: CredentialId): (r: Option<User>)
      ensures r.Some? <==> c in passkeyIndex && passkeyIndex[c] in users
      ensures r.Some? ==> r.value == users[passkeyIndex[c]]
      ensures Consistent() ==> (r.Some? <==> c in passkeyIndex)
    {
      if c in passkeyIndex then FetchUser(passkeyIndex[c]) else None
    }

    /** The body after `save_user(u)`: `u` is stored under its id, replacing any
        earlier user with that id, and if `u` has a passkey its credential id is
        (re)indexed under `u.id`, whoever it named before. Nothing is removed
        from either map. */
    function Saved(u: User): (b: UserRepositoryBody)
      ensures b.FetchUser(u.id) == Some(u)
      ensures forall id :: id != u.id ==> b.FetchUser(id) == FetchUser(id)
      ensures b.users.Keys == users.Keys + {u.id}
      ensures u.passkey.None? ==> b.passkeyIndex == passkeyIndex
      ensures u.passkey.Some? ==> b.passkeyIndex.Keys == passkeyIndex.Keys + {u.passkey.value.credId}
      ensures u.passkey.Some? ==> b.passkeyIndex[u.passkey.value.credId] == u.id
      ensures u.passkey.Some? ==> b.FetchUserByPasskey(u.passkey.value.credId) == Some(u)
      ensures forall c :: c in passkeyIndex && (u.passkey.None? || c != u.passkey.value.credId) ==>
                c in b.passkeyIndex && b.passkeyIndex[c] == passkeyIndex[c]
      ensures Consistent() ==> b.Consistent()
    {
      var index :=
        if u.passkey.Some? then (passkeyIndex - {u.passkey.value.credId})[u.passkey.value.credId := u.id]
        else passkeyIndex;
      UserRepositoryBody(users[u.id := u], index)
    }
  }

  /** The repository right after `UserRepository::new`. */
  function EmptyBody(): (b: UserRepositoryBody)
    ensures b.Consistent()
    ensures forall id :: b.FetchUser(id).None?
    ensures forall c :: b.FetchUserByPasskey(c).None?
  {
    UserRepositoryBody(map[], map[])
  }

  /** The body after saving `us` in order: a history of `save_user` calls. */
  function SaveAll(b: UserRepositoryBody, us: seq<User>): UserRepositoryBody
    decreases |us|
  {
    if us == [] then b else SaveAll(b.Saved(us[0]), us[1..])
  }

  /** Any history of saves from a consistent body keeps it consistent. */
  lemma {:induction false} SaveAllConsistent(b: UserRepositoryBody, us: seq<User>)
    requires b.Consistent()
    ensures SaveAll(b, us).Consistent()
    decreases |us|
  {
    if us != [] {
      SaveAllConsistent(b.Saved(us[0]), us[1..]);
    }
  }

  /** Nothing is ever removed: a user id or credential id present before a
      history of saves is still present after it. In particular a credential
      id, once indexed, keeps resolving to some user for ever, even after its
      owner re-registers with another passkey. */
  lemma {:induction false} SaveAllKeepsEntries(b: UserRepositoryBody, us: seq<User>)
    ensures b.users.Keys <= SaveAll(b, us).users.Keys
    ensures b.passkeyIndex.Keys <= SaveAll(b, us).passkeyIndex.Keys
    ensures b.Consistent() ==> forall c :: c in b.passkeyIndex ==> SaveAll(b, us).FetchUserByPasskey(c).Some?
    decreases |us|
  {
    if us != [] {
      SaveAllKeepsEntries(b.Saved(us[0]), us[1..]);
    }
    if b.Consistent() {
      SaveAllConsistent(b, us);
    }
  }

  /** A user id that no save in the history carries is looked up exactly as
      before the history; starting from the empty repository, it is absent. */
  lemma {:induction false} SaveAllOtherIds(b: UserRepositoryBody, us: seq<User>, id: Uuid)
    requires forall i :: 0 <= i < |us| ==> us[i].id != id
    ensures SaveAll(b, us).FetchUser(id) == b.FetchUser(id)
    decreases |us|
  {
    if us != [] {
      SaveAllOtherIds(b.Saved(us[0]), us[1..], id);
    }
  }

  /** A user saved with passkey `p1` and later saved again with passkey `p2`
      of another credential id: the old credential id still resolves, to the
      user as last saved (with `p2`). */
  lemma StaleCredentialStillResolves(b: UserRepositoryBody, u: User, p1: Passkey, p2: Passkey)
    requires p1.credId != p2.credId
    ensures var after := b.Saved(u.UpdatePasskey(p1)).Saved(u.UpdatePasskey(p2));
            && after.FetchUserByPasskey(p1.credId) == Some(u.UpdatePasskey(p2))
            && after.FetchUserByPasskey(p2.credId) == Some(u.UpdatePasskey(p2))
  {
  }

  /** Two users saved in turn with passkeys of one credential id: the last
      saver owns the index entry, while the first is still stored with a
      passkey whose credential id no longer resolves to it. */
  lemma LastSaverWins(b: UserRepositoryBody, u1: User, u2: User, c: CredentialId)
    requires u1.id != u2.id
    requires u1.passkey.Some? && u1.passkey.value.credId == c
    requires u2.passkey.Some? && u2.passkey.value.credId == c
    ensures var after := b.Saved(u1).Saved(u2);
            && after.FetchUserByPasskey(c) == Some(u2)
            && after.FetchUser(u1.id) == Some(u1)
  {
  }

  /** The repository object: one lock-protected body, changed only by SaveUser. */
  class UserRepository {
    var body: UserRepositoryBody

    ghost predicate Valid()
      reads this
    {
      body.Consistent()
    }

    constructor ()
      ensures Valid()
      ensures body == EmptyBody()
    {
      body := UserRepositoryBody(map[], map[]);
    }

    /** Upserts `user` by id, and indexes its passkey's credential id (if it
        has a passkey) under its id, removing and re-inserting that one index
        entry. */
    method SaveUser(user: User)
      requires Valid()
      modifies this
      ensures Valid()
      ensures body == old(body).Saved(user)
    {
      var users := body.users;
      var index := body.passkeyIndex;
      if user.passkey.Some? {
        var credId := user.passkey.value.credId;
        index := index - {credId};
        index := index[credId := user.id];
      }
      users := users[user.id := user];
      body := UserRepositoryBody(users, index);
    }

    /** A copy of the user stored under `id`, if any. */
    method FetchUser(id: Uuid) returns (r: Option<User>)
      ensures r == body.FetchUser(id)
    {
      if id in body.users {
        r := Some(body.users[id]);
      } else {
        r := None;
      }
    }

    /** A copy of the user the credential id `c` is indexed under, if any. */
    method FetchUserByPasskey(c: CredentialId) returns (r: Option<User>)
      ensures r == body.FetchUserByPasskey(c)
    {
      if c in body.passkeyIndex && body.passkeyIndex[c] in body.users {
        r := Some(body.users[body.passkeyIndex[c]]);
      } else {
        r := None;
      }
    }
  }
}
