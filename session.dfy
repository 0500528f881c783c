/** The in-memory session store behind the server's cookie sessions
    (server/src/session.rs): a map from session key to a session state that
    carries an absolute expiry instant. Entries expire lazily: an expired entry
    stays in the map until it is overwritten or deleted, but reads as absent.

    The clock is the explicit parameter `now`; the random key generator is the
    parameter `sample`. The process-wide `Lazy` static is an explicitly shared
    `InMemorySessionStoreState` object, and each store operation is one atomic
    step on it. */
module SessionStore {
  import opened Wrappers

  /** A point in time and a signed time span, in one common unit. */
  type Instant = int
  type Duration = int

  /** One session's fields, each a serialised value. */
  type SessionState = map<string, string>

  type SessionKey = string

  /** Number of characters in a generated session key. */
  const KeyLength := 512

  datatype StoreError =
    | InvalidSessionKey  // the key source produced a string the key type refuses
    | NotFound           // no live entry under the key

  predicate IsAlphanumeric(c: char) {
    ('0' <= c <= '9') || ('A' <= c <= 'Z') || ('a' <= c <= 'z')
  }

  /** What the random key source promises of a sample: 512 characters from [0-9A-Za-z]. */
  predicate IsKeySample(s: string) {
    |s| == KeyLength && forall i :: 0 <= i < |s| ==> IsAlphanumeric(s[i])
  }

  /** A value together with the last instant at which it may still be read. */
  datatype Expirable<T> = Expirable(value: T, expire: Instant)
  {
    /** The value while it is live. It is absent exactly when the expiry instant
        lies strictly before `now`, so it is still returned at that instant. */
    function Get(now: Instant): (r: Option<T>)
      ensures r.None? <==> expire < now
      ensures r.Some? ==> r.value == value
    {
      if expire < now then None else Some(value)
    }
  }

  /** What a read of `key` from `entries` at time `now` yields: the stored state
      when there is an entry that has not expired, absence otherwise. A key that
      was never stored and one whose entry expired read the same. */
  function Lookup(entries: map<SessionKey, Expirable<SessionState>>, key: SessionKey, now: Instant): (r: Option<SessionState>)
    ensures r.Some? <==> key in entries && now <= entries[key].expire
    ensures r.Some? ==> r.value == entries[key].value
  {
    if key in entries then entries[key].Get(now) else None
  }

  /** Once a read of a key yields absence it keeps doing so as time passes, as
      long as nothing is written under that key; before that, every read
      returns the same state. */
  lemma ExpiryIsFinal(entries: map<SessionKey, Expirable<SessionState>>, key: SessionKey, t1: Instant, t2: Instant)
    requires t1 <= t2
    ensures Lookup(entries, key, t1).None? ==> Lookup(entries, key, t2).None?
    ensures Lookup(entries, key, t2).Some? ==> Lookup(entries, key, t1) == Lookup(entries, key, t2)
  {
  }

  /** The map of entries shared by every request (`InMemorySessionStoreState`). */
  class InMemorySessionStoreState {
    var entries: map<SessionKey, Expirable<SessionState>>

    constructor ()
      ensures entries == map[]
    {
      entries := map[];
    }

    /** Reads the live state stored under `key`, if any. */
    method Get(key: SessionKey, now: Instant) returns (r: Option<SessionState>)
      ensures r == Lookup(entries, key, now)
    {
      if key in entries {
        r := entries[key].Get(now);
      } else {
        r := None;
      }
    }

    /** Stores `sessionState` under `key`, expiring `ttl` after `now`, replacing
        whatever entry was there, live or expired; other keys are untouched. */
    method Insert(key: SessionKey, sessionState: SessionState, ttl: Duration, now: Instant)
      modifies this
      ensures entries == old(entries)[key := Expirable(sessionState, now + ttl)]
      ensures forall t :: Lookup(entries, key, t) == (if t <= now + ttl then Some(sessionState) else None)
      ensures forall k, t :: k != key ==> Lookup(entries, k, t) == Lookup(old(entries), k, t)
    {
      var expire := now + ttl;
      entries := entries[key := Expirable(sessionState, expire)];
    }

    /** Removes the entry under `key`, if there is one; other keys are untouched. */
    method Delete(key: SessionKey)
      modifies this
      ensures entries == old(entries) - {key}
      ensures forall t :: Lookup(entries, key, t).None?
      ensures forall k, t :: k != key ==> Lookup(entries, k, t) == Lookup(old(entries), k, t)
    {
      entries := entries - {key};
    }
  }

  /** The store the session middleware talks to (`InMemorySessionStore`); every
      operation works on the one shared `state`. */
  class InMemorySessionStore {
    const state: InMemorySessionStoreState

    constructor (shared: InMemorySessionStoreState)
      ensures state == shared
    {
      state := shared;
    }

    /** Never fails: yields the live state under `key` or absence. */
    method Load(key: SessionKey, now: Instant) returns (r: Result<Option<SessionState>, StoreError>)
      ensures r.Ok?
      ensures r.value == Lookup(state.entries, key, now)
    {
      var s := state.Get(key, now);
      r := Ok(s);
    }

    /** Stores `sessionState` under the new key `sample`, drawn from the random
        key source, when the key type accepts it; the store is unchanged
        otherwise. Whether the sample collides with a key in use is not checked. */
    method Save(sessionState: SessionState, ttl: Duration, now: Instant, sample: string, acceptsKey: string -> bool)
      returns (r: Result<SessionKey, StoreError>)
      requires IsKeySample(sample)
      modifies state
      ensures r.Ok? <==> acceptsKey(sample)
      ensures r.Err? ==> r.error == InvalidSessionKey && state.entries == old(state.entries)
      ensures r.Ok? ==> r.value == sample && IsKeySample(r.value)
      ensures r.Ok? ==> state.entries == old(state.entries)[sample := Expirable(sessionState, now + ttl)]
      ensures r.Ok? && 0 <= ttl ==> Lookup(state.entries, r.value, now) == Some(sessionState)
    {
      if !acceptsKey(sample) {
        return Err(InvalidSessionKey);
      }
      var key := sample;
      state.Insert(key, sessionState, ttl, now);
      r := Ok(key);
    }

    /** Upserts: stores `sessionState` under `key` with a fresh expiry whether
        the old entry was live, expired or missing, and hands the key back. */
    method Update(key: SessionKey, sessionState: SessionState, ttl: Duration, now: Instant)
      returns (r: Result<SessionKey, StoreError>)
      modifies state
      ensures r == Ok(key)
      ensures state.entries == old(state.entries)[key := Expirable(sessionState, now + ttl)]
      ensures forall t :: Lookup(state.entries, key, t) == (if t <= now + ttl then Some(sessionState) else None)
    {
      state.Insert(key, sessionState, ttl, now);
      r := Ok(key);
    }

    /** Extends the life of a live entry: re-stores the state it reads with
        expiry `now + ttl`. A missing or expired entry is an error and leaves
        the store as it was. */
    method UpdateTtl(key: SessionKey, ttl: Duration, now: Instant) returns (r: Result<(), StoreError>)
      modifies state
      ensures Lookup(old(state.entries), key, now).None? ==> r == Err(NotFound) && state.entries == old(state.entries)
      ensures Lookup(old(state.entries), key, now).Some? ==>
                && r == Ok(())
                && state.entries == old(state.entries)[key := Expirable(old(state.entries)[key].value, now + ttl)]
    {
      var current := state.Get(key, now);
      if current.None? {
        return Err(NotFound);
      }
      state.Insert(key, current.value, ttl, now);
      r := Ok(());
    }

    /** Removes the entry under `key`; succeeds whether or not there was one. */
    method Delete(key: SessionKey) returns (r: Result<(), StoreError>)
      modifies state
      ensures r == Ok(())
      ensures state.entries == old(state.entries) - {key}
      ensures forall t :: Lookup(state.entries, key, t).None?
    {
      state.Delete(key);
      r := Ok(());
    }
  }
}
