/** The pending-state registry of the bot handshake: a store, keyed by the `state` string the
    browser chose, of when each state was registered and of the session token and profile the
    bot later attached to it. Entries live for at most ten minutes and are consumed on their
    first lookup. */
module PendingAuth {

  import opened Base
  import opened PyInt
  import Jwt

  /** `STATE_TTL_SECONDS`: ten minutes. */
  const StateTtlSeconds: int := 600

  /** One registered state: `created_at`, and the token and profile, None until the bot
      completes the login. */
  datatype Entry = Entry(createdAt: int, token: Option<string>, profile: Option<Jwt.TgClaim>)

  type Registry = map<string, Entry>

  /** An entry is still usable `now` while its age is at most the TTL. */
  predicate Fresh(e: Entry, now: int)
  {
    now - e.createdAt <= StateTtlSeconds
  }

  /** The registry after `_state_save(state)`: a blank entry registered now, overwriting any
      previous one, completed or not. */
  function Saved(m: Registry, state: string, now: int): (r: Registry)
    ensures r.Keys == m.Keys + {state}
    ensures r[state] == Entry(now, None, None)
    ensures forall k | k in m && k != state :: r[k] == m[k]
  {
    m[state := Entry(now, None, None)]
  }

  /** The registry after `_state_set_token(state, token, profile)`: nothing happens for an
      unknown state; otherwise only that entry's token and profile change. */
  function WithToken(m: Registry, state: string, token: string, profile: Jwt.TgClaim): (r: Registry)
    ensures r.Keys == m.Keys
    ensures forall k | k in m && k != state :: r[k] == m[k]
    ensures state in m ==> r[state] == Entry(m[state].createdAt, Some(token), Some(profile))
    ensures state !in m ==> r == m
  {
    if state in m then m[state := m[state].(token := Some(token), profile := Some(profile))] else m
  }

  /** The registry and the answer of `_state_get_and_consume(state)`: the state is gone
      afterwards whatever the outcome, no other entry changes, and its entry is handed out
      exactly when it was present and fresh. */
  function Consumed(m: Registry, state: string, now: int): (r: (Registry, Option<Entry>))
    ensures r.0.Keys == m.Keys - {state}
    ensures forall k | k in r.0 :: r.0[k] == m[k]
    ensures r.1.Some? <==> state in m && Fresh(m[state], now)
    ensures r.1.Some? ==> r.1.value == m[state]
  {
    if state !in m then (m, None)
    else if !Fresh(m[state], now) then (m - {state}, None)
    else (m - {state}, Some(m[state]))
  }

  /** The module-level `_state_store`. */
  class PendingAuthStore {

    var entries: Registry

    constructor ()
      ensures entries == map[]
    {
      entries := map[];
    }

    /** `_state_save`. */
    method Save(state: string, now: int)
      modifies this
      ensures entries == Saved(old(entries), state, now)
    {
      entries := entries[state := Entry(now, None, None)];
    }

    /** `_state_set_token`: the item, when there is one, gets the token and the profile. */
    method SetToken(state: string, token: string, profile: Jwt.TgClaim)
      modifies this
      ensures entries == WithToken(old(entries), state, token, profile)
    {
      if state !in entries {
        return;
      }
      var item := entries[state];
      item := item.(token := Some(token));
      item := item.(profile := Some(profile));
      entries := entries[state := item];
    }

    /** `_state_get_and_consume`: an expired item is dropped and refused; a fresh one is
        dropped and returned, so it can be used once. */
    method GetAndConsume(state: string, now: int) returns (item: Option<Entry>)
      modifies this
      ensures (entries, item) == Consumed(old(entries), state, now)
    {
      if state !in entries {
        return None;
      }
      var found := entries[state];
      if now - found.createdAt > StateTtlSeconds {
        entries := entries - {state};
        return None;
      }
      entries := entries - {state};
      return Some(found);
    }
  }

  /** The TTL is inclusive: an entry exactly 600 s old is still handed out, one a second older
      is refused, and both are removed. */
  lemma TtlBoundary(m: Registry, state: string, created: int)
    requires state in m && m[state].createdAt == created
    ensures Consumed(m, state, created + StateTtlSeconds).1 == Some(m[state])
    ensures Consumed(m, state, created + StateTtlSeconds + 1).1 == None
    ensures state !in Consumed(m, state, created + StateTtlSeconds).0
    ensures state !in Consumed(m, state, created + StateTtlSeconds + 1).0
  {
  }

  /** A state can be consumed only once: a second lookup finds nothing, whatever the time. */
  lemma ConsumeOnce(m: Registry, state: string, now: int, later: int)
    ensures Consumed(Consumed(m, state, now).0, state, later).1 == None
  {
  }

  /** Saving a state that the bot had already completed throws the attached token away. */
  lemma SaveDiscardsToken(m: Registry, state: string, token: string, profile: Jwt.TgClaim, now: int, later: int)
    ensures Saved(WithToken(m, state, token, profile), state, now)[state].token == None
    ensures Consumed(Saved(WithToken(m, state, token, profile), state, now), state, later).1.Some? ==>
              Consumed(Saved(WithToken(m, state, token, profile), state, now), state, later).1.value.token == None
  {
  }
}
