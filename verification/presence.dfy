/** Presence over a key-value cache with expiry (apps/chat/presence.py).

    A user is present while the cache holds an unexpired value under
    `user_presence:<id>`. The cache itself is the `Cache` class below; the
    functions `Get`, `Put` and `Delete` say what a read, a timed write and a
    removal do to its map of entries, and the consumers reuse them for the
    presence writes they make directly. */
module Presence {
  import opened Common

  /** A value the cache can hold. `NoneValue` is a stored Python `None`,
      which a read cannot tell apart from a missing key. */
  datatype Value = NoneValue | Flag(b: bool) | Text(s: string) | Number(n: int)

  /** A stored value and the instant (in seconds) from which it reads as missing. */
  datatype Entry = Entry(value: Value, expiresAt: int)

  type Entries = map<string, Entry>

  /** `cache.get(key)` at time `now`: the stored value, or `None` once it has expired. */
  function Get(entries: Entries, key: string, now: int): Option<Value> {
    if key in entries && now < entries[key].expiresAt then Some(entries[key].value) else None
  }

  /** `cache.set(key, v, ttl)` at time `now`. */
  function Put(entries: Entries, key: string, v: Value, ttl: nat, now: int): Entries {
    entries[key := Entry(v, now + ttl)]
  }

  /** `cache.delete(key)`; deleting a missing key leaves the cache as it is. */
  function Delete(entries: Entries, key: string): Entries {
    entries - {key}
  }

  /** `cache.set(f'user_presence:{id}', True, PRESENCE_EXPIRY)`. */
  function MarkOnline(entries: Entries, id: UserId, now: int): Entries {
    Put(entries, PresenceKey(id), Flag(true), PRESENCE_EXPIRY, now)
  }

  /** `cache.delete(f'user_presence:{id}')`. */
  function MarkOffline(entries: Entries, id: UserId): Entries {
    Delete(entries, PresenceKey(id))
  }

  /** The loose test `cache.get(key) is not None` used for single users. */
  predicate OnlineIn(entries: Entries, id: UserId, now: int) {
    var v := Get(entries, PresenceKey(id), now);
    v.Some? && v.value != NoneValue
  }

  /** The strict test `values[key] is True` used for bulk lookups. */
  predicate StrictlyOnlineIn(entries: Entries, id: UserId, now: int) {
    Get(entries, PresenceKey(id), now) == Some(Flag(true))
  }

  /** After marking a user online at `now`, the user reads as online (in both
      senses) exactly until `now + PRESENCE_EXPIRY`, and no other user's
      presence changes. */
  lemma MarkOnlineWindow(entries: Entries, id: UserId, now: int, t: int, other: UserId)
    ensures StrictlyOnlineIn(MarkOnline(entries, id, now), id, t) <==> t < now + PRESENCE_EXPIRY
    ensures OnlineIn(MarkOnline(entries, id, now), id, t) <==> t < now + PRESENCE_EXPIRY
    ensures other != id ==>
      Get(MarkOnline(entries, id, now), PresenceKey(other), t) == Get(entries, PresenceKey(other), t)
  {
    PresenceKeyInjective(id, other);
  }

  /** After marking a user offline, the user reads as offline at every time,
      marking offline again changes nothing, and other users are untouched. */
  lemma MarkOfflineClears(entries: Entries, id: UserId, t: int, other: UserId)
    ensures !OnlineIn(MarkOffline(entries, id), id, t)
    ensures MarkOffline(MarkOffline(entries, id), id) == MarkOffline(entries, id)
    ensures other != id ==>
      Get(MarkOffline(entries, id), PresenceKey(other), t) == Get(entries, PresenceKey(other), t)
  {
    PresenceKeyInjective(id, other);
  }

  /** A refresh overwrites the previous expiry: the last write decides the window. */
  lemma RefreshResetsTtl(entries: Entries, id: UserId, t1: int, t2: int)
    ensures MarkOnline(MarkOnline(entries, id, t1), id, t2) == MarkOnline(entries, id, t2)
  {
  }

  /** The strict bulk test implies the loose single-user test. */
  lemma StrictImpliesOnline(entries: Entries, id: UserId, now: int)
    ensures StrictlyOnlineIn(entries, id, now) ==> OnlineIn(entries, id, now)
  {
  }

  /** The Django cache behind presence. `reachable` is false while the cache
      backend fails: every call then raises, and the helpers below catch that. */
  class Cache {
    var entries: Entries
    var reachable: bool

    constructor (initial: Entries, up: bool)
      ensures entries == initial && reachable == up
    {
      entries := initial;
      reachable := up;
    }

    /** `set_user_online`: true and the key is written with the presence
        expiry, or false and nothing changes when the cache raises. */
    method SetUserOnline(id: UserId, now: int) returns (ok: bool)
      modifies this
      ensures reachable == old(reachable) && ok == reachable
      ensures entries == if ok then MarkOnline(old(entries), id, now) else old(entries)
      ensures ok ==> forall t :: now <= t < now + PRESENCE_EXPIRY ==> IsUserOnline(id, t)
    {
      if !reachable {
        return false;
      }
      entries := Put(entries, PresenceKey(id), Flag(true), PRESENCE_EXPIRY, now);
      ok := true;
    }

    /** `set_user_offline`: the key is removed (a missing key is no error)
        and true is returned, or false when the cache raises. */
    method SetUserOffline(id: UserId) returns (ok: bool)
      modifies this
      ensures reachable == old(reachable) && ok == reachable
      ensures entries == if ok then MarkOffline(old(entries), id) else old(entries)
      ensures ok ==> forall t :: !IsUserOnline(id, t)
    {
      if !reachable {
        return false;
      }
      entries := Delete(entries, PresenceKey(id));
      ok := true;
    }

    /** `is_user_online`: present with a non-None value; false when the cache raises. */
    function IsUserOnline(id: UserId, now: int): (r: bool)
      reads this
      ensures r <==> reachable && PresenceKey(id) in entries && now < entries[PresenceKey(id)].expiresAt &&
                     entries[PresenceKey(id)].value != NoneValue
      ensures r <==> reachable && OnlineIn(entries, id, now)
    {
      reachable && OnlineIn(entries, id, now)
    }

    /** `refresh_user_presence`: exactly the effect and result of `set_user_online`,
        which resets the expiry. */
    method RefreshUserPresence(id: UserId, now: int) returns (ok: bool)
      modifies this
      ensures reachable == old(reachable) && ok == reachable
      ensures entries == if ok then MarkOnline(old(entries), id, now) else old(entries)
    {
      ok := SetUserOnline(id, now);
    }

    /** `get_online_users`: one entry per requested id, true exactly when the
        stored value is `True`; every id maps to false when the cache raises. */
    method GetOnlineUsers(ids: seq<UserId>, now: int) returns (status: map<UserId, bool>)
      ensures status.Keys == set i | 0 <= i < |ids| :: ids[i]
      ensures forall id :: id in status ==>
        (status[id] <==> reachable && StrictlyOnlineIn(entries, id, now))
    {
      status := map[];
      if !reachable {
        for k := 0 to |ids|
          invariant status.Keys == set i | 0 <= i < k :: ids[i]
          invariant forall id :: id in status ==> !status[id]
        {
          status := status[ids[k] := false];
        }
        return;
      }
      var values := map key | key in (set i | 0 <= i < |ids| :: PresenceKey(ids[i]))
                              && Get(entries, key, now).Some? :: Get(entries, key, now).value;
      for k := 0 to |ids|
        invariant status.Keys == set i | 0 <= i < k :: ids[i]
        invariant forall id :: id in status ==> (status[id] <==> StrictlyOnlineIn(entries, id, now))
      {
        var key := PresenceKey(ids[k]);
        status := status[ids[k] := key in values && values[key] == Flag(true)];
      }
    }
  }
}
