/** The in-memory session cache (`CacheService`): a process-wide dictionary from session id to
    the session's chat history and the time it was saved, with a fixed expiry window.
    `datetime.now()` becomes the explicit parameter `now`, an instant in microseconds. */
module Cache {
  import opened Common

  /** `CACHE_EXPIRATION_MINUTES`. */
  const ExpirationMinutes: int := 60

  /** The expiry window in microseconds, the resolution of Python's `timedelta`. */
  const TtlMicros: int := ExpirationMinutes * 60 * 1000000

  /** One cached session: the `{'history': ..., 'timestamp': ...}` dictionary. */
  datatype Entry = Entry(history: seq<Message>, timestamp: int)

  type Sessions = map<string, Entry>

  /** `_is_expired`: strictly more than the window has passed since `timestamp`. */
  predicate IsExpired(timestamp: int, now: int)
  {
    now - timestamp > TtlMicros
  }

  /** The session is cached and has not expired. */
  predicate IsLive(m: Sessions, sessionId: string, now: int)
  {
    sessionId in m && !IsExpired(m[sessionId].timestamp, now)
  }

  /** The history `get_session_history` hands back. */
  function Lookup(m: Sessions, sessionId: string, now: int): seq<Message>
  {
    if IsLive(m, sessionId, now) then m[sessionId].history else []
  }

  /** The cache after `get_session_history`: an expired entry for the session is evicted. */
  function AfterLookup(m: Sessions, sessionId: string, now: int): Sessions
  {
    if sessionId in m && IsExpired(m[sessionId].timestamp, now) then m - {sessionId} else m
  }

  /** The ids `cleanup_expired_sessions` collects. */
  function ExpiredIds(m: Sessions, now: int): set<string>
  {
    set s | s in m && IsExpired(m[s].timestamp, now)
  }

  /** The cache after `cleanup_expired_sessions`: every unexpired entry, unchanged. */
  function Swept(m: Sessions, now: int): Sessions
  {
    map s | s in m && !IsExpired(m[s].timestamp, now) :: m[s]
  }

  /** Expiry is strict: at exactly the window an entry is still live, one microsecond later it
      is expired, and once expired it stays expired. */
  lemma ExpiryIsStrict(timestamp: int, now: int, later: int)
    ensures !IsExpired(timestamp, timestamp + TtlMicros)
    ensures IsExpired(timestamp, timestamp + TtlMicros + 1)
    ensures IsExpired(timestamp, now) && now <= later ==> IsExpired(timestamp, later)
  {
  }

  /** Saving then reading the same session returns exactly the saved history until the window
      has passed and nothing after; other sessions read as before. */
  lemma SaveThenLookup(m: Sessions, sessionId: string, h: seq<Message>, saved: int, now: int)
    ensures Lookup(m[sessionId := Entry(h, saved)], sessionId, now) ==
      (if now - saved <= TtlMicros then h else [])
    ensures forall other :: other != sessionId ==>
      Lookup(m[sessionId := Entry(h, saved)], other, now) == Lookup(m, other, now)
  {
  }

  /** A read of an absent session leaves the cache as it was; a read of an expired one removes
      that entry only; and no read at the same instant can tell the eviction happened. */
  lemma LookupEvictsOnlyExpired(m: Sessions, sessionId: string, now: int)
    ensures sessionId !in m ==> AfterLookup(m, sessionId, now) == m
    ensures AfterLookup(m, sessionId, now).Keys ==
      (if sessionId in m && IsExpired(m[sessionId].timestamp, now) then m.Keys - {sessionId} else m.Keys)
    ensures forall s :: s in AfterLookup(m, sessionId, now) ==> AfterLookup(m, sessionId, now)[s] == m[s]
    ensures forall s :: Lookup(AfterLookup(m, sessionId, now), s, now) == Lookup(m, s, now)
  {
  }

  /** The sweep splits the cache: what it keeps and what it counts add up to the old size, and
      every read at the same instant answers as before. */
  lemma PrefixGrows(ids: seq<string>, i: nat)
    requires i < |ids|
    ensures forall s :: s in ids[..i + 1] <==> s in ids[..i] || s == ids[i]
  {
    assert ids[..i + 1] == ids[..i] + [ids[i]];
  }

  /** Deleting exactly the expired sessions, and touching no other, leaves the swept map. */
  lemma RemainderIsSwept(m: Sessions, r: Sessions, expired: seq<string>, now: int)
    requires forall s :: s in expired <==> s in ExpiredIds(m, now)
    requires forall s :: s in r <==> s in m && s !in expired
    requires forall s :: s in r ==> r[s] == m[s]
    ensures r == Swept(m, now)
  {
    assert r.Keys == Swept(m, now).Keys;
  }

  lemma {:induction false} SweepPartitions(m: Sessions, now: int)
    ensures |Swept(m, now)| + |ExpiredIds(m, now)| == |m|
    ensures forall s :: s in Swept(m, now) ==> IsLive(Swept(m, now), s, now)
    ensures forall s :: Lookup(Swept(m, now), s, now) == Lookup(m, s, now)
  {
    var kept := Swept(m, now).Keys;
    var gone := ExpiredIds(m, now);
    assert kept == m.Keys - gone;
    assert gone <= m.Keys;
    assert |Swept(m, now)| == |kept|;
    SubsetCardinality(m.Keys, gone);
  }

  lemma {:induction false} SubsetCardinality(whole: set<string>, part: set<string>)
    requires part <= whole
    ensures |whole - part| + |part| == |whole|
  {
    assert (whole - part) + part == whole;
    assert (whole - part) * part == {};
  }

  /** Sweeping twice at instants in order is sweeping once at the later one. */
  lemma SweepComposes(m: Sessions, now: int, later: int)
    requires now <= later
    ensures Swept(Swept(m, now), later) == Swept(m, later)
  {
  }

  /** No id occurs twice in `ids`. */
  predicate Distinct(ids: seq<string>)
  {
    forall i, j :: 0 <= i < j < |ids| ==> ids[i] != ids[j]
  }

  lemma {:induction false} DistinctCount(ids: seq<string>, members: set<string>)
    requires Distinct(ids)
    requires forall s :: s in ids <==> s in members
    ensures |members| == |ids|
    decreases |ids|
  {
    if ids == [] {
      assert forall s :: s !in members;
    } else {
      var last := ids[|ids| - 1];
      var init := ids[..|ids| - 1];
      assert ids == init + [last];
      forall s ensures s in init <==> s in members - {last} {
        if s in init {
          var k :| 0 <= k < |init| && init[k] == s;
          assert ids[k] == s;
        }
      }
      DistinctCount(init, members - {last});
    }
  }

  /** `CacheService`: the class-level dictionary `_session_cache`. */
  class SessionCache {
    var entries: Sessions

    constructor()
      ensures entries == map[]
    {
      entries := map[];
    }

    /** `get_session_history`: the live history, or `[]` for a missing or expired session; an
        expired entry is removed on the way. */
    method GetSessionHistory(sessionId: string, now: int) returns (h: seq<Message>)
      modifies this
      ensures h == Lookup(old(entries), sessionId, now)
      ensures entries == AfterLookup(old(entries), sessionId, now)
    {
      if sessionId !in entries {
        return [];
      }
      var data := entries[sessionId];
      if IsExpired(data.timestamp, now) {
        var cleared := ClearSession(sessionId);
        return [];
      }
      return data.history;
    }

    /** `save_session_history`: overwrite the session's entry, stamped `now`. */
    method SaveSessionHistory(sessionId: string, history: seq<Message>, now: int)
      modifies this
      ensures entries == old(entries)[sessionId := Entry(history, now)]
    {
      entries := entries[sessionId := Entry(history, now)];
    }

    /** `clear_session`: remove the session; report whether it was there. */
    method ClearSession(sessionId: string) returns (cleared: bool)
      modifies this
      ensures cleared <==> sessionId in old(entries)
      ensures entries == old(entries) - {sessionId}
    {
      if sessionId in entries {
        entries := entries - {sessionId};
        return true;
      }
      return false;
    }

    /** `clear_all_sessions`: empty the cache; report how many entries it held. */
    method ClearAllSessions() returns (count: nat)
      modifies this
      ensures count == |old(entries)|
      ensures entries == map[]
    {
      count := |entries|;
      entries := map[];
    }

    /** `cleanup_expired_sessions`: collect the expired ids, then clear each of them; report
        how many were collected. */
    method CleanupExpiredSessions(now: int) returns (count: nat)
      modifies this
      ensures entries == Swept(old(entries), now)
      ensures count == |ExpiredIds(old(entries), now)|
      ensures count == |old(entries)| - |entries|
    {
      var expired: seq<string> := [];
      var pending := entries.Keys;
      while pending != {}
        invariant pending <= entries.Keys && entries == old(entries)
        invariant forall s :: s in expired <==> s in ExpiredIds(entries, now) && s !in pending
        invariant Distinct(expired)
        decreases |pending|
      {
        var s :| s in pending;
        if IsExpired(entries[s].timestamp, now) {
          expired := expired + [s];
        }
        pending := pending - {s};
      }
      DistinctCount(expired, ExpiredIds(old(entries), now));

      var i := 0;
      while i < |expired|
        invariant 0 <= i <= |expired|
        invariant forall s :: s in entries <==> s in old(entries) && s !in expired[..i]
        invariant forall s :: s in entries ==> entries[s] == old(entries)[s]
      {
        var cleared := ClearSession(expired[i]);
        PrefixGrows(expired, i);
        i := i + 1;
      }
      assert expired[..i] == expired;
      RemainderIsSwept(old(entries), entries, expired, now);
      count := |expired|;
      SweepPartitions(old(entries), now);
    }

    /** `get_session_count`: the number of entries, expired ones included. */
    method SessionCount() returns (n: nat)
      ensures n == |entries|
    {
      n := |entries|;
    }

    /** `session_exists`: the session is cached and unexpired; the cache is not touched. */
    method SessionExists(sessionId: string, now: int) returns (b: bool)
      ensures b <==> IsLive(entries, sessionId, now)
      ensures b ==> Lookup(entries, sessionId, now) == entries[sessionId].history
    {
      if sessionId !in entries {
        return false;
      }
      return !IsExpired(entries[sessionId].timestamp, now);
    }
  }
}
