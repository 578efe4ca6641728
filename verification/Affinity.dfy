/** Dialog affinity of the SIP edge: a cache per edge over a Redis that all edges share, with two keys a
    dialog. Times are seconds of one clock. */
module Affinity {
  import opened Options

  /** What the registry reads of a SIP request; an absent header or tag is the empty string. */
  datatype SipRequest = SipRequest(callID: string, fromTag: string, toTag: string)

  datatype Entry = Entry(callID: string, destination: string, fromTag: string, toTag: string, epoch: int, expiresAt: int)

  const NO_ENTRY := Entry("", "", "", "", 0, 0)

  /** A Redis value with the time its TTL runs out. */
  datatype Stored = Stored(entry: Entry, dropAt: int)

  const TWO_HOURS := 7200
  const PREFIX := "sip-dialog:"

  // ---- Keys ----

  function BaseKey(callID: string): string { PREFIX + callID }

  /** What the tag-qualified key puts after the prefix. */
  function Suffix(req: SipRequest): string { req.callID + ":" + req.fromTag + ":" + req.toTag }

  function DialogKey(req: SipRequest): string { if req.callID == "" then "" else PREFIX + Suffix(req) }

  /** Tags are tokens (section 25.1 of RFC 3261), which have no colon. */
  predicate ColonFree(text: string) { ':' !in text }

  predicate TagsOk(req: SipRequest) { ColonFree(req.fromTag) && ColonFree(req.toTag) }

  lemma ColonInside(a: string, x: string, b: string, y: string)
    requires a + ":" + x == b + ":" + y && |a| < |b|
    ensures !ColonFree(x)
  {
    assert (a + ":" + x)[|b|] == (b + ":" + y)[|b|] == ':';
    assert x[|b| - |a| - 1] == ':';
  }

  lemma LastColon(a: string, x: string, b: string, y: string)
    requires ColonFree(x) && ColonFree(y) && a + ":" + x == b + ":" + y
    ensures a == b && x == y
  {
    if |a| < |b| {
      ColonInside(a, x, b, y);
    } else if |b| < |a| {
      ColonInside(b, y, a, x);
    } else {
      var whole := a + ":" + x;
      assert whole[..|a|] == a && whole[..|a|] == (b + ":" + y)[..|b|] == b;
      assert whole[|a| + 1..] == x && whole[|a| + 1..] == (b + ":" + y)[|b| + 1..] == y;
    }
  }

  /** A tag-qualified key names its dialog. */
  lemma SuffixNames(r: SipRequest, q: SipRequest)
    requires TagsOk(r) && TagsOk(q) && Suffix(r) == Suffix(q)
    ensures r == q
  {
    LastColon(r.callID + ":" + r.fromTag, r.toTag, q.callID + ":" + q.fromTag, q.toTag);
    LastColon(r.callID, r.fromTag, q.callID, q.fromTag);
  }

  lemma SamePrefix(a: string, b: string)
    requires PREFIX + a == PREFIX + b
    ensures a == b
  {
    assert (PREFIX + a)[|PREFIX|..] == a && (PREFIX + b)[|PREFIX|..] == b;
  }

  // ---- The single statements ----

  function NewEntry(req: SipRequest, destination: string, epoch: int, now: int): Entry {
    Entry(req.callID, destination, req.fromTag, req.toTag, epoch, now + TWO_HOURS)
  }

  /** The request an entry was bound with. */
  function BoundFor(entry: Entry): SipRequest { SipRequest(entry.callID, entry.fromTag, entry.toTag) }

  /** The cache's answer: an entry counts before its time is up. */
  function Cached(cache: map<string, Entry>, callID: string, now: int): Option<Entry> {
    if callID in cache && now < cache[callID].expiresAt then Some(cache[callID]) else None
  }

  /** GET; a key whose TTL ran out is gone. */
  function Get(redis: map<string, Stored>, key: string, now: int): Option<Entry> {
    if key in redis && now < redis[key].dropAt then Some(redis[key].entry) else None
  }

  /** The transaction of `bind`: the base key and, for a Call-ID, the tag-qualified one. */
  function Put(redis: map<string, Stored>, entry: Entry, now: int): map<string, Stored> {
    var stored := Stored(entry, now + TWO_HOURS);
    var base := redis[BaseKey(entry.callID) := stored];
    if entry.callID == "" then base else base[DialogKey(BoundFor(entry)) := stored]
  }

  function Delete(redis: map<string, Stored>, key: string): map<string, Stored> { redis - {key} }

  /** JSON decoding into the variable that holds the stale cache entry: the fields that JSON leaves out when
      empty keep their stale value. */
  function Decode(raw: Entry, stale: Entry): Entry {
    raw.(fromTag := if raw.fromTag == "" then stale.fromTag else raw.fromTag,
         toTag := if raw.toTag == "" then stale.toTag else raw.toTag,
         epoch := if raw.epoch == 0 then stale.epoch else raw.epoch)
  }

  function Stale(cache: map<string, Entry>, callID: string): Entry { if callID in cache then cache[callID] else NO_ENTRY }

  /** A decoded entry is refused only after its time. */
  predicate Expired(entry: Entry, now: int) { entry.expiresAt < now }

  // ---- The registry's operations, each on its own; `up` says that Redis answers ----

  function Fetched(redis: map<string, Stored>, req: SipRequest, now: int, up: bool): Option<Entry> {
    var qualified := if up && DialogKey(req) != "" then Get(redis, DialogKey(req), now) else None;
    if qualified.Some? then qualified else if up then Get(redis, BaseKey(req.callID), now) else None
  }

  function Destination(cache: map<string, Entry>, redis: map<string, Stored>, req: SipRequest, now: int, up: bool): string {
    if Cached(cache, req.callID, now).Some? then cache[req.callID].destination
    else
      var raw := Fetched(redis, req, now, up);
      if raw.None? || Expired(raw.value, now) then "" else raw.value.destination
  }

  function CacheAfter(cache: map<string, Entry>, redis: map<string, Stored>, req: SipRequest, now: int, up: bool): map<string, Entry> {
    if Cached(cache, req.callID, now).Some? then cache
    else
      var raw := Fetched(redis, req, now, up);
      if raw.None? || Expired(raw.value, now) then cache
      else cache[req.callID := Decode(raw.value, Stale(cache, req.callID))]
  }

  // ---- What they mean, key by key ----

  /** The key holds an entry whose time to live has not run out. */
  predicate Holds(redis: map<string, Stored>, key: string, now: int) { key in redis && now < redis[key].dropAt }

  /** The answer and the cache after a lookup that read the entry: refused after its time, else kept and answered. */
  predicate TakenFrom(entry: Entry, cache: map<string, Entry>, after: map<string, Entry>, callID: string, now: int, destination: string) {
    if entry.expiresAt < now then destination == "" && after == cache
    else
      && destination == entry.destination && callID in after && after == cache[callID := after[callID]]
      && after[callID].destination == entry.destination && after[callID].expiresAt == entry.expiresAt && after[callID].callID == entry.callID
  }

  /** A lookup answers from the cache before the entry's time is up; else from the tag-qualified key, of a request with a
      Call-ID, and where that holds nothing from the Call-ID's own key; else empty. */
  lemma LookupMeans(cache: map<string, Entry>, redis: map<string, Stored>, req: SipRequest, now: int, up: bool)
    ensures var base := "sip-dialog:" + req.callID;
      var qualified := "sip-dialog:" + (req.callID + ":" + req.fromTag + ":" + req.toTag);
      var destination, after := Destination(cache, redis, req, now, up), CacheAfter(cache, redis, req, now, up);
      if req.callID in cache && now < cache[req.callID].expiresAt then destination == cache[req.callID].destination && after == cache
      else if up && req.callID != "" && Holds(redis, qualified, now) then TakenFrom(redis[qualified].entry, cache, after, req.callID, now, destination)
      else if up && Holds(redis, base, now) then TakenFrom(redis[base].entry, cache, after, req.callID, now, destination)
      else destination == "" && after == cache
  {
  }

  /** A bind writes its entry, good for two hours, under both keys, or under the one where there is no Call-ID. */
  lemma PutMeans(redis: map<string, Stored>, req: SipRequest, destination: string, epoch: int, now: int)
    ensures var entry := Entry(req.callID, destination, req.fromTag, req.toTag, epoch, now + 7200);
      && NewEntry(req, destination, epoch, now) == entry
      && Put(redis, entry, now)
         == if req.callID == "" then redis["sip-dialog:" := Stored(entry, now + 7200)]
            else redis["sip-dialog:" + req.callID := Stored(entry, now + 7200)]
                      ["sip-dialog:" + (req.callID + ":" + req.fromTag + ":" + req.toTag) := Stored(entry, now + 7200)]
  {
    assert "sip-dialog:" + "" == "sip-dialog:";
  }

  /** The Redis that every edge writes to. */
  class Store {
    var keys: map<string, Stored>

    constructor ()
      ensures keys == map[]
    {
      keys := map[];
    }
  }

  datatype Reply = Forwarded(destination: string) | Refused(code: int)

  /** No destination means that there is no such dialog (section 12.2.2 of RFC 3261). */
  function Answered(destination: string): Reply { if destination == "" then Refused(481) else Forwarded(destination) }

  datatype Method = Ack | Bye | Cancel | Update | Info

  /** One edge process. */
  class Registry {
    var affinity: map<string, Entry>
    const store: Store

    constructor (store: Store)
      ensures affinity == map[] && this.store == store
    {
      affinity := map[];
      this.store := store;
    }

    method Bind(req: SipRequest, destination: string, epoch: int, now: int, up: bool) returns (ok: bool)
      modifies this, store
      ensures ok == up
      ensures affinity == old(affinity)[req.callID := NewEntry(req, destination, epoch, now)]
      ensures store.keys == if up then Put(old(store.keys), NewEntry(req, destination, epoch, now), now) else old(store.keys)
      // for two hours this edge finds the destination, and where Redis took it so does an edge with an empty cache
      ensures forall later: int, again: bool | later < now + TWO_HOURS ::
        Destination(affinity, store.keys, req, later, again) == destination
      ensures up ==> forall later: int | later < now + TWO_HOURS :: Destination(map[], store.keys, req, later, true) == destination
    {
      var entry := Entry(req.callID, destination, req.fromTag, req.toTag, epoch, now + TWO_HOURS);
      affinity := affinity[req.callID := entry];
      if up {
        store.keys := store.keys[BaseKey(req.callID) := Stored(entry, now + TWO_HOURS)];
        var key := DialogKey(req);
        if key != "" { store.keys := store.keys[key := Stored(entry, now + TWO_HOURS)]; }
      }
      return up;
    }

    method FindDestination(req: SipRequest, now: int, up: bool) returns (destination: string)
      modifies this
      ensures destination == Destination(old(affinity), store.keys, req, now, up)
      ensures affinity == CacheAfter(old(affinity), store.keys, req, now, up)
    {
      var hit := Cached(affinity, req.callID, now);
      if hit.Some? { return hit.value.destination; }
      var entry := Stale(affinity, req.callID);
      var raw := None;
      var key := DialogKey(req);
      if key != "" && up { raw := Get(store.keys, key, now); }
      if raw.None? && up { raw := Get(store.keys, BaseKey(req.callID), now); }
      if raw.None? { return ""; }
      entry := Decode(raw.value, entry);
      if Expired(entry, now) { return ""; }
      affinity := affinity[req.callID := entry];
      return entry.destination;
    }

    method Unbind(callID: string, up: bool)
      modifies this, store
      ensures affinity == old(affinity) - {callID}
      ensures store.keys == if up then Delete(old(store.keys), BaseKey(callID)) else old(store.keys)
      // this edge finds the call only where it has a tag-qualified key
      ensures up ==> forall req: SipRequest, later: int, again: bool | req.callID == callID && DialogKey(req) !in store.keys ::
        Destination(affinity, store.keys, req, later, again) == ""
    {
      affinity := affinity - {callID};
      if up { store.keys := store.keys - {BaseKey(callID)}; }
    }

    /** The INVITE handler; `selected` is what node selection yields. A To-tag makes it a re-INVITE, which is
        never balanced anew. */
    method Invite(req: SipRequest, selected: Option<(string, int)>, now: int, up: bool) returns (reply: Reply)
      modifies this, store
      ensures req.toTag != "" ==>
        && store.keys == old(store.keys) && affinity == CacheAfter(old(affinity), old(store.keys), req, now, up)
        && reply == Answered(Destination(old(affinity), old(store.keys), req, now, up))
        && reply == (var d := Destination(old(affinity), old(store.keys), req, now, up); if d == "" then Refused(481) else Forwarded(d))
      ensures req.toTag == "" && selected.None? ==> reply == Refused(503) && affinity == old(affinity) && store.keys == old(store.keys)
      ensures req.toTag == "" && selected.Some? ==>
        && reply == (if up then Forwarded(selected.value.0) else Refused(503))
        && affinity == old(affinity)[req.callID := NewEntry(req, selected.value.0, selected.value.1, now)]
        && store.keys == if up then Put(old(store.keys), NewEntry(req, selected.value.0, selected.value.1, now), now) else old(store.keys)
    {
      if req.toTag != "" {
        var d := FindDestination(req, now, up);
        if d != "" { return Forwarded(d); }
        return Refused(481);
      }
      if selected.None? { return Refused(503); }
      var ok := Bind(req, selected.value.0, selected.value.1, now, up);
      if !ok { return Refused(503); }
      return Forwarded(selected.value.0);
    }

    /** ACK, BYE, CANCEL, UPDATE and plain INFO: a BYE or CANCEL that was forwarded ends the affinity. */
    method InDialog(sip: Method, req: SipRequest, now: int, up: bool) returns (reply: Reply)
      modifies this, store
      ensures var d := Destination(old(affinity), old(store.keys), req, now, up);
        var cache := CacheAfter(old(affinity), old(store.keys), req, now, up);
        && reply == Answered(d) && reply == (if d == "" then Refused(481) else Forwarded(d))
        && affinity == (if d != "" && (sip.Bye? || sip.Cancel?) then cache - {req.callID} else cache)
        && store.keys == (if d != "" && (sip.Bye? || sip.Cancel?) && up then Delete(old(store.keys), BaseKey(req.callID)) else old(store.keys))
    {
      var d := FindDestination(req, now, up);
      if d == "" { return Refused(481); }
      if sip.Bye? || sip.Cancel? { Unbind(req.callID, up); }
      return Forwarded(d);
    }
  }
}
