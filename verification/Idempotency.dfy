/** The idempotency table and its three operations, as SQL sees them: expiry is compared as text. */
module Idempotency {
  import opened Wrappers
  import opened IsoTime

  datatype Key = Key(key: string, route: string, scope: string)

  datatype Response = Response(statusCode: int, contentType: string, body: string)

  datatype Entry = Entry(hash: string, completed: bool, response: Option<Response>, createdAt: string, expiresAt: string)

  datatype Verdict = Claimed | Conflict | Replay(response: Response) | InProgress

  type Table = map<Key, Entry>

  /** The lifetime that the store works with. */
  function Ttl(ttlSec: int): nat { if ttlSec < 1 then 1 else ttlSec }

  /** When a row written now expires. Adding the lifetime must not leave the calendar. */
  function Expiry(ttlSec: int, now: DateTime): DateTime
    requires Valid(now) && PlusSeconds(now, Ttl(ttlSec)).Some?
  {
    PlusSeconds(now, Ttl(ttlSec)).value
  }

  predicate CanExpire(ttlSec: int, now: DateTime) {
    Valid(now) && PlusSeconds(now, Ttl(ttlSec)).Some?
  }

  /** DELETE ... WHERE expires_at <= now. */
  function Purge(rows: Table, nowIso: string): Table {
    map k | k in rows && !LexLeq(rows[k].expiresAt, nowIso) :: rows[k]
  }

  function Pending(hash: string, nowIso: string, expiresIso: string): Entry {
    Entry(hash, false, None, nowIso, expiresIso)
  }

  /** The decision on a row that is there. */
  function Judge(e: Entry, hash: string): Verdict {
    if e.hash != hash then Conflict
    else if e.completed && e.response.Some? then Replay(e.response.value)
    else InProgress
  }

  /** What a claim does: purge, then take the key if it is free. */
  function Claim(rows: Table, k: Key, hash: string, nowIso: string, expiresIso: string): (Table, Verdict) {
    var live := Purge(rows, nowIso);
    if k !in live then (live[k := Pending(hash, nowIso, expiresIso)], Claimed)
    else (live, Judge(live[k], hash))
  }

  /** The same with every branch of the code: it looks at the expiry again after the purge, and takes
      the key over if the row has expired. */
  function ClaimAsWritten(rows: Table, k: Key, hash: string, nowIso: string, expiresIso: string): (Table, Verdict) {
    var live := Purge(rows, nowIso);
    if k !in live then (live[k := Pending(hash, nowIso, expiresIso)], Claimed)
    else if live[k].hash != hash then (live, Conflict)
    else if LexLeq(live[k].expiresAt, nowIso) then (live[k := Pending(hash, nowIso, expiresIso)], Claimed)
    else (live, Judge(live[k], hash))
  }

  function StoreCompleted(rows: Table, k: Key, hash: string, response: Response, expiresIso: string): Table {
    if k in rows && rows[k].hash == hash then
      rows[k := rows[k].(completed := true, response := Some(response), expiresAt := expiresIso)]
    else rows
  }

  function ReleasePending(rows: Table, k: Key, hash: string): Table {
    if k in rows && rows[k].hash == hash && !rows[k].completed then rows - {k} else rows
  }

  class SqliteIdempotencyStore {
    var ttlSec: int
    var rows: Table

    constructor (ttl: int)
      ensures rows == map[] && ttlSec == ttl
    {
      ttlSec, rows := ttl, map[];
    }

    /** The SQL statement by statement, with its second look at the expiry. */
    method ClaimKey(k: Key, hash: string, now: DateTime) returns (verdict: Verdict)
      requires CanExpire(ttlSec, now)
      modifies this`rows
      ensures (rows, verdict) == Claim(old(rows), k, hash, Iso(now), Iso(Expiry(ttlSec, now)))
    {
      var nowIso := Iso(now);
      var expiresIso := Iso(Expiry(ttlSec, now));
      rows := Purge(rows, nowIso);
      if k !in rows {
        rows := rows[k := Pending(hash, nowIso, expiresIso)];
        return Claimed;
      }
      var row := rows[k];
      if row.hash != hash {
        return Conflict;
      }
      if LexLeq(row.expiresAt, nowIso) {
        assert false;  // the purge has just removed every such row
      }
      if row.completed && row.response.Some? {
        return Replay(row.response.value);
      }
      return InProgress;
    }

    method StoreCompletedResponse(k: Key, hash: string, response: Response, now: DateTime)
      requires CanExpire(ttlSec, now)
      modifies this`rows
      ensures rows == StoreCompleted(old(rows), k, hash, response, Iso(Expiry(ttlSec, now)))
    {
      if k in rows && rows[k].hash == hash {
        rows := rows[k := rows[k].(completed := true, response := Some(response), expiresAt := Iso(Expiry(ttlSec, now)))];
      }
    }

    method ReleasePendingKey(k: Key, hash: string)
      modifies this`rows
      ensures rows == ReleasePending(old(rows), k, hash)
    {
      if k in rows && rows[k].hash == hash && !rows[k].completed {
        rows := rows - {k};
      }
    }
  }

  // ---------- stream capture ----------

  const DONE_MARK := "\"type\": \"done\""
  const EVENT_STREAM := "text/event-stream"

  /** `needle in text`. */
  predicate Contains(text: string, needle: string) {
    exists i :: 0 <= i <= |text| - |needle| && MatchesAt(text, needle, i)
  }

  predicate MatchesAt(text: string, needle: string, i: nat)
    requires i + |needle| <= |text|
  {
    text[i..i + |needle|] == needle
  }

  function Concat(chunks: seq<string>): string {
    if chunks == [] then "" else Concat(chunks[..|chunks| - 1]) + chunks[|chunks| - 1]
  }

  predicate SawDone(chunks: seq<string>) {
    exists i :: 0 <= i < |chunks| && Contains(chunks[i], DONE_MARK)
  }

  /** What a captured stream leaves in the table. `broke` tells that the source raised or the client
      went away after the chunks in `sent`. */
  function Captured(rows: Table, k: Key, hash: string, sent: seq<string>, broke: bool, expiresIso: string): Table {
    if !broke && SawDone(sent)
    then StoreCompleted(rows, k, hash, Response(200, EVENT_STREAM, Concat(sent)), expiresIso)
    else ReleasePending(rows, k, hash)
  }

  /** Pass the source on chunk by chunk; store it if it completed, otherwise release the claim. */
  method CaptureIdempotentStream(store: SqliteIdempotencyStore, k: Key, hash: string,
                                 source: seq<string>, breaksAfter: nat, now: DateTime)
    returns (sent: seq<string>)
    requires CanExpire(store.ttlSec, now)
    modifies store`rows
    ensures sent == if breaksAfter < |source| then source[..breaksAfter] else source
    ensures store.rows == Captured(old(store.rows), k, hash, sent, breaksAfter < |source|, Iso(Expiry(store.ttlSec, now)))
  {
    sent := [];
    var body := "";
    var sawDone := false;
    for i := 0 to |source|
      invariant sent == source[..i] && i <= breaksAfter
      invariant body == Concat(sent) && sawDone == SawDone(sent)
      invariant store.rows == old(store.rows)
    {
      if i == breaksAfter {
        store.ReleasePendingKey(k, hash);
        return;
      }
      SawDoneSnoc(sent, source[i]);
      var hit := FindText(source[i], DONE_MARK);
      if hit {
        sawDone := true;
      }
      body := body + source[i];
      sent := sent + [source[i]];
      assert sent[..i] == source[..i];
    }
    assert source[..|source|] == source;
    if sawDone {
      store.StoreCompletedResponse(k, hash, Response(200, EVENT_STREAM, body), now);
      return;
    }
    store.ReleasePendingKey(k, hash);
  }

  method FindText(text: string, needle: string) returns (found: bool)
    ensures found == Contains(text, needle)
  {
    var i := 0;
    while i + |needle| <= |text|
      invariant forall j :: 0 <= j < i && j <= |text| - |needle| ==> !MatchesAt(text, needle, j)
    {
      if MatchesAt(text, needle, i) {
        return true;
      }
      i := i + 1;
    }
    return false;
  }

  lemma SawDoneSnoc(chunks: seq<string>, last: string)
    ensures SawDone(chunks + [last]) <==> SawDone(chunks) || Contains(last, DONE_MARK)
  {
    var more := chunks + [last];
    if Contains(last, DONE_MARK) {
      assert more[|chunks|] == last;
    }
    if SawDone(chunks) {
      var i :| 0 <= i < |chunks| && Contains(chunks[i], DONE_MARK);
      assert more[i] == chunks[i];
    }
  }

  // ---------- expiry, in time ----------

  /** Every row's expiry was written by the store. */
  ghost predicate Expires(e: Entry, at: DateTime) {
    Valid(at) && e.expiresAt == Iso(at)
  }

  /** The purge removes exactly the rows whose time has come. */
  lemma PurgeByTime(rows: Table, k: Key, at: DateTime, now: DateTime)
    requires k in rows && Expires(rows[k], at) && Valid(now)
    ensures k in Purge(rows, Iso(now)) <==> Micros(now) < Micros(at)
  {
    IsoOrder(at, now);
  }

  /** So the second look at the expiry, after the purge, never fires. */
  lemma SecondExpiryCheckUnreachable(rows: Table, k: Key, hash: string, nowIso: string, expiresIso: string)
    ensures k in Purge(rows, nowIso) ==> !LexLeq(Purge(rows, nowIso)[k].expiresAt, nowIso)
    ensures ClaimAsWritten(rows, k, hash, nowIso, expiresIso) == Claim(rows, k, hash, nowIso, expiresIso)
  {
  }

  /** A row written now outlives the moment it is written by the store's lifetime. */
  lemma FreshRowLives(ttlSec: int, now: DateTime)
    requires CanExpire(ttlSec, now)
    ensures Valid(Expiry(ttlSec, now))
    ensures Micros(Expiry(ttlSec, now)) == Micros(now) + Ttl(ttlSec) * 1_000_000
    ensures Micros(now) < Micros(Expiry(ttlSec, now))
  {
    PlusSecondsIsLater(now, Ttl(ttlSec));
  }
}
