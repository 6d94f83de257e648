/**
 * The backend's two tables and the five operations on them
 * (convex/tts.ts over the tables declared in convex/schema.ts).
 *
 * A table is the sequence of its records in creation order, and a record's
 * id is its position: the document store hands out ids as records are
 * inserted and never deletes here, so "newest first" is "highest id
 * first". `Database` holds both tables; its mutations are methods whose
 * postconditions give the new tables as functions of the old ones
 * (`Inserted`, `Patched`, `Upserted`), and the lemmas below are stated
 * about those functions.
 */
module Ledger {
  import opened Options
  import opened Seqs

  /** The four values of the `status` field. */
  datatype Status = Pending | Processing | Completed | Error

  /** The literal the backend stores and the client compares against. */
  function StatusName(s: Status): (name: string)
    ensures name in StatusNames
  {
    match s
    case Pending => "pending"
    case Processing => "processing"
    case Completed => "completed"
    case Error => "error"
  }

  const StatusNames: seq<string> := ["pending", "processing", "completed", "error"]

  /** Different statuses are stored as different literals. */
  lemma StatusNameInjective(s: Status, t: Status)
    requires StatusName(s) == StatusName(t)
    ensures s == t
  {
  }

  /** The most records `getTTSRequests` returns. */
  const ListingCap: nat := 50

  const DefaultVoice: string := "alloy"
  const DefaultSpeed: real := 1.0

  /** A `ttsRequests` document; speeds are JavaScript numbers, taken as reals. */
  datatype TTSRequest = TTSRequest(
    id: nat, text: string, userId: Option<string>, status: Status,
    audioUrl: Option<string>, errorMessage: Option<string>,
    voice: Option<string>, speed: Option<real>)

  /** A `sessions` document. */
  datatype Session = Session(id: nat, userId: Option<string>, isActive: bool, lastActivity: int)

  /** Every record's id is its position in the table. */
  predicate IdsAreIndices(table: seq<TTSRequest>) {
    forall i :: 0 <= i < |table| ==> table[i].id == i
  }

  predicate SessionIdsAreIndices(sessions: seq<Session>) {
    forall i :: 0 <= i < |sessions| ==> sessions[i].id == i
  }

  // ---------------------------------------------------------------------
  // getTTSRequests and getTTSRequest
  // ---------------------------------------------------------------------

  /** The records owned by `u`, newest first, without a cap. */
  function OwnedNewestFirst(table: seq<TTSRequest>, u: string): (r: seq<TTSRequest>)
    ensures |r| <= |table|
    ensures forall k :: 0 <= k < |r| ==> r[k] in table && r[k].userId == Some(u)
    ensures forall x :: x in table && x.userId == Some(u) ==> x in r
    ensures IdsAreIndices(table) ==> forall k :: 0 <= k < |r| ==> r[k].id < |table|
    ensures IdsAreIndices(table) ==> forall i, j :: 0 <= i < j < |r| ==> r[i].id > r[j].id
  {
    if table == [] then []
    else
      var n := |table| - 1;
      var older := table[..n];
      assert table == older + [table[n]];
      assert IdsAreIndices(table) ==> IdsAreIndices(older);
      (if table[n].userId == Some(u) then [table[n]] else []) + OwnedNewestFirst(older, u)
  }

  /**
   * `getTTSRequests({ userId })`: nothing without a user id (absent or
   * empty); otherwise that user's records, newest first, at most fifty.
   */
  function Listing(table: seq<TTSRequest>, userId: Option<string>): (r: seq<TTSRequest>)
    ensures !Truthy(userId) ==> r == []
    ensures |r| <= ListingCap
    ensures forall k :: 0 <= k < |r| ==> r[k] in table && r[k].userId == userId
  {
    if !Truthy(userId) then []
    else
      var all := OwnedNewestFirst(table, userId.value);
      if |all| <= ListingCap then all else all[..ListingCap]
  }

  /** The listing is in strictly decreasing id order, that is newest first. */
  lemma ListingNewestFirst(table: seq<TTSRequest>, userId: Option<string>)
    requires IdsAreIndices(table)
    ensures var r := Listing(table, userId);
      forall i, j :: 0 <= i < j < |r| ==> r[i].id > r[j].id
  {
  }

  /**
   * A record of the user that the listing leaves out is older than every
   * record it shows, and the listing is full: the cap drops the oldest.
   */
  lemma ListingKeepsNewest(table: seq<TTSRequest>, userId: Option<string>, x: TTSRequest)
    requires IdsAreIndices(table) && Truthy(userId)
    requires x in table && x.userId == userId
    requires x !in Listing(table, userId)
    ensures |Listing(table, userId)| == ListingCap
    ensures forall k :: 0 <= k < ListingCap ==> Listing(table, userId)[k].id > x.id
  {
    var all := OwnedNewestFirst(table, userId.value);
    var p :| 0 <= p < |all| && all[p] == x;
    assert |all| > ListingCap;
  }

  /** A record stored without a user id (absent or empty) is listed for nobody. */
  lemma UnownedNeverListed(table: seq<TTSRequest>, x: TTSRequest, userId: Option<string>)
    requires x in table && !Truthy(x.userId)
    ensures x !in Listing(table, userId)
  {
  }

  /** `getTTSRequest({ requestId })`: the record with that id, `None` for null. */
  function Lookup(table: seq<TTSRequest>, id: nat): (r: Option<TTSRequest>)
    ensures r.Some? <==> exists k :: 0 <= k < |table| && table[k].id == id
    ensures r.Some? ==> r.value in table && r.value.id == id
  {
    Find(table, (x: TTSRequest) => x.id == id)
  }

  /** In a table whose ids are positions, the record with id `id` is the one at `id`. */
  lemma LookupByPosition(table: seq<TTSRequest>, id: nat)
    requires IdsAreIndices(table)
    ensures Lookup(table, id) == if id < |table| then Some(table[id]) else None
  {
    if id < |table| {
      assert table[id].id == id;
      var r := Lookup(table, id);
      var k :| 0 <= k < |table| && table[k] == r.value;
    }
  }

  // ---------------------------------------------------------------------
  // createTTSRequest
  // ---------------------------------------------------------------------

  /**
   * The document `createTTSRequest` inserts: status "completed", the voice
   * defaulted to "alloy" and the speed to 1.0 when falsy (`||`: absent,
   * empty string, zero), no audio URL and no error message.
   */
  function NewRequest(id: nat, text: string, userId: Option<string>, voice: Option<string>,
                      speed: Option<real>): (r: TTSRequest)
    ensures r.id == id && r.text == text && r.userId == userId && r.status == Completed
    ensures r.audioUrl == None && r.errorMessage == None
    ensures Truthy(r.voice) && (Truthy(voice) ==> r.voice == voice)
    ensures r.speed.Some? && r.speed.value != 0.0
    ensures speed.Some? && speed.value != 0.0 ==> r.speed == speed
    ensures !Truthy(voice) ==> r.voice == Some(DefaultVoice)
    ensures !(speed.Some? && speed.value != 0.0) ==> r.speed == Some(DefaultSpeed)
  {
    TTSRequest(id, text, userId, Completed, None, None,
      if Truthy(voice) then voice else Some(DefaultVoice),
      if speed.Some? && speed.value != 0.0 then speed else Some(DefaultSpeed))
  }

  /** The table after `createTTSRequest`: one new record at the end, under the next id. */
  function Inserted(table: seq<TTSRequest>, text: string, userId: Option<string>,
                    voice: Option<string>, speed: Option<real>): seq<TTSRequest>
  {
    table + [NewRequest(|table|, text, userId, voice, speed)]
  }

  /**
   * Creating a request adds exactly one record, under an id no record had,
   * which `getTTSRequest` then finds; every other id finds what it found before.
   */
  lemma CreateAddsOne(table: seq<TTSRequest>, text: string, userId: Option<string>,
                      voice: Option<string>, speed: Option<real>, other: nat)
    requires IdsAreIndices(table)
    ensures var t := Inserted(table, text, userId, voice, speed);
      IdsAreIndices(t) && |t| == |table| + 1 &&
      Lookup(table, |table|) == None &&
      Lookup(t, |table|) == Some(NewRequest(|table|, text, userId, voice, speed)) &&
      (other != |table| ==> Lookup(t, other) == Lookup(table, other))
  {
    var t := Inserted(table, text, userId, voice, speed);
    LookupByPosition(table, |table|);
    LookupByPosition(t, |table|);
    LookupByPosition(table, other);
    LookupByPosition(t, other);
  }

  // ---------------------------------------------------------------------
  // updateTTSStatus
  // ---------------------------------------------------------------------

  /**
   * The patch `updateTTSStatus` applies: the status always; the audio URL
   * and the error message only when given as non-empty strings.
   */
  function Patch(r: TTSRequest, status: Status, audioUrl: Option<string>,
                 errorMessage: Option<string>): TTSRequest
  {
    r.(status := status,
       audioUrl := if Truthy(audioUrl) then audioUrl else r.audioUrl,
       errorMessage := if Truthy(errorMessage) then errorMessage else r.errorMessage)
  }

  /**
   * A patch sets the status, writes an optional field only when it is
   * given non-empty, keeps everything else, and never clears a field.
   */
  lemma PatchFields(r: TTSRequest, status: Status, audioUrl: Option<string>, errorMessage: Option<string>)
    ensures var p := Patch(r, status, audioUrl, errorMessage);
      p.status == status &&
      p.id == r.id && p.text == r.text && p.userId == r.userId && p.voice == r.voice && p.speed == r.speed &&
      (Truthy(audioUrl) ==> p.audioUrl == audioUrl) && (!Truthy(audioUrl) ==> p.audioUrl == r.audioUrl) &&
      (Truthy(errorMessage) ==> p.errorMessage == errorMessage) &&
      (!Truthy(errorMessage) ==> p.errorMessage == r.errorMessage) &&
      (Truthy(r.audioUrl) ==> Truthy(p.audioUrl)) && (Truthy(r.errorMessage) ==> Truthy(p.errorMessage))
  {
  }

  /** An error message recorded earlier survives a later "completed" update without one. */
  lemma ErrorSurvivesCompletion(r: TTSRequest, message: string, audioUrl: Option<string>)
    requires message != ""
    ensures Patch(Patch(r, Error, None, Some(message)), Completed, audioUrl, None).errorMessage == Some(message)
  {
  }

  /** Applying the same update twice is applying it once. */
  lemma PatchIdempotent(r: TTSRequest, status: Status, audioUrl: Option<string>, errorMessage: Option<string>)
    ensures var p := Patch(r, status, audioUrl, errorMessage);
      Patch(p, status, audioUrl, errorMessage) == p
  {
  }

  /** The table after `updateTTSStatus`; `None` when no record has the id (the patch throws). */
  function Patched(table: seq<TTSRequest>, id: nat, status: Status, audioUrl: Option<string>,
                   errorMessage: Option<string>): (r: Option<seq<TTSRequest>>)
    ensures r.None? <==> Lookup(table, id).None?
  {
    match FindFirst(table, (x: TTSRequest) => x.id == id)
    case None => None
    case Some(i) => Some(table[i := Patch(table[i], status, audioUrl, errorMessage)])
  }

  /** An update changes the one record with that id, as `Patch` says, and no other. */
  lemma UpdateTouchesOneRecord(table: seq<TTSRequest>, id: nat, status: Status,
                               audioUrl: Option<string>, errorMessage: Option<string>)
    requires IdsAreIndices(table) && id < |table|
    ensures var r := Patched(table, id, status, audioUrl, errorMessage);
      r.Some? && |r.value| == |table| && IdsAreIndices(r.value) &&
      r.value[id] == Patch(table[id], status, audioUrl, errorMessage) &&
      forall j :: 0 <= j < |table| && j != id ==> r.value[j] == table[j]
  {
    var found := FindFirst(table, (x: TTSRequest) => x.id == id);
    assert table[id].id == id;
    assert found == Some(id);
  }

  // ---------------------------------------------------------------------
  // updateSession
  // ---------------------------------------------------------------------

  /** The session `.first()` finds for a user: the earliest created one. */
  function SessionOf(sessions: seq<Session>, u: string): (r: Option<nat>)
    ensures r.Some? ==> r.value < |sessions| && sessions[r.value].userId == Some(u)
    ensures r.Some? ==> forall j :: 0 <= j < r.value ==> sessions[j].userId != Some(u)
    ensures r.None? <==> forall j :: 0 <= j < |sessions| ==> sessions[j].userId != Some(u)
  {
    FindFirst(sessions, (s: Session) => s.userId == Some(u))
  }

  /**
   * The session table after `updateSession({ userId, isActive })` at time
   * `now`: unchanged without a user id; else the user's first session is
   * patched, or a session is inserted when the user has none.
   */
  function Upserted(sessions: seq<Session>, userId: Option<string>, isActive: bool, now: int): seq<Session>
  {
    if !Truthy(userId) then sessions
    else match SessionOf(sessions, userId.value)
      case Some(i) => sessions[i := sessions[i].(isActive := isActive, lastActivity := now)]
      case None => sessions + [Session(|sessions|, userId, isActive, now)]
  }

  /** No two sessions belong to the same user. */
  predicate OneSessionPerUser(sessions: seq<Session>) {
    forall i, j :: 0 <= i < j < |sessions| ==> sessions[i].userId != sessions[j].userId
  }

  /**
   * After `updateSession` with a user id, the user has exactly one session,
   * at the position of the existing one when there was one, carrying the
   * new flag and time; the table grows by one only when there was none;
   * every other session is unchanged, and one session per user is kept.
   */
  lemma UpsertEffect(sessions: seq<Session>, u: string, isActive: bool, now: int)
    requires u != "" && OneSessionPerUser(sessions) && SessionIdsAreIndices(sessions)
    ensures var r := Upserted(sessions, Some(u), isActive, now);
      OneSessionPerUser(r) && SessionIdsAreIndices(r) &&
      |r| == |sessions| + (if SessionOf(sessions, u).None? then 1 else 0) &&
      (exists i :: 0 <= i < |r| && r[i].userId == Some(u) && r[i].isActive == isActive && r[i].lastActivity == now) &&
      (forall j :: 0 <= j < |sessions| && sessions[j].userId != Some(u) ==> r[j] == sessions[j])
  {
    var r := Upserted(sessions, Some(u), isActive, now);
    match SessionOf(sessions, u)
    case Some(i) =>
      assert r[i].userId == Some(u);
    case None =>
      assert r[|sessions|].userId == Some(u);
  }

  /** Without a user id, `updateSession` changes nothing. */
  lemma UpsertWithoutUser(sessions: seq<Session>, userId: Option<string>, isActive: bool, now: int)
    requires !Truthy(userId)
    ensures Upserted(sessions, userId, isActive, now) == sessions
  {
  }

  // ---------------------------------------------------------------------
  // The store
  // ---------------------------------------------------------------------

  /** Both tables of the backend. */
  class Database {
    var requests: seq<TTSRequest>
    var sessions: seq<Session>

    ghost predicate Valid()
      reads this
    {
      IdsAreIndices(requests) && SessionIdsAreIndices(sessions) && OneSessionPerUser(sessions)
    }

    constructor ()
      ensures Valid() && requests == [] && sessions == []
    {
      requests := [];
      sessions := [];
    }

    /** `getTTSRequests`. */
    function GetTTSRequests(userId: Option<string>): (r: seq<TTSRequest>)
      reads this
      ensures !Truthy(userId) ==> r == []
      ensures |r| <= ListingCap
      ensures forall k :: 0 <= k < |r| ==> r[k] in requests && r[k].userId == userId
    {
      Listing(requests, userId)
    }

    /** `getTTSRequest`. */
    function GetTTSRequest(id: nat): (r: Option<TTSRequest>)
      reads this
      ensures r.Some? <==> exists k :: 0 <= k < |requests| && requests[k].id == id
      ensures r.Some? ==> r.value in requests && r.value.id == id
    {
      Lookup(requests, id)
    }

    /** `createTTSRequest`: inserts the record and returns its id. */
    method CreateTTSRequest(text: string, userId: Option<string>, voice: Option<string>,
                            speed: Option<real>) returns (id: nat)
      requires Valid()
      modifies this
      ensures Valid()
      ensures requests == Inserted(old(requests), text, userId, voice, speed)
      ensures sessions == old(sessions)
      ensures id == |old(requests)| && Lookup(old(requests), id) == None
    {
      id := |requests|;
      LookupByPosition(requests, id);
      requests := requests + [NewRequest(id, text, userId, voice, speed)];
    }

    /** `updateTTSStatus`: `ok` is false, and nothing changes, when no record has the id. */
    method UpdateTTSStatus(id: nat, status: Status, audioUrl: Option<string>,
                           errorMessage: Option<string>) returns (ok: bool)
      requires Valid()
      modifies this
      ensures Valid()
      ensures var patched := Patched(old(requests), id, status, audioUrl, errorMessage);
        ok == patched.Some? && requests == (if ok then patched.value else old(requests))
      ensures ok <==> id < |old(requests)|
      ensures sessions == old(sessions)
    {
      LookupByPosition(requests, id);
      var found := FindFirst(requests, (x: TTSRequest) => x.id == id);
      if found.None? {
        ok := false;
        return;
      }
      var i := found.value;
      requests := requests[i := Patch(requests[i], status, audioUrl, errorMessage)];
      ok := true;
    }

    /** `updateSession`, with the clock reading `now`. */
    method UpdateSession(userId: Option<string>, isActive: bool, now: int)
      requires Valid()
      modifies this
      ensures Valid()
      ensures sessions == Upserted(old(sessions), userId, isActive, now)
      ensures requests == old(requests)
    {
      if !Truthy(userId) {
        return;
      }
      UpsertEffect(sessions, userId.value, isActive, now);
      var existing := SessionOf(sessions, userId.value);
      if existing.Some? {
        var i := existing.value;
        sessions := sessions[i := sessions[i].(isActive := isActive, lastActivity := now)];
      } else {
        sessions := sessions + [Session(|sessions|, userId, isActive, now)];
      }
    }
  }
}
