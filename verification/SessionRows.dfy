/** The session tables: one row per session holding its payload, the message rows derived from it, and the files
    made from its answers, which carry an owner and a tenant of their own. Every operation is one transaction, so it either happens whole or leaves the tables as they were. */
module SessionRows {
  import opened Wrappers
  import opened SessionCodec

  datatype SessionRow = SessionRow(title: string, model: string, schemaVersion: int, createdAt: string, updatedAt: string,
                                   payload: Json, owner: string, tenant: string, principal: string)

  /** Message rows by session, in the order of their sequence number; a session without rows has no entry. */
  type MessageTable = map<string, seq<Message>>

  /** The columns of a file's row that deletion looks at. */
  datatype Artifact = Artifact(session: string, owner: string, tenant: string)

  type ArtifactTable = map<string, Artifact>

  datatype Tables = Tables(sessions: map<string, SessionRow>, rows: MessageTable, artifacts: ArtifactTable)

  datatype Op = Upsert(id: string, row: SessionRow)
              | Rename(id: string, title: string, now: string)
              | Delete(id: string)
              | DeleteAll(owner: Option<string>, tenant: Option<string>)
              | AddArtifact(id: string, artifact: Artifact)

  datatype Result = Success | NotFound | WriteFailed

  function RowsFor(rows: MessageTable, id: string): seq<Message> {
    if id in rows then rows[id] else []
  }

  predicate Selected(s: SessionRow, owner: Option<string>, tenant: Option<string>) {
    (owner.None? || s.owner == owner.value) && (tenant.None? || s.tenant == tenant.value)
  }

  function SelectedIds(sessions: map<string, SessionRow>, owner: Option<string>, tenant: Option<string>): set<string> {
    set id | id in sessions && Selected(sessions[id], owner, tenant)
  }

  predicate SelectedArtifact(a: Artifact, owner: Option<string>, tenant: Option<string>) {
    (owner.None? || a.owner == owner.value) && (tenant.None? || a.tenant == tenant.value)
  }

  function ArtifactsOfOthers(artifacts: ArtifactTable, session: string): ArtifactTable {
    map a | a in artifacts && artifacts[a].session != session :: artifacts[a]
  }

  function UnselectedArtifacts(artifacts: ArtifactTable, owner: Option<string>, tenant: Option<string>): ArtifactTable {
    map a | a in artifacts && !SelectedArtifact(artifacts[a], owner, tenant) :: artifacts[a]
  }

  function WithRows(rows: MessageTable, id: string, messages: seq<Message>): MessageTable {
    if messages == [] then rows - {id} else rows[id := messages]
  }

  /** What an operation makes of the tables. */
  function Applied(t: Tables, op: Op): (Result, Tables) {
    match op
    case Upsert(id, row) =>
      if !Storable(row.payload) then (WriteFailed, t)
      else
        var kept := if id in t.sessions then row.(createdAt := t.sessions[id].createdAt) else row;
        (Success, t.(sessions := t.sessions[id := kept], rows := WithRows(t.rows, id, Visible(row.payload))))
    case Rename(id, title, now) =>
      if id !in t.sessions then (NotFound, t)
      else (Success, t.(sessions := t.sessions[id := t.sessions[id].(title := title, updatedAt := now)]))
    case Delete(id) =>
      if id !in t.sessions then (NotFound, t)
      else (Success, Tables(t.sessions - {id}, t.rows - {id}, ArtifactsOfOthers(t.artifacts, id)))
    case DeleteAll(owner, tenant) =>
      if owner.None? && tenant.None? then (Success, Tables(map[], map[], map[]))
      else
        var ids := SelectedIds(t.sessions, owner, tenant);
        (Success, Tables(t.sessions - ids, t.rows - ids, UnselectedArtifacts(t.artifacts, owner, tenant)))
    case AddArtifact(id, artifact) =>
      if id in t.artifacts then (WriteFailed, t)
      else (Success, t.(artifacts := t.artifacts[id := artifact]))
  }

  /** The row list laid over the payload, where there are rows. */
  function Merged(payload: Json, rows: seq<Message>): Json {
    var value := if payload.List? || payload.Obj? then payload else List([]);
    if rows == [] then value
    else if value.Obj? then Obj(value.fields[Messages := List(ToJsons(rows))])
    else List(ToJsons(rows))
  }

  /** Delete the rows of each selected session in turn. */
  method RowsWithout(rows: MessageTable, ids: set<string>) returns (kept: MessageTable)
    ensures kept == rows - ids
  {
    kept := rows;
    var left := ids;
    while left != {}
      invariant left <= ids && kept == rows - (ids - left)
      decreases |left|
    {
      var id :| id in left;
      assert ids - (left - {id}) == (ids - left) + {id};
      kept := kept - {id};
      left := left - {id};
    }
    assert ids - left == ids;
  }

  class SessionLog {
    var sessions: map<string, SessionRow>
    var rows: MessageTable
    var artifacts: ArtifactTable

    ghost function State(): Tables
      reads this
    {
      Tables(sessions, rows, artifacts)
    }

    constructor ()
      ensures State() == Tables(map[], map[], map[])
    {
      sessions, rows, artifacts := map[], map[], map[];
    }

    /** Delete the rows of a session and insert its visible messages, one after the other. */
    method ReplaceSessionMessages(id: string, payload: Json)
      modifies this`rows
      ensures rows == WithRows(old(rows), id, Visible(payload))
    {
      rows := rows - {id};
      var messages := PayloadVisibleMessages(payload);
      for i := 0 to |messages|
        invariant rows == WithRows(old(rows), id, messages[..i])
      {
        assert messages[..i + 1] == messages[..i] + [messages[i]];
        rows := rows[id := RowsFor(rows, id) + [messages[i]]];
      }
      assert messages[..|messages|] == messages;
    }

    method UpsertSession(id: string, row: SessionRow) returns (r: Result)
      modifies this
      ensures (r, State()) == Applied(old(State()), Upsert(id, row))
    {
      if !Storable(row.payload) {
        return WriteFailed;
      }
      if id in sessions {
        sessions := sessions[id := row.(createdAt := sessions[id].createdAt)];
      } else {
        sessions := sessions[id := row];
      }
      ReplaceSessionMessages(id, row.payload);
      return Success;
    }

    method RenameSessionTitle(id: string, title: string, now: string) returns (r: Result)
      modifies this`sessions
      ensures (r, State()) == Applied(old(State()), Rename(id, title, now))
    {
      if id !in sessions {
        return NotFound;
      }
      sessions := sessions[id := sessions[id].(title := title, updatedAt := now)];
      return Success;
    }

    method DeleteSession(id: string) returns (r: Result)
      modifies this
      ensures (r, State()) == Applied(old(State()), Delete(id))
    {
      if id !in sessions {
        return NotFound;
      }
      rows := rows - {id};
      artifacts := ArtifactsOfOthers(artifacts, id);
      sessions := sessions - {id};
      return Success;
    }

    method DeleteAllSessions(owner: Option<string>, tenant: Option<string>) returns (r: Result)
      modifies this
      ensures (r, State()) == Applied(old(State()), DeleteAll(owner, tenant))
    {
      if owner.None? && tenant.None? {
        rows := map[];
        artifacts := map[];
        sessions := map[];
        return Success;
      }
      var ids := SelectedIds(sessions, owner, tenant);
      rows := RowsWithout(rows, ids);
      artifacts := UnselectedArtifacts(artifacts, owner, tenant);
      sessions := sessions - ids;
      return Success;
    }

    method CreateChatArtifact(id: string, artifact: Artifact) returns (r: Result)
      modifies this`artifacts
      ensures (r, State()) == Applied(old(State()), AddArtifact(id, artifact))
    {
      if id in artifacts {
        return WriteFailed;
      }
      artifacts := artifacts[id := artifact];
      return Success;
    }

    /** The rows of a session as message objects, in order; nothing where there are none. */
    method FetchSessionMessages(id: string) returns (items: Option<seq<Json>>)
      ensures items == if RowsFor(rows, id) == [] then None else Some(ToJsons(RowsFor(rows, id)))
    {
      var messages := RowsFor(rows, id);
      if messages == [] {
        return None;
      }
      var out := MessagesAsJson(messages);
      return Some(out);
    }

    /** The stored row and its messages as the caller sees them. */
    method GetSession(id: string) returns (item: Option<(SessionRow, Json)>)
      ensures item == if id in sessions then Some((sessions[id], Merged(sessions[id].payload, RowsFor(rows, id)))) else None
    {
      if id !in sessions {
        return None;
      }
      var payload := sessions[id].payload;
      var value := if payload.List? || payload.Obj? then payload else List([]);
      var normalized := FetchSessionMessages(id);
      if normalized.Some? {
        if value.Obj? {
          value := Obj(value.fields[Messages := List(normalized.value)]);
        } else {
          value := List(normalized.value);
        }
      }
      return Some((sessions[id], value));
    }
  }

  // ---------- the rows and the payloads agree ----------

  /** A session's rows are the visible messages of its payload; there are none for an absent session. */
  ghost predicate AgreeFor(t: Tables, id: string) {
    if id in t.sessions then RowsFor(t.rows, id) == Visible(t.sessions[id].payload) && Storable(t.sessions[id].payload)
    else id !in t.rows
  }

  ghost predicate Agree(t: Tables) { forall id :: AgreeFor(t, id) }

  lemma ApplyKeepsAgreement(t: Tables, op: Op)
    requires Agree(t)
    ensures Agree(Applied(t, op).1)
  {
    var t' := Applied(t, op).1;
    forall id
      ensures AgreeFor(t', id)
    {
      assert AgreeFor(t, id);
    }
  }

  function Run(t: Tables, ops: seq<Op>): Tables {
    if ops == [] then t else Applied(Run(t, ops[..|ops| - 1]), ops[|ops| - 1]).1
  }

  /** Through any sequence of operations, failed ones included, rows and payloads agree. */
  lemma {:induction false} RunKeepsAgreement(t: Tables, ops: seq<Op>)
    requires Agree(t)
    ensures Agree(Run(t, ops))
  {
    if ops != [] {
      RunKeepsAgreement(t, ops[..|ops| - 1]);
      ApplyKeepsAgreement(Run(t, ops[..|ops| - 1]), ops[|ops| - 1]);
    }
  }

  /** Reading a session through its rows decodes to what its payload alone decodes to. */
  lemma ReadBackIsDecode(t: Tables, id: string, validate: Validate, parse: string -> Option<Json>)
    requires Agree(t) && id in t.sessions
    ensures var payload := t.sessions[id].payload;
            Decode(validate, parse, Merged(payload, RowsFor(t.rows, id))) == Decode(validate, parse, payload)
  {
    assert AgreeFor(t, id);
    var payload := t.sessions[id].payload;
    if payload.Obj? && Visible(payload) != [] {
      MergeIsTransparent(validate, payload);
    }
  }

  /** A conversation that was built, stored after any operations, and renamed any number of times is read back
      message for message. */
  lemma {:induction false} ConversationReadsBack(t: Tables, ops: seq<Op>, id: string, row: SessionRow, x: Inputs,
                                                     looksUploaded: string -> bool, titles: seq<(string, string)>,
                                                     validate: Validate, parse: string -> Option<Json>)
    requires Agree(t)
    requires Builds(x) && IsSource(x.source) && RolesOk(x.messages)
    requires row.payload == Built(x, looksUploaded)
    ensures var t' := Renamed(Applied(Run(t, ops), Upsert(id, row)).1, id, titles);
            && id in t'.sessions
            && Decode(validate, parse, Merged(t'.sessions[id].payload, RowsFor(t'.rows, id))) ==
                 Session(ShownAll(validate, Kept(Turns(x), looksUploaded), x.answer, x.artifacts),
                         if x.chart.Some? then Some(Obj(x.chart.value)) else None,
                         Context(Turns(x), looksUploaded), DocumentsIn(x.documents), x.source, PersonaOf(x.persona))
  {
    RunKeepsAgreement(t, ops);
    BuiltIsStorable(x, looksUploaded);
    var stored := Applied(Run(t, ops), Upsert(id, row)).1;
    ApplyKeepsAgreement(Run(t, ops), Upsert(id, row));
    RenamesKeepPayload(stored, id, titles);
    ReadBackIsDecode(Renamed(stored, id, titles), id, validate, parse);
    BuildRoundTrip(validate, x, looksUploaded);
  }

  function Renamed(t: Tables, id: string, titles: seq<(string, string)>): Tables {
    if titles == [] then t
    else
      var last := titles[|titles| - 1];
      Applied(Renamed(t, id, titles[..|titles| - 1]), Rename(id, last.0, last.1)).1
  }

  lemma {:induction false} RenamesKeepPayload(t: Tables, id: string, titles: seq<(string, string)>)
    requires Agree(t) && id in t.sessions
    ensures var t' := Renamed(t, id, titles);
            Agree(t') && id in t'.sessions && t'.sessions[id].payload == t.sessions[id].payload
  {
    if titles != [] {
      var last := titles[|titles| - 1];
      RenamesKeepPayload(t, id, titles[..|titles| - 1]);
      ApplyKeepsAgreement(Renamed(t, id, titles[..|titles| - 1]), Rename(id, last.0, last.1));
    }
  }

  // ---------- the files of deleted sessions ----------

  /** Every file belongs to a stored session. */
  ghost predicate NoOrphans(t: Tables) {
    forall a :: a in t.artifacts ==> t.artifacts[a].session in t.sessions
  }

  /** Deleting one session leaves nothing of it behind and touches nothing else. */
  lemma DeletedIsGone(t: Tables, id: string, a: string, o: string)
    requires Agree(t) && id in t.sessions
    ensures var t' := Applied(t, Delete(id)).1;
            && id !in t'.sessions && id !in t'.rows
            && (a in t'.artifacts <==> a in t.artifacts && t.artifacts[a].session != id)
            && (a in t'.artifacts ==> t'.artifacts[a] == t.artifacts[a])
            && (o != id ==> (o in t'.sessions <==> o in t.sessions) && RowsFor(t'.rows, o) == RowsFor(t.rows, o))
    ensures NoOrphans(t) ==> NoOrphans(Applied(t, Delete(id)).1)
  {
  }

  /** No file loses its session, whether or not there are files that had none before. */
  ghost predicate NoneLosesItsSession(t: Tables, t': Tables) {
    forall a :: a in t'.artifacts && t'.artifacts[a].session in t.sessions ==> t'.artifacts[a].session in t'.sessions
  }

  /** A filtered deletion picks files by their own owner and tenant, not by their session: it leaves no file
      behind its session exactly when every file of a deleted session is itself picked. */
  lemma OrphansExactly(t: Tables, owner: Option<string>, tenant: Option<string>)
    requires owner.Some? || tenant.Some?
    ensures NoneLosesItsSession(t, Applied(t, DeleteAll(owner, tenant)).1) <==>
              forall a :: a in t.artifacts && t.artifacts[a].session in t.sessions
                          && Selected(t.sessions[t.artifacts[a].session], owner, tenant)
                ==> SelectedArtifact(t.artifacts[a], owner, tenant)
  {
    var t' := Applied(t, DeleteAll(owner, tenant)).1;
    forall a | a in t.artifacts
      ensures a in t'.artifacts <==> !SelectedArtifact(t.artifacts[a], owner, tenant)
      ensures t.artifacts[a].session in t.sessions ==>
                (t.artifacts[a].session in t'.sessions <==> !Selected(t.sessions[t.artifacts[a].session], owner, tenant))
    {
    }
  }

  /** A file of a stored session has the session's owner and tenant; the session of a file need not be stored,
      since a chat run registers its files before it stores the session. */
  predicate MatchedFile(t: Tables, a: Artifact) {
    a.session in t.sessions ==> t.sessions[a.session].owner == a.owner && t.sessions[a.session].tenant == a.tenant
  }

  ghost predicate Matched(t: Tables) {
    forall a :: a in t.artifacts ==> MatchedFile(t, t.artifacts[a])
  }

  /** A session is stored under the owner and tenant of the files that are registered for it. */
  ghost predicate FitsItsFiles(t: Tables, id: string, row: SessionRow) {
    forall a :: a in t.artifacts && t.artifacts[a].session == id ==>
                  t.artifacts[a].owner == row.owner && t.artifacts[a].tenant == row.tenant
  }

  /** The operation gives no session to somebody who does not own its files, and no file to a session of
      somebody else. */
  ghost predicate KeepsOwners(t: Tables, op: Op) {
    match op
    case Upsert(id, row) => Storable(row.payload) ==> FitsItsFiles(t, id, row)
    case AddArtifact(id, a) => id !in t.artifacts ==> MatchedFile(t, a)
    case _ => true
  }

  /** That is exactly what keeps files and sessions matched. */
  lemma MatchedExactly(t: Tables, op: Op)
    requires Matched(t)
    ensures Matched(Applied(t, op).1) <==> KeepsOwners(t, op)
  {
    match op
    case Upsert(id, row) => UpsertMatches(t, id, row);
    case AddArtifact(id, a) => AddMatches(t, id, a);
    case _ => OthersMatch(t, op);
  }

  lemma UpsertMatches(t: Tables, id: string, row: SessionRow)
    requires Matched(t)
    ensures Matched(Applied(t, Upsert(id, row)).1) <==> KeepsOwners(t, Upsert(id, row))
  {
    var t' := Applied(t, Upsert(id, row)).1;
    if Storable(row.payload) {
      forall a | a in t.artifacts
        ensures MatchedFile(t', t.artifacts[a]) <==>
                (t.artifacts[a].session == id ==> t.artifacts[a].owner == row.owner && t.artifacts[a].tenant == row.tenant)
      {
        assert MatchedFile(t, t.artifacts[a]);
      }
    }
  }

  lemma AddMatches(t: Tables, id: string, a: Artifact)
    requires Matched(t)
    ensures Matched(Applied(t, AddArtifact(id, a)).1) <==> KeepsOwners(t, AddArtifact(id, a))
  {
    var t' := Applied(t, AddArtifact(id, a)).1;
    if id !in t.artifacts {
      forall b | b in t'.artifacts
        ensures MatchedFile(t', t'.artifacts[b]) <==> (b == id ==> MatchedFile(t, a))
      {
        assert b != id ==> MatchedFile(t, t.artifacts[b]);
      }
      assert id in t'.artifacts;
    }
  }

  lemma OthersMatch(t: Tables, op: Op)
    requires Matched(t) && !op.Upsert? && !op.AddArtifact?
    ensures Matched(Applied(t, op).1)
  {
    var t' := Applied(t, op).1;
    forall a | a in t'.artifacts
      ensures MatchedFile(t', t'.artifacts[a])
    {
      assert MatchedFile(t, t.artifacts[a]);
    }
  }

  ghost predicate KeepsOwnersAt(t: Tables, ops: seq<Op>, i: nat)
    requires i < |ops|
  {
    KeepsOwners(Run(t, ops[..i]), ops[i])
  }

  ghost predicate OwnersKept(t: Tables, ops: seq<Op>) { forall i :: 0 <= i < |ops| ==> KeepsOwnersAt(t, ops, i) }

  lemma OwnersKeptBefore(t: Tables, ops: seq<Op>, n: nat)
    requires OwnersKept(t, ops) && n <= |ops|
    ensures OwnersKept(t, ops[..n])
  {
    forall i | 0 <= i < n
      ensures KeepsOwnersAt(t, ops[..n], i)
    {
      assert ops[..n][..i] == ops[..i] && KeepsOwnersAt(t, ops, i);
    }
  }

  /** While sessions and their files go to the same owners, files and stored sessions match in every run. */
  lemma {:induction false} RunKeepsMatched(t: Tables, ops: seq<Op>)
    requires Matched(t) && OwnersKept(t, ops)
    ensures Matched(Run(t, ops))
  {
    if ops != [] {
      var n := |ops| - 1;
      OwnersKeptBefore(t, ops, n);
      RunKeepsMatched(t, ops[..n]);
      assert KeepsOwnersAt(t, ops, n);
      MatchedExactly(Run(t, ops[..n]), ops[n]);
    }
  }

  /** Then a filtered deletion takes a file of a stored session exactly when it takes the session. */
  lemma DeletedWithTheirSession(t: Tables, owner: Option<string>, tenant: Option<string>, a: string)
    requires Matched(t) && a in t.artifacts && t.artifacts[a].session in t.sessions
    ensures var t' := Applied(t, DeleteAll(owner, tenant)).1;
            a in t'.artifacts <==> t.artifacts[a].session in t'.sessions
  {
    assert MatchedFile(t, t.artifacts[a]);
  }

  // ---------- files without a session ----------

  /** The file was registered by this operation. */
  predicate RegisteredAt(t: Tables, ops: seq<Op>, a: string, i: nat)
    requires i < |ops|
  {
    ops[i].AddArtifact? && ops[i].id == a && a !in Run(t, ops[..i]).artifacts
  }

  /** The session is stored after j operations. */
  predicate StoredAt(t: Tables, ops: seq<Op>, session: string, j: nat)
    requires j <= |ops|
  {
    session in Run(t, ops[..j]).sessions
  }

  /** At no moment from operation i on was the session stored. */
  ghost predicate NeverStoredSince(t: Tables, ops: seq<Op>, session: string, i: nat) {
    forall j :: i <= j <= |ops| ==> !StoredAt(t, ops, session, j)
  }

  /** An operation that keeps a file does not take its session away. */
  lemma SessionStays(t: Tables, op: Op, a: string)
    requires Matched(t) && a in t.artifacts && a in Applied(t, op).1.artifacts
    ensures Applied(t, op).1.artifacts[a] == t.artifacts[a]
    ensures t.artifacts[a].session in t.sessions ==> t.artifacts[a].session in Applied(t, op).1.sessions
  {
    assert MatchedFile(t, t.artifacts[a]);
  }

  /** While sessions and their files go to the same owners, a file is without its session exactly if the session
      has not been stored at any moment since the file was registered: on the first turn of a session, where
      storing it failed, or where the run had no session. */
  lemma {:induction false} OrphansNeverHadASession(t: Tables, ops: seq<Op>, a: string) returns (i: nat)
    requires t.artifacts == map[] && OwnersKept(t, ops) && a in Run(t, ops).artifacts
    ensures i < |ops| && RegisteredAt(t, ops, a, i) && ops[i].artifact == Run(t, ops).artifacts[a]
    ensures var session := Run(t, ops).artifacts[a].session;
            session !in Run(t, ops).sessions <==> NeverStoredSince(t, ops, session, i)
  {
    var n := |ops| - 1;
    assert ops != [];
    var front, before := ops[..n], Run(t, ops[..n]);
    OwnersKeptBefore(t, ops, n);
    RunKeepsMatched(t, front);
    if a in before.artifacts {
      SessionStays(before, ops[n], a);
      i := OrphansNeverHadASession(t, front, a);
      assert front[..i] == ops[..i];
      StoredSnoc(t, ops, before.artifacts[a].session, i);
    } else {
      i := n;
      NewFile(t, ops, a);
    }
  }

  lemma StoredBefore(t: Tables, ops: seq<Op>, session: string, n: nat, j: nat)
    requires j <= n <= |ops|
    ensures StoredAt(t, ops[..n], session, j) == StoredAt(t, ops, session, j)
  {
    assert ops[..n][..j] == ops[..j];
  }

  lemma StoredNow(t: Tables, ops: seq<Op>, session: string)
    ensures StoredAt(t, ops, session, |ops|) <==> session in Run(t, ops).sessions
  {
    assert ops[..|ops|] == ops;
  }

  lemma StoredSnoc(t: Tables, ops: seq<Op>, session: string, i: nat)
    requires ops != [] && i < |ops|
    ensures NeverStoredSince(t, ops, session, i) <==>
              NeverStoredSince(t, ops[..|ops| - 1], session, i) && session !in Run(t, ops).sessions
  {
    StoredNow(t, ops, session);
    var front := ops[..|ops| - 1];
    if NeverStoredSince(t, ops, session, i) {
      forall j | i <= j <= |front|
        ensures !StoredAt(t, front, session, j)
      {
        StoredBefore(t, ops, session, |front|, j);
      }
      assert !StoredAt(t, ops, session, |ops|);
    }
    if NeverStoredSince(t, front, session, i) && session !in Run(t, ops).sessions {
      forall j | i <= j <= |ops|
        ensures !StoredAt(t, ops, session, j)
      {
        if j <= |front| {
          StoredBefore(t, ops, session, |front|, j);
        }
      }
    }
  }

  lemma NewFile(t: Tables, ops: seq<Op>, a: string)
    requires ops != [] && a in Run(t, ops).artifacts && a !in Run(t, ops[..|ops| - 1]).artifacts
    ensures var n := |ops| - 1;
            && RegisteredAt(t, ops, a, n) && ops[n].artifact == Run(t, ops).artifacts[a]
            && Run(t, ops).sessions == Run(t, ops[..n]).sessions
    ensures var n, session := |ops| - 1, Run(t, ops).artifacts[a].session;
            session !in Run(t, ops).sessions <==> NeverStoredSince(t, ops, session, n)
  {
    AddedNow(Run(t, ops[..|ops| - 1]), ops[|ops| - 1], a);
    SinceTheLast(t, ops, Run(t, ops).artifacts[a].session);
  }

  lemma AddedNow(t: Tables, op: Op, a: string)
    requires a !in t.artifacts && a in Applied(t, op).1.artifacts
    ensures op.AddArtifact? && op.id == a && op.artifact == Applied(t, op).1.artifacts[a]
    ensures Applied(t, op).1.sessions == t.sessions
  {
  }

  lemma SinceTheLast(t: Tables, ops: seq<Op>, session: string)
    requires ops != [] && Run(t, ops).sessions == Run(t, ops[..|ops| - 1]).sessions
    ensures session !in Run(t, ops).sessions <==> NeverStoredSince(t, ops, session, |ops| - 1)
  {
    var n := |ops| - 1;
    StoredNow(t, ops, session);
    if session in Run(t, ops).sessions {
      assert StoredAt(t, ops, session, n + 1);
    } else {
      forall j | n <= j <= |ops|
        ensures !StoredAt(t, ops, session, j)
      {
        assert j == n || j == n + 1;
      }
    }
  }

  /** A session that changed hands: deleting the new owner's sessions leaves its file behind without it, deleting
      the old owner's takes the file and leaves the session. */
  lemma ChangedHands(id: string, row: SessionRow, other: string, a: string)
    requires Storable(row.payload) && other != row.owner
    ensures var handed := Run(Tables(map[], map[], map[]),
                              [Upsert(id, row), AddArtifact(a, Artifact(id, row.owner, row.tenant)), Upsert(id, row.(owner := other))]);
            && NoOrphans(handed)
            && (var t := Applied(handed, DeleteAll(Some(other), None)).1; a in t.artifacts && id !in t.sessions && !NoOrphans(t))
            && (var t := Applied(handed, DeleteAll(Some(row.owner), None)).1; a !in t.artifacts && id in t.sessions)
  {
    var file := Artifact(id, row.owner, row.tenant);
    var t0 := Tables(map[], map[], map[]);
    var ops := [Upsert(id, row), AddArtifact(a, file), Upsert(id, row.(owner := other))];
    assert ops[..2][..1] == [Upsert(id, row)] && ops[..2][1] == AddArtifact(a, file) && [Upsert(id, row)][..0] == [];
    var t1 := Applied(t0, Upsert(id, row)).1;
    var t2 := Applied(t1, AddArtifact(a, file)).1;
    assert Run(t0, [Upsert(id, row)]) == t1;
    assert Run(t0, ops[..2]) == t2;
    var handed := Applied(t2, Upsert(id, row.(owner := other))).1;
    assert Run(t0, ops) == handed;
    assert handed.artifacts == map[a := file] && id in handed.sessions && handed.sessions[id].owner == other;
  }

  // ---------- what is stored of a session, from its history ----------

  /** Operation n stores the session. */
  predicate StoresAt(ops: seq<Op>, id: string, n: nat)
    requires n < |ops|
  {
    ops[n].Upsert? && ops[n].id == id && Storable(ops[n].row.payload)
  }

  predicate RenamesAt(ops: seq<Op>, id: string, n: nat)
    requires n < |ops|
  {
    ops[n].Rename? && ops[n].id == id
  }

  /** Operation i stored the session when it was not there, and it has been there ever since. */
  ghost predicate CreatedBy(t: Tables, ops: seq<Op>, id: string, i: nat) {
    && i < |ops| && StoresAt(ops, id, i) && !StoredAt(t, ops, id, i)
    && forall n :: i < n <= |ops| ==> StoredAt(t, ops, id, n)
  }

  ghost predicate LastStoredBy(ops: seq<Op>, id: string, j: nat) {
    j < |ops| && StoresAt(ops, id, j) && forall n :: j < n < |ops| ==> !StoresAt(ops, id, n)
  }

  /** Operation r is the last renaming after operation j, if there is one. */
  ghost predicate LastRenamedBy(ops: seq<Op>, id: string, j: nat, r: Option<nat>) {
    if r.Some? then j < r.value < |ops| && RenamesAt(ops, id, r.value) && forall n :: r.value < n < |ops| ==> !RenamesAt(ops, id, n)
    else forall n :: j < n < |ops| ==> !RenamesAt(ops, id, n)
  }

  /** A stored session was created when it last came to be, and otherwise holds what it was last stored with, under
      the title and time of its last renaming since. */
  ghost predicate HoldsHistory(ops: seq<Op>, id: string, row: SessionRow, i: nat, j: nat, r: Option<nat>)
    requires i < |ops| && StoresAt(ops, id, i) && LastStoredBy(ops, id, j) && LastRenamedBy(ops, id, j, r)
  {
    && row.createdAt == ops[i].row.createdAt
    && row.payload == ops[j].row.payload && row.model == ops[j].row.model && row.schemaVersion == ops[j].row.schemaVersion
    && row.owner == ops[j].row.owner && row.tenant == ops[j].row.tenant && row.principal == ops[j].row.principal
    && row.title == (if r.Some? then ops[r.value].title else ops[j].row.title)
    && row.updatedAt == (if r.Some? then ops[r.value].now else ops[j].row.updatedAt)
  }

  lemma LastStoredLater(ops: seq<Op>, id: string, j: nat)
    requires ops != [] && LastStoredBy(ops[..|ops| - 1], id, j) && !StoresAt(ops, id, |ops| - 1)
    ensures LastStoredBy(ops, id, j)
  {
    var front := ops[..|ops| - 1];
    forall n | j <= n < |front|
      ensures StoresAt(ops, id, n) == StoresAt(front, id, n)
    {
      assert ops[n] == front[n];
    }
  }

  lemma LastRenamedLater(ops: seq<Op>, id: string, j: nat, r: Option<nat>)
    requires ops != [] && LastRenamedBy(ops[..|ops| - 1], id, j, r) && j < |ops| - 1
    ensures LastRenamedBy(ops, id, j, if RenamesAt(ops, id, |ops| - 1) then Some(|ops| - 1) else r)
  {
    var front := ops[..|ops| - 1];
    forall n | j < n < |front|
      ensures RenamesAt(ops, id, n) == RenamesAt(front, id, n)
    {
      assert ops[n] == front[n];
    }
  }

  /** What one operation makes of a row that stays. */
  lemma RowAfter(t: Tables, op: Op, id: string)
    requires id in t.sessions && id in Applied(t, op).1.sessions
    ensures var row, row' := t.sessions[id], Applied(t, op).1.sessions[id];
            row' == if op.Upsert? && op.id == id && Storable(op.row.payload) then op.row.(createdAt := row.createdAt)
                    else if op.Rename? && op.id == id then row.(title := op.title, updatedAt := op.now)
                    else row
  {
  }

  lemma RowBegins(t: Tables, op: Op, id: string)
    requires id !in t.sessions && id in Applied(t, op).1.sessions
    ensures op.Upsert? && op.id == id && Storable(op.row.payload) && Applied(t, op).1.sessions[id] == op.row
  {
  }

  lemma HistoryLater(ops: seq<Op>, id: string, row: SessionRow, i: nat, j: nat, r: Option<nat>)
    requires ops != [] && i < |ops| - 1 && StoresAt(ops[..|ops| - 1], id, i) && !StoresAt(ops, id, |ops| - 1)
    requires LastStoredBy(ops[..|ops| - 1], id, j) && LastRenamedBy(ops[..|ops| - 1], id, j, r)
    requires HoldsHistory(ops[..|ops| - 1], id, row, i, j, r)
    ensures var r' := if RenamesAt(ops, id, |ops| - 1) then Some(|ops| - 1) else r;
            var row' := if RenamesAt(ops, id, |ops| - 1) then row.(title := ops[|ops| - 1].title, updatedAt := ops[|ops| - 1].now) else row;
            && LastStoredBy(ops, id, j) && LastRenamedBy(ops, id, j, r') && StoresAt(ops, id, i)
            && HoldsHistory(ops, id, row', i, j, r')
  {
    LastStoredLater(ops, id, j);
    LastRenamedLater(ops, id, j, r);
    assert ops[i] == ops[..|ops| - 1][i] && ops[j] == ops[..|ops| - 1][j];
    assert r.Some? ==> ops[r.value] == ops[..|ops| - 1][r.value];
  }

  lemma {:induction false} SessionOfHistory(t: Tables, ops: seq<Op>, id: string) returns (i: nat, j: nat, r: Option<nat>)
    requires id !in t.sessions && id in Run(t, ops).sessions
    ensures CreatedBy(t, ops, id, i) && i <= j && LastStoredBy(ops, id, j) && LastRenamedBy(ops, id, j, r)
    ensures HoldsHistory(ops, id, Run(t, ops).sessions[id], i, j, r)
  {
    assert ops != [];
    var n := |ops| - 1;
    var before, op := Run(t, ops[..n]), ops[n];
    StoredNow(t, ops, id);
    if id !in before.sessions {
      RowBegins(before, op, id);
      i, j, r := n, n, None;
      assert CreatedBy(t, ops, id, n);
    } else {
      RowAfter(before, op, id);
      i, j, r := SessionOfHistory(t, ops[..n], id);
      CreatedLater(t, ops, id, i);
      if StoresAt(ops, id, n) {
        j, r := n, None;
      } else {
        HistoryLater(ops, id, before.sessions[id], i, j, r);
        r := if RenamesAt(ops, id, n) then Some(n) else r;
      }
    }
  }

  lemma CreatedLater(t: Tables, ops: seq<Op>, id: string, i: nat)
    requires ops != [] && CreatedBy(t, ops[..|ops| - 1], id, i) && StoredAt(t, ops, id, |ops|)
    ensures CreatedBy(t, ops, id, i)
  {
    var n := |ops| - 1;
    StoredBefore(t, ops, id, n, i);
    forall k | i < k <= |ops|
      ensures StoredAt(t, ops, id, k)
    {
      if k <= n {
        StoredBefore(t, ops, id, n, k);
      }
    }
  }

  /** A deletion by owner or tenant removes exactly the sessions that match each one that is given; without any it
      removes everything. */
  lemma DeleteAllExactly(t: Tables, owner: Option<string>, tenant: Option<string>, id: string)
    ensures var t' := Applied(t, DeleteAll(owner, tenant)).1;
            && (id in t'.sessions <==>
                  && id in t.sessions
                  && ((owner.Some? && t.sessions[id].owner != owner.value) || (tenant.Some? && t.sessions[id].tenant != tenant.value)))
            && (id in t'.sessions ==> t'.sessions[id] == t.sessions[id] && RowsFor(t'.rows, id) == RowsFor(t.rows, id))
            && (id in t'.artifacts <==>
                  && id in t.artifacts
                  && ((owner.Some? && t.artifacts[id].owner != owner.value) || (tenant.Some? && t.artifacts[id].tenant != tenant.value)))
            && (id in t'.artifacts ==> t'.artifacts[id] == t.artifacts[id])
  {
  }

  /** What an operation tells its caller. */
  lemma ResultsExactly(t: Tables, op: Op)
    ensures Applied(t, op).0 == NotFound <==> (op.Rename? || op.Delete?) && op.id !in t.sessions
    ensures Applied(t, op).0 == WriteFailed <==>
              (op.Upsert? && !Storable(op.row.payload)) || (op.AddArtifact? && op.id in t.artifacts)
    ensures Applied(t, op).0 != Success ==> Applied(t, op).1 == t
  {
  }
}
