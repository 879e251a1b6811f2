/** The full-text projection of backend/app/core/database.py: four triggers and a startup
    repair keep `session_messages_fts` equal to a join of messages and chat sessions. */
module SearchProjection {
  import opened Prelude

  datatype Message = Message(workspace: string, session: string, role: Option<string>, content: Option<string>,
                             status: string)
  datatype Session = Session(workspace: string, title: Option<string>, goal: Option<string>, graph: Option<string>)
  datatype Row = Row(id: string, workspace: string, session: string, title: Option<string>, terms: string, raw: string)

  /** `fts` is a bag in row order: nothing in the table itself forbids two rows of one message. */
  datatype Db = Db(messages: map<string, Message>, sessions: map<string, Session>, fts: seq<Row>)

  /* ---- The reference: a plain join ---- */

  function Text(column: Option<string>): string {
    if column.Some? then column.value else ""
  }

  function Terms(m: Message, s: Session): string {
    Text(s.title) + " " + Text(m.role) + " " + Text(s.goal) + " " + Text(s.graph) + " " + Text(m.content)
  }

  /** The search text holds title, role, goal, graph and content in this order, whole and a blank
      apart; a missing column is empty. */
  lemma TermsHold(m: Message, s: Session)
    ensures var t := Terms(m, s);
            var role := |Text(s.title)| + 1;
            var goal := role + |Text(m.role)| + 1;
            var graph := goal + |Text(s.goal)| + 1;
            var content := graph + |Text(s.graph)| + 1;
            && |t| == content + |Text(m.content)|
            && t[..role] == Text(s.title) + " " && t[role..goal] == Text(m.role) + " "
            && t[goal..graph] == Text(s.goal) + " " && t[graph..content] == Text(s.graph) + " "
            && t[content..] == Text(m.content)
  {
    hide Text;
  }

  function RowOf(id: string, m: Message, s: Session): Row {
    Row(id, m.workspace, m.session, s.title, Terms(m, s), Text(m.content))
  }

  predicate Matched(db: Db, m: Message) {
    m.session in db.sessions && db.sessions[m.session].workspace == m.workspace
  }

  predicate Joins(db: Db, id: string) {
    id in db.messages && db.messages[id].status == "completed" && Matched(db, db.messages[id])
  }

  function JoinRow(db: Db, id: string): Row
    requires Joins(db, id)
  {
    RowOf(id, db.messages[id], db.sessions[db.messages[id].session])
  }

  function Join(db: Db): set<Row> {
    set id | id in db.messages && Joins(db, id) :: JoinRow(db, id)
  }

  /** The projection is the join: the same rows, each once. */
  ghost predicate Exact(db: Db) {
    multiset(db.fts) == multiset(Join(db))
  }

  /* ---- Row bags ---- */

  function Ids(rows: seq<Row>): set<string> { set r | r in rows :: r.id }

  predicate Distinct(rows: seq<Row>) {
    rows == [] || (rows[0].id !in Ids(rows[1..]) && Distinct(rows[1..]))
  }

  /** The working form of `Exact`: every row is a join row, no message twice, none missing. */
  ghost predicate Correct(db: Db) {
    && SoundRows(db, db.fts)
    && Distinct(db.fts)
    && forall id :: Joins(db, id) ==> id in Ids(db.fts)
  }

  ghost predicate SoundRows(db: Db, rows: seq<Row>) {
    forall r :: r in rows ==> Joins(db, r.id) && r == JoinRow(db, r.id)
  }

  lemma {:induction false} DistinctCounts(rows: seq<Row>)
    ensures Distinct(rows) ==> forall r :: r in rows ==> multiset(rows)[r] == 1
  {
    if rows != [] {
      DistinctCounts(rows[1..]);
      assert rows == [rows[0]] + rows[1..];
      if Distinct(rows) {
        forall r | r in rows ensures multiset(rows)[r] == 1 {
          assert r == rows[0] ==> r.id !in Ids(rows[1..]);
        }
      }
    }
  }

  lemma {:induction false} OnceMeansDistinct(rows: seq<Row>)
    requires forall r :: r in rows ==> multiset(rows)[r] == 1
    requires forall r, q :: r in rows && q in rows && r.id == q.id ==> r == q
    ensures Distinct(rows)
  {
    if rows != [] {
      var rest := rows[1..];
      assert rows == [rows[0]] + rest;
      forall q | q in rest ensures q.id != rows[0].id && multiset(rest)[q] == 1 {
        assert q in rows && multiset(rows)[q] == 1;
      }
      OnceMeansDistinct(rest);
    }
  }

  /** The two readings of "the projection is the join" agree on every database. */
  lemma ExactIsCorrect(db: Db)
    ensures Exact(db) <==> Correct(db)
  {
    var join := Join(db);
    forall id | Joins(db, id) ensures JoinRow(db, id) in join {}
    if Exact(db) {
      forall r | r in db.fts ensures Joins(db, r.id) && r == JoinRow(db, r.id) && multiset(db.fts)[r] == 1 {
        assert r in multiset(db.fts);
      }
      OnceMeansDistinct(db.fts);
      forall id | Joins(db, id) ensures id in Ids(db.fts) {
        assert JoinRow(db, id) in multiset(join);
        assert JoinRow(db, id) in db.fts;
      }
    }
    if Correct(db) {
      DistinctCounts(db.fts);
      forall r ensures multiset(db.fts)[r] == multiset(join)[r] {
        if r in join {
          var id :| id in db.messages && Joins(db, id) && r == JoinRow(db, id);
          var q :| q in db.fts && q.id == id;
          assert q == r;
          assert multiset(db.fts)[r] == 1;
        } else {
          assert r !in db.fts;
        }
      }
    }
  }

  /* ---- The statements and the triggers they fire ---- */

  /** DELETE FROM session_messages_fts WHERE message_id = id */
  function Without(rows: seq<Row>, id: string): seq<Row> {
    if rows == [] then [] else (if rows[0].id == id then [] else [rows[0]]) + Without(rows[1..], id)
  }

  /** INSERT ... SELECT ... WHERE s.id = session_id AND s.workspace_id = workspace_id */
  function Selected(db: Db, id: string, m: Message): seq<Row> {
    if Matched(db, m) then [RowOf(id, m, db.sessions[m.session])] else []
  }

  function InsertMessage(db: Db, id: string, m: Message): Db {
    if id in db.messages then db else
    db.(messages := db.messages[id := m],
        fts := db.fts + if m.status == "completed" then Selected(db, id, m) else [])
  }

  predicate UpdateFires(before: Message, after: Message) {
    before.status != "streaming" || after.status != "streaming"
  }

  function Resynced(db: Db, id: string, m: Message): seq<Row> {
    Without(db.fts, id) + if m.status == "completed" then Selected(db, id, m) else []
  }

  function UpdateMessage(db: Db, id: string, m: Message): Db {
    if id !in db.messages then db else
    db.(messages := db.messages[id := m],
        fts := if UpdateFires(db.messages[id], m) then Resynced(db, id, m) else db.fts)
  }

  function DeleteMessage(db: Db, id: string): Db {
    if id !in db.messages then db else db.(messages := db.messages - {id}, fts := Without(db.fts, id))
  }

  /** The row after the session trigger's in-place UPDATE ... FROM messages. */
  function Retitled(db: Db, sid: string, s: Session, r: Row): Row {
    if r.session == sid && r.workspace == s.workspace && r.id in db.messages && db.messages[r.id].status == "completed"
    then r.(title := s.title, terms := Terms(db.messages[r.id], s), raw := Text(db.messages[r.id].content))
    else r
  }

  function RetitleAll(db: Db, sid: string, s: Session, rows: seq<Row>): seq<Row> {
    if rows == [] then [] else [Retitled(db, sid, s, rows[0])] + RetitleAll(db, sid, s, rows[1..])
  }

  function UpdateSession(db: Db, sid: string, title: Option<string>, goal: Option<string>, graph: Option<string>): Db {
    if sid !in db.sessions then db else
    var before := db.sessions[sid];
    var after := before.(title := title, goal := goal, graph := graph);
    db.(sessions := db.sessions[sid := after],
        fts := if before != after then RetitleAll(db, sid, after, db.fts) else db.fts)
  }

  /** No trigger watches session inserts and deletes. */
  function InsertSession(db: Db, sid: string, s: Session): Db {
    if sid in db.sessions then db else db.(sessions := db.sessions[sid := s])
  }

  function DeleteSession(db: Db, sid: string): Db {
    db.(sessions := db.sessions - {sid})
  }

  /* ---- Each statement keeps the projection ---- */

  lemma {:induction false} WithoutRows(rows: seq<Row>, id: string)
    ensures forall r :: r in Without(rows, id) <==> r in rows && r.id != id
    ensures Distinct(rows) ==> Distinct(Without(rows, id))
  {
    if rows != [] {
      WithoutRows(rows[1..], id);
      assert rows == [rows[0]] + rows[1..];
      var w := Without(rows, id);
      if rows[0].id != id {
        assert w[1..] == Without(rows[1..], id);
        assert Ids(w[1..]) <= Ids(rows[1..]);
      } else {
        assert w == Without(rows[1..], id);
      }
    }
  }

  lemma {:induction false} WithoutAbsent(rows: seq<Row>, id: string)
    requires id !in Ids(rows)
    ensures Without(rows, id) == rows
  {
    if rows != [] {
      assert rows == [rows[0]] + rows[1..];
      assert rows[0].id in Ids(rows);
      assert Ids(rows[1..]) <= Ids(rows);
      WithoutAbsent(rows[1..], id);
    }
  }

  lemma {:induction false} DistinctAppend(rows: seq<Row>, r: Row)
    ensures Distinct(rows + [r]) <==> Distinct(rows) && r.id !in Ids(rows)
  {
    if rows == [] {
      assert ([] + [r])[1..] == [];
    } else {
      var rest := rows[1..];
      DistinctAppend(rest, r);
      assert (rows + [r])[1..] == rest + [r];
      assert Ids(rest + [r]) == Ids(rest) + {r.id};
      assert rows == [rows[0]] + rest;
      assert Ids(rows) == {rows[0].id} + Ids(rest);
    }
  }

  lemma {:induction false} RetitleRows(db: Db, sid: string, s: Session, rows: seq<Row>)
    ensures var t := RetitleAll(db, sid, s, rows);
            && |t| == |rows|
            && (forall i :: 0 <= i < |rows| ==> t[i] == Retitled(db, sid, s, rows[i]))
            && Ids(t) == Ids(rows)
            && (Distinct(rows) <==> Distinct(t))
  {
    if rows != [] {
      RetitleRows(db, sid, s, rows[1..]);
      var t := RetitleAll(db, sid, s, rows);
      assert t[1..] == RetitleAll(db, sid, s, rows[1..]);
      assert rows == [rows[0]] + rows[1..] && t == [t[0]] + t[1..];
      assert Ids(rows) == {rows[0].id} + Ids(rows[1..]) && Ids(t) == {t[0].id} + Ids(t[1..]);
    }
  }

  lemma InsertMessageKeeps(db: Db, id: string, m: Message)
    requires Correct(db)
    ensures Correct(InsertMessage(db, id, m))
  {
    if id !in db.messages {
      var db' := InsertMessage(db, id, m);
      assert id !in Ids(db.fts);
      forall j | j != id ensures Joins(db', j) <==> Joins(db, j) {}
      if Joins(db', id) {
        DistinctAppend(db.fts, JoinRow(db', id));
        assert db'.fts == db.fts + [JoinRow(db', id)];
      } else {
        assert db'.fts == db.fts;
      }
      forall j | Joins(db', j) ensures j in Ids(db'.fts) {
        if j != id {
          var r :| r in db.fts && r.id == j;
          assert r in db'.fts;
        } else {
          assert JoinRow(db', id) in db'.fts;
        }
      }
    }
  }

  /** A changed message moves no other message in or out of the join, and changes no other row. */
  lemma OthersJoinAlike(db: Db, db': Db, id: string, m: Message, j: string)
    requires j != id && db'.sessions == db.sessions && db'.messages == db.messages[id := m]
    ensures Joins(db', j) <==> Joins(db, j)
    ensures Joins(db, j) ==> JoinRow(db', j) == JoinRow(db, j)
  {
  }

  lemma ResyncedRows(db: Db, id: string, m: Message)
    requires id in db.messages
    ensures var db' := db.(messages := db.messages[id := m], fts := Resynced(db, id, m));
            db'.fts == Without(db.fts, id) + if Joins(db', id) then [JoinRow(db', id)] else []
  {
  }

  /** Resynchronising one message leaves a correct projection whatever its new row is. */
  lemma ResyncKeeps(db: Db, id: string, m: Message)
    requires Correct(db) && id in db.messages
    ensures Correct(db.(messages := db.messages[id := m], fts := Resynced(db, id, m)))
  {
    var db' := db.(messages := db.messages[id := m], fts := Resynced(db, id, m));
    var kept := Without(db.fts, id);
    WithoutRows(db.fts, id);
    ResyncedRows(db, id, m);
    hide Resynced, Without, Joins, JoinRow;
    if Joins(db', id) {
      DistinctAppend(kept, JoinRow(db', id));
      JoinRowId(db', id);
    } else {
      assert kept + [] == kept;
    }
    forall r | r in db'.fts ensures Joins(db', r.id) && r == JoinRow(db', r.id) {
      if r.id != id { OthersJoinAlike(db, db', id, m, r.id); }
    }
    forall j | Joins(db', j) ensures j in Ids(db'.fts) {
      if j != id {
        OthersJoinAlike(db, db', id, m, j);
        var r :| r in db.fts && r.id == j;
        assert r in kept && r in db'.fts;
      } else {
        assert JoinRow(db', id) in db'.fts;
      }
    }
  }

  lemma JoinRowId(db: Db, id: string)
    requires Joins(db, id)
    ensures JoinRow(db, id).id == id
  {
  }

  /** The streaming skip is a refinement: on a correct projection the trigger with its WHEN
      clause leaves the same table as one that fires on every update. */
  lemma SkippedUpdateIsSound(db: Db, id: string, m: Message)
    requires Correct(db) && id in db.messages
    ensures UpdateMessage(db, id, m) == db.(messages := db.messages[id := m], fts := Resynced(db, id, m))
  {
    if !UpdateFires(db.messages[id], m) {
      assert !Joins(db, id);
      WithoutAbsent(db.fts, id);
      assert Resynced(db, id, m) == db.fts;
    }
  }

  lemma UpdateMessageKeeps(db: Db, id: string, m: Message)
    requires Correct(db)
    ensures Correct(UpdateMessage(db, id, m))
  {
    if id in db.messages {
      SkippedUpdateIsSound(db, id, m);
      ResyncKeeps(db, id, m);
    }
  }

  lemma DeleteMessageKeeps(db: Db, id: string)
    requires Correct(db)
    ensures Correct(DeleteMessage(db, id))
  {
    var db' := DeleteMessage(db, id);
    WithoutRows(db.fts, id);
    forall j | j != id ensures Joins(db', j) <==> Joins(db, j) {}
    forall j | Joins(db', j) ensures j in Ids(db'.fts) {
      var r :| r in db.fts && r.id == j;
      assert r in db'.fts;
    }
  }

  lemma RetitledJoins(db: Db, sid: string, s: Session, r: Row)
    requires sid in db.sessions && s.workspace == db.sessions[sid].workspace
    requires Joins(db, r.id) && r == JoinRow(db, r.id)
    ensures var db' := db.(sessions := db.sessions[sid := s]);
            Joins(db', r.id) && Retitled(db, sid, s, r) == JoinRow(db', r.id)
  {
  }

  lemma AllRetitled(db: Db, sid: string, s: Session, rows: seq<Row>, t: seq<Row>)
    requires |t| == |rows| && forall i :: 0 <= i < |rows| ==> t[i] == Retitled(db, sid, s, rows[i])
    ensures t == RetitleAll(db, sid, s, rows)
  {
    RetitleRows(db, sid, s, rows);
  }

  lemma RetitledRowJoins(db: Db, db': Db, sid: string, after: Session, i: nat)
    requires Correct(db) && sid in db.sessions && db' == db.(sessions := db.sessions[sid := after], fts := db'.fts)
    requires after.workspace == db.sessions[sid].workspace && i < |db.fts|
    requires i < |db'.fts| && db'.fts[i] == Retitled(db, sid, after, db.fts[i])
    ensures Joins(db', db'.fts[i].id) && db'.fts[i] == JoinRow(db', db'.fts[i].id)
  {
    assert db.fts[i] in db.fts;
    RetitledJoins(db, sid, after, db.fts[i]);
  }

  lemma RetitleJoinsAlike(db: Db, db': Db, sid: string, after: Session, j: string)
    requires sid in db.sessions && after.workspace == db.sessions[sid].workspace
    requires db'.messages == db.messages && db'.sessions == db.sessions[sid := after]
    ensures Joins(db', j) <==> Joins(db, j)
  {
  }

  lemma RetitledKeeps(db: Db, db': Db, sid: string, after: Session)
    requires Correct(db) && sid in db.sessions && after.workspace == db.sessions[sid].workspace
    requires db' == db.(sessions := db.sessions[sid := after], fts := RetitleAll(db, sid, after, db.fts))
    ensures Correct(db')
  {
    RetitleRows(db, sid, after, db.fts);
    hide RetitleAll, Retitled, JoinRow, Distinct, Joins;
    forall r | r in db'.fts ensures Joins(db', r.id) && r == JoinRow(db', r.id) {
      var i :| 0 <= i < |db'.fts| && db'.fts[i] == r;
      RetitledRowJoins(db, db', sid, after, i);
    }
    forall j | Joins(db', j) ensures j in Ids(db'.fts) { RetitleJoinsAlike(db, db', sid, after, j); }
  }

  lemma UpdateSessionKeeps(db: Db, sid: string, title: Option<string>, goal: Option<string>, graph: Option<string>)
    requires Correct(db)
    ensures Correct(UpdateSession(db, sid, title, goal, graph))
  {
    hide Correct, RetitleAll;
    if sid in db.sessions {
      var after := db.sessions[sid].(title := title, goal := goal, graph := graph);
      if db.sessions[sid] == after {
        assert db.sessions[sid := after] == db.sessions;
        assert UpdateSession(db, sid, title, goal, graph) == db;
      } else {
        RetitledKeeps(db, UpdateSession(db, sid, title, goal, graph), sid, after);
      }
    }
  }

  predicate Awaits(m: Message, sid: string, workspace: string) {
    m.status == "completed" && m.session == sid && m.workspace == workspace
  }

  /** A completed message of this session and workspace exists. */
  ghost predicate WaitingFor(db: Db, sid: string, workspace: string) {
    exists id :: id in db.messages && Awaits(db.messages[id], sid, workspace)
  }

  ghost predicate Uses(db: Db, sid: string) { exists id :: Joins(db, id) && db.messages[id].session == sid }

  /** What the triggers leave to the foreign key, exactly: a new session keeps the projection if and
      only if no completed message already refers to it, */
  lemma InsertSessionKeepsIff(db: Db, sid: string, s: Session)
    requires Correct(db) && sid !in db.sessions
    ensures Correct(InsertSession(db, sid, s)) <==>
            !WaitingFor(db, sid, s.workspace)
  {
    var db' := InsertSession(db, sid, s);
    if WaitingFor(db, sid, s.workspace) {
      var id :| id in db.messages && Awaits(db.messages[id], sid, s.workspace);
      assert Joins(db', id) && !Joins(db, id);
      assert id !in Ids(db'.fts);
    } else {
      forall j ensures Joins(db', j) <==> Joins(db, j) {}
    }
  }

  /** and a session delete keeps it if and only if no projected message refers to it. */
  lemma DeleteSessionKeepsIff(db: Db, sid: string)
    requires Correct(db)
    ensures Correct(DeleteSession(db, sid)) <==> !Uses(db, sid)
  {
    var db' := DeleteSession(db, sid);
    if id :| Joins(db, id) && db.messages[id].session == sid {
      var r :| r in db.fts && r.id == id;
      assert r in db'.fts && !Joins(db', id);
    } else {
      forall j ensures Joins(db', j) <==> Joins(db, j) {}
    }
  }

  /* ---- Whole runs ---- */

  datatype Op =
    | InsertM(id: string, m: Message)
    | UpdateM(id: string, m: Message)
    | DeleteM(id: string)
    | UpdateS(sid: string, title: Option<string>, goal: Option<string>, graph: Option<string>)
    | InsertS(sid: string, s: Session)
    | DeleteS(sid: string)

  function Apply(db: Db, op: Op): Db {
    match op
    case InsertM(id, m) => InsertMessage(db, id, m)
    case UpdateM(id, m) => UpdateMessage(db, id, m)
    case DeleteM(id) => DeleteMessage(db, id)
    case UpdateS(sid, title, goal, graph) => UpdateSession(db, sid, title, goal, graph)
    case InsertS(sid, s) => InsertSession(db, sid, s)
    case DeleteS(sid) => DeleteSession(db, sid)
  }

  /** What the projection needs of a statement: by `InsertSessionKeepsIff` and `DeleteSessionKeepsIff`
      exactly that sessions come before their completed messages and go after them. */
  ghost predicate Admissible(db: Db, op: Op) {
    match op
    case InsertS(sid, s) => sid !in db.sessions ==> !WaitingFor(db, sid, s.workspace)
    case DeleteS(sid) => !Uses(db, sid)
    case _ => true
  }

  lemma ApplyKeeps(db: Db, op: Op)
    requires Correct(db) && Admissible(db, op)
    ensures Correct(Apply(db, op))
  {
    match op
    case InsertM(id, m) => InsertMessageKeeps(db, id, m);
    case UpdateM(id, m) => UpdateMessageKeeps(db, id, m);
    case DeleteM(id) => DeleteMessageKeeps(db, id);
    case UpdateS(sid, title, goal, graph) => UpdateSessionKeeps(db, sid, title, goal, graph);
    case InsertS(sid, s) => if sid !in db.sessions { InsertSessionKeepsIff(db, sid, s); }
    case DeleteS(sid) => DeleteSessionKeepsIff(db, sid);
  }

  /** The foreign key from messages to sessions. */
  ghost predicate Referential(db: Db) { forall id :: id in db.messages ==> db.messages[id].session in db.sessions }

  ghost predicate Referred(db: Db, sid: string) { exists id :: id in db.messages && db.messages[id].session == sid }

  /** Every connection enforces the key, and the key has no cascade: a statement that would leave a
      message without its session is rejected. */
  ghost predicate Rejected(db: Db, op: Op) {
    match op
    case InsertM(_, m) => m.session !in db.sessions
    case UpdateM(id, m) => id in db.messages && m.session !in db.sessions
    case DeleteS(sid) => Referred(db, sid)
    case _ => false
  }

  ghost function Enforce(db: Db, op: Op): Db { if Rejected(db, op) then db else Apply(db, op) }

  ghost function Run(db: Db, ops: seq<Op>): Db
    decreases |ops|
  {
    if ops == [] then db else Run(Enforce(db, ops[0]), ops[1..])
  }

  /** With the key enforced, every statement that is not rejected is one the projection can bear. */
  lemma KeyMakesAdmissible(db: Db, op: Op)
    requires Referential(db) && !Rejected(db, op)
    ensures Admissible(db, op) && Referential(Apply(db, op))
  {
  }

  /** Main result. From an exact projection every sequence of statements, in any order, leaves an
      exact one: the foreign key rejects those that would not. */
  lemma {:induction false} EveryRunIsExact(db: Db, ops: seq<Op>)
    requires Exact(db) && Referential(db)
    ensures Exact(Run(db, ops)) && Referential(Run(db, ops))
    decreases |ops|
  {
    hide Exact, Correct, Referential, Admissible, Apply, Rejected;
    if ops != [] {
      if !Rejected(db, ops[0]) {
        ExactIsCorrect(db);
        KeyMakesAdmissible(db, ops[0]);
        ApplyKeeps(db, ops[0]);
        ExactIsCorrect(Apply(db, ops[0]));
      }
      EveryRunIsExact(Enforce(db, ops[0]), ops[1..]);
    }
  }

  function RunUnchecked(db: Db, ops: seq<Op>): Db
    decreases |ops|
  {
    if ops == [] then db else RunUnchecked(Apply(db, ops[0]), ops[1..])
  }

  ghost predicate AdmissibleRun(db: Db, ops: seq<Op>)
    decreases |ops|
  {
    ops == [] || (Admissible(db, ops[0]) && AdmissibleRun(Apply(db, ops[0]), ops[1..]))
  }

  /** On connections that do not enforce the key, admissible statements are enough. */
  lemma {:induction false} UncheckedRunIsExact(db: Db, ops: seq<Op>)
    requires Exact(db) && AdmissibleRun(db, ops)
    ensures Exact(RunUnchecked(db, ops))
    decreases |ops|
  {
    if ops != [] {
      ExactIsCorrect(db);
      ApplyKeeps(db, ops[0]);
      ExactIsCorrect(Apply(db, ops[0]));
      UncheckedRunIsExact(Apply(db, ops[0]), ops[1..]);
    }
  }

  /* ---- Startup repair ---- */

  predicate Survives(db: Db, r: Row) {
    r.id in db.messages && db.messages[r.id].status == "completed"
  }

  function Pruned(db: Db, rows: seq<Row>): seq<Row> {
    if rows == [] then [] else (if Survives(db, rows[0]) then [rows[0]] else []) + Pruned(db, rows[1..])
  }

  predicate NeedsPrune(db: Db) { exists r :: r in db.fts && !Survives(db, r) }

  function Missing(db: Db): set<string> { set id | id in db.messages && Joins(db, id) && id !in Ids(db.fts) }

  predicate NeedsBackfill(db: Db) { Missing(db) != {} }

  /** What one startup may leave: the surviving rows in order, then one join row, in any
      order, for each completed and matched message that had none. */
  ghost predicate Repaired(db: Db, db': Db) {
    var kept := Pruned(db, db.fts);
    && db'.messages == db.messages && db'.sessions == db.sessions
    && |kept| <= |db'.fts| && db'.fts[..|kept|] == kept
    && var added := db'.fts[|kept|..];
       SoundRows(db, added) && Distinct(added) && Ids(added) == Missing(db.(fts := kept))
  }

  lemma {:induction false} PrunedRows(db: Db, rows: seq<Row>)
    ensures forall r :: r in Pruned(db, rows) <==> r in rows && Survives(db, r)
    ensures (forall r :: r in rows ==> Survives(db, r)) ==> Pruned(db, rows) == rows
  {
    if rows != [] {
      PrunedRows(db, rows[1..]);
      assert rows == [rows[0]] + rows[1..];
    }
  }

  lemma {:induction false} DistinctConcat(a: seq<Row>, b: seq<Row>)
    requires Ids(a) !! Ids(b) && Distinct(b)
    ensures Distinct(a + b) <==> Distinct(a)
  {
    if a == [] {
      assert a + b == b;
    } else {
      var rest := a[1..];
      assert a == [a[0]] + rest && (a + b)[1..] == rest + b;
      assert a[0].id in Ids(a) && Ids(rest) <= Ids(a);
      assert Ids(rest + b) == Ids(rest) + Ids(b);
      DistinctConcat(rest, b);
    }
  }

  /** The parts of a repaired table. */
  lemma RepairedParts(db: Db, db': Db)
    requires Repaired(db, db')
    ensures var kept := Pruned(db, db.fts);
            var added := db'.fts[|kept|..];
            && db'.fts == kept + added && Ids(db'.fts) == Ids(kept) + Ids(added) && Ids(kept) !! Ids(added)
            && (forall j :: Joins(db, j) ==> j in Ids(db'.fts))
            && (Distinct(db'.fts) <==> Distinct(kept))
  {
    var kept := Pruned(db, db.fts);
    var added := db'.fts[|kept|..];
    assert db'.fts == kept + added;
    assert Ids(db'.fts) == Ids(kept) + Ids(added);
    DistinctConcat(kept, added);
    forall j | Joins(db, j) ensures j in Ids(db'.fts) {
      assert j !in Ids(kept) ==> j in Missing(db.(fts := kept));
    }
  }

  lemma RepairedRowsAreSoundIff(db: Db, db': Db)
    requires Repaired(db, db')
    ensures SoundRows(db', db'.fts) <==> SoundRows(db, Pruned(db, db.fts))
    ensures forall j :: Joins(db', j) <==> Joins(db, j)
  {
    var kept := Pruned(db, db.fts);
    var added := db'.fts[|kept|..];
    hide Missing, Pruned, Distinct;
    assert db'.fts == kept + added;
    SoundConcat(db, kept, added);
    forall j ensures Joins(db', j) <==> Joins(db, j) {}
    forall r ensures Joins(db', r) ==> JoinRow(db', r) == JoinRow(db, r) {}
  }

  lemma SoundConcat(db: Db, a: seq<Row>, b: seq<Row>)
    ensures SoundRows(db, a + b) <==> SoundRows(db, a) && SoundRows(db, b)
  {
    forall r ensures r in a + b <==> r in a || r in b {}
    if SoundRows(db, a + b) {
      forall r | r in a ensures Joins(db, r.id) && r == JoinRow(db, r.id) { assert r in a + b; }
      forall r | r in b ensures Joins(db, r.id) && r == JoinRow(db, r.id) { assert r in a + b; }
    }
  }

  /** Startup restores the join if and only if the rows of completed messages that were there
      before it are join rows, one per message: it never looks at their contents. */
  lemma RepairRestoresIff(db: Db, db': Db)
    requires Repaired(db, db')
    ensures Exact(db') <==> SoundRows(db, Pruned(db, db.fts)) && Distinct(Pruned(db, db.fts))
  {
    hide Exact;
    ExactIsCorrect(db');
    RepairedParts(db, db');
    RepairedRowsAreSoundIff(db, db');
  }

  /** After any startup a second one has nothing to write, correct rows or not. */
  lemma SecondStartupWritesNothing(db: Db, db': Db)
    requires Repaired(db, db')
    ensures !NeedsPrune(db') && !NeedsBackfill(db')
  {
    PrunedRows(db, db.fts);
    RepairedParts(db, db');
    forall id | Joins(db', id) ensures id in Ids(db'.fts) { assert Joins(db, id); }
  }

  /* ---- The database object ---- */

  /** The three tables, updated in place. */
  class Database {
    var messages: map<string, Message>
    var sessions: map<string, Session>
    var fts: seq<Row>

    function View(): Db
      reads this
    {
      Db(messages, sessions, fts)
    }

    constructor ()
      ensures View() == Db(map[], map[], [])
    {
      messages, sessions, fts := map[], map[], [];
    }

    method OnInsertMessage(id: string, m: Message)
      requires id !in messages
      modifies this
      ensures View() == old(InsertMessage(View(), id, m))
    {
      messages := messages[id := m];
      if m.status == "completed" {
        fts := fts + Selected(View(), id, m);
      }
      assert fts == old(InsertMessage(View(), id, m)).fts;
    }

    method OnUpdateMessage(id: string, m: Message)
      requires id in messages
      modifies this
      ensures View() == old(UpdateMessage(View(), id, m))
    {
      var before := messages[id];
      messages := messages[id := m];
      if before.status != "streaming" || m.status != "streaming" {
        fts := Without(fts, id);
        if m.status == "completed" {
          fts := fts + Selected(View(), id, m);
        }
        assert fts == old(Resynced(View(), id, m));
      }
    }

    method OnDeleteMessage(id: string)
      requires id in messages
      modifies this
      ensures View() == old(DeleteMessage(View(), id))
    {
      messages := messages - {id};
      fts := Without(fts, id);
    }

    method OnUpdateSession(sid: string, title: Option<string>, goal: Option<string>, graph: Option<string>)
      requires sid in sessions
      modifies this
      ensures View() == old(UpdateSession(View(), sid, title, goal, graph))
    {
      var before := sessions[sid];
      var after := before.(title := title, goal := goal, graph := graph);
      sessions := sessions[sid := after];
      if before != after {
        hide RetitleAll, Terms, Text;
        ghost var was := fts;
        var i := 0;
        while i < |fts|
          invariant 0 <= i <= |fts| == |was|
          invariant messages == old(messages) && sessions == old(sessions)[sid := after]
          invariant forall k :: 0 <= k < i ==> fts[k] == Retitled(old(View()), sid, after, was[k])
          invariant forall k :: i <= k < |was| ==> fts[k] == was[k]
        {
          var r := fts[i];
          if r.session == sid && r.workspace == after.workspace && r.id in messages && messages[r.id].status == "completed" {
            var m := messages[r.id];
            fts := fts[i := r.(title := after.title, terms := Terms(m, after), raw := Text(m.content))];
          }
          i := i + 1;
        }
        AllRetitled(old(View()), sid, after, was, fts);
      }
    }

    /** The backfill statement: one join row for each missing message. */
    method Backfill() returns (wrote: bool)
      modifies this`fts
      ensures |old(fts)| <= |fts| && fts[..|old(fts)|] == old(fts)
      ensures var added := fts[|old(fts)|..];
              SoundRows(old(View()), added) && Distinct(added) && Ids(added) == old(Missing(View()))
      ensures wrote <==> fts != old(fts)
    {
      wrote := false;
      ghost var db := View();
      var todo := Missing(View());
      ghost var added: seq<Row> := [];
      while todo != {}
        invariant fts == db.fts + added
        invariant SoundRows(db, added) && Distinct(added) && Ids(added) == Missing(db) - todo
        invariant todo <= Missing(db)
        invariant wrote <==> added != []
        decreases todo
      {
        var id :| id in todo;
        var row := RowOf(id, messages[id], sessions[messages[id].session]);
        DistinctAppend(added, row);
        fts := fts + [row];
        assert Ids(added + [row]) == Ids(added) + {id};
        added := added + [row];
        todo := todo - {id};
        wrote := true;
      }
      assert fts[|db.fts|..] == added;
    }

    /** Startup: probe, prune, probe, backfill. */
    method EnsureProjection() returns (wrote: bool)
      modifies this`fts
      ensures Repaired(old(View()), View())
      ensures wrote <==> old(NeedsPrune(View())) || old(NeedsBackfill(Db(messages, sessions, Pruned(View(), fts))))
      ensures !wrote ==> fts == old(fts)
    {
      wrote := false;
      ghost var db := View();
      PrunedRows(db, fts);
      if NeedsPrune(View()) {
        fts := Pruned(View(), fts);
        wrote := true;
      }
      ghost var kept := fts;
      assert kept == Pruned(db, db.fts);
      ghost var mid := View();
      if NeedsBackfill(View()) {
        var _ := Backfill();
        wrote := true;
      }
      assert forall j :: Joins(mid, j) <==> Joins(db, j);
      assert SoundRows(mid, fts[|kept|..]) ==> SoundRows(db, fts[|kept|..]);
    }
  }
}
