/** The database schema and `init_schema`, which creates the database and
    then runs the table definitions one statement at a time. The database
    server is modelled by the log of statements it has been sent. */
module Schema {
  import opened PyText

  /** The `DDL` text: the three `CREATE TABLE` statements, with the
      commented-out vector index after the first. It has no `{...}` fields, so
      `DDL.format(db=...)` is the text itself. */
  const Ddl: string :=
    "\nCREATE TABLE IF NOT EXISTS documents (\nid BIGINT PRIMARY KEY AUTO_INCREMENT,\n"
    + "source VARCHAR(255) NOT NULL,\nchunk_index INT NOT NULL,\ntext TEXT NOT NULL,\n"
    + "text_vec VECTOR(1024) NOT NULL\n);\n"
    + "-- Optional vector index (if supported by your TiDB version)\n"
    + "-- CREATE VECTOR INDEX vec_idx_text_vec ON documents (text_vec) USING HNSW "
    + "WITH (M=16, EF_CONSTRUCTION=200) DISTANCE COSINE;\n\n"
    + "CREATE TABLE IF NOT EXISTS chat_sessions (\nid BIGINT PRIMARY KEY AUTO_INCREMENT,\n"
    + "session_id VARCHAR(64) NOT NULL UNIQUE,\ncreated_at TIMESTAMP DEFAULT CURRENT_TIMESTAMP\n);\n\n"
    + "CREATE TABLE IF NOT EXISTS chat_messages (\nid BIGINT PRIMARY KEY AUTO_INCREMENT,\n"
    + "session_id VARCHAR(64) NOT NULL,\nrole ENUM('user','assistant') NOT NULL,\n"
    + "content TEXT NOT NULL,\ncreated_at TIMESTAMP DEFAULT CURRENT_TIMESTAMP,\n"
    + "INDEX idx_session_created (session_id, created_at),\n"
    + "FOREIGN KEY (session_id) REFERENCES chat_sessions(session_id)\n);\n"

  /** `session_id VARCHAR(64)` in both chat tables. */
  const MaxSessionIdLength := 64

  /** `role ENUM('user','assistant')`. */
  const Roles: set<string> := {"user", "assistant"}

  /** Each entry with a semicolon put back. */
  function Terminated(xs: seq<string>): (r: seq<string>)
    ensures |r| == |xs|
    ensures forall i :: 0 <= i < |xs| ==> r[i] == xs[i] + ";"
  {
    seq(|xs|, i requires 0 <= i < |xs| => xs[i] + ";")
  }

  /** The statements `init_schema` executes for the text `sql`: the pieces
      of the split stripped, the empty ones skipped, the others with a
      semicolon put back. */
  function Statements(sql: string): seq<string>
  {
    Terminated(StrippedNonBlank(Split(sql, ';')))
  }

  /** The statement that creates the database. */
  function CreateDatabase(db: string): string
  {
    "CREATE DATABASE IF NOT EXISTS " + db + ";"
  }

  /** No statement is empty or whitespace-only, and each holds exactly one
      semicolon, as its last character, because no piece of the split holds
      one. */
  lemma StatementsShape(sql: string)
    ensures forall j :: 0 <= j < |Statements(sql)| ==>
      var st := Statements(sql)[j];
      !AllSpace(st) && st[|st| - 1] == ';' && multiset(st)[';'] == 1
  {
    var ps := Split(sql, ';');
    var kept := StrippedNonBlank(ps);
    SplitShape(sql, ';');
    StrippedNonBlankShape(ps);
    StrippedNonBlankFree(ps, ';');
    forall j | 0 <= j < |kept|
      ensures var st := kept[j] + ";"; !AllSpace(st) && st[|st| - 1] == ';' && multiset(st)[';'] == 1
    {
      var st := kept[j] + ";";
      assert Trimmed(kept[j]);
      assert st[0] == kept[j][0];
      assert multiset(kept[j])[';'] == 0;
      assert multiset(st) == multiset(kept[j]) + multiset{';'};
    }
  }

  /** There is one statement per piece of the split that is not all
      whitespace. */
  lemma StatementsCount(sql: string)
    ensures var ps := Split(sql, ';');
      |Statements(sql)| == |set i | 0 <= i < |ps| && !AllSpace(ps[i])|
  {
    StrippedNonBlankCount(Split(sql, ';'));
  }

  /** The database server, as the log of the statements it has executed. */
  class SqlServer {
    var executed: seq<string>

    constructor ()
      ensures executed == []
    {
      executed := [];
    }

    /** `execute(conn, sql)`: one statement, committed. */
    method Execute(sql: string)
      modifies this`executed
      ensures executed == old(executed) + [sql]
    {
      executed := executed + [sql];
    }
  }

  /** The loop of `init_schema` over `sql.split(";")`. */
  method ExecuteScript(server: SqlServer, sql: string)
    modifies server`executed
    ensures server.executed == old(server.executed) + Statements(sql)
  {
    var pieces := Split(sql, ';');
    for i := 0 to |pieces|
      invariant server.executed == old(server.executed) + Terminated(StrippedNonBlank(pieces[..i]))
    {
      ghost var done := StrippedNonBlank(pieces[..i]);
      assert pieces[..i + 1][..i] == pieces[..i];
      var stmt := Strip(pieces[i]);
      if stmt == "" {
        assert StrippedNonBlank(pieces[..i + 1]) == done;
        continue;
      }
      assert StrippedNonBlank(pieces[..i + 1]) == done + [stmt];
      assert Terminated(done + [stmt]) == Terminated(done) + [stmt + ";"];
      server.Execute(stmt + ";");
    }
    assert pieces[..|pieces|] == pieces;
  }

  /** `init_schema`: the database is created first, then the tables. */
  method InitSchema(server: SqlServer, db: string)
    modifies server`executed
    ensures server.executed == old(server.executed) + [CreateDatabase(db)] + Statements(Ddl)
  {
    server.Execute(CreateDatabase(db));
    ExecuteScript(server, Ddl);
  }
}
