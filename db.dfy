/** The QueryMaster class: a configuration fixed at construction, one connection
    handle, and CRUD operations that hand SQL text and bound values to the driver.
    The driver itself is not modelled: an operation yields the Request it would
    send, or fails when the handle has been released by close. */
module Db {
  import opened Php
  import opened Sql
  import opened Binding

  const SupportedDbTypes: seq<string> := ["mysql", "pgsql", "sqlite"]

  const DefaultHost := "localhost"
  const DefaultUsername := "root"
  const DefaultPassword := ""
  const DefaultDbname := "your_database_name"

  datatype Error =
    | UnsupportedDatabaseType   // the exception thrown by the constructor
    | NoConnection              // a driver call on the null handle left by close
    | UndefinedMethod           // a PDO-only method called on a mysqli handle

  datatype Result<T> = Success(value: T) | Failure(error: Error)

  /** What connect opened: a mysqli handle on the four settings, or a PDO handle on a
      DSN with optional credentials; Closed is the null handle. */
  datatype Connection =
    | Closed
    | Mysqli(host: Value, username: Value, password: Value, dbname: Value)
    | Pdo(dsn: string, username: Value, password: Value)

  /** What an operation hands to the driver. */
  datatype Request =
    | Prepared(query: string, bindings: seq<Binding>)   // prepare, bind, execute
    | Exec(query: string)                               // exec, no parameters
    | Query(query: string)                              // query, no parameters

  // ---------------------------------------------------------------------------
  // Configuration and DSNs

  /** A configuration field after construction: the argument if truthy, else the default. */
  function Setting(arg: Value, default: string): Value {
    if Truthy(arg) then arg else Str(default)
  }

  /** An argument replaces the default exactly when it is truthy or already equal to it;
      in particular a password or database name of "0" is silently dropped. */
  lemma SettingKeepsDefaultUnlessTruthy(arg: Value, default: string)
    ensures Setting(arg, default) == arg <==> Truthy(arg) || arg == Str(default)
    ensures Setting(Str("0"), default) == Str(default)
    ensures Setting(Null, default) == Str(default)
  {
  }

  /** The PostgreSQL DSN connect builds. */
  function PgsqlDsn(host: Value, dbname: Value): string {
    "pgsql:host=" + Interpolate(host) + ";dbname=" + Interpolate(dbname)
  }

  /** The SQLite DSN connect builds: the database name is the file path. */
  function SqliteDsn(dbname: Value): string {
    "sqlite:" + Interpolate(dbname)
  }

  /** PDO chooses its driver by the text of the DSN before the first colon. */
  function DsnDriver(dsn: string): (d: string)
    ensures d <= dsn
    ensures ':' !in d
    ensures |d| < |dsn| ==> dsn[|d|] == ':'
  {
    if dsn == [] || dsn[0] == ':' then [] else [dsn[0]] + DsnDriver(dsn[1..])
  }

  /** The text after the first colon of a DSN, which the driver reads its settings from. */
  function DsnBody(dsn: string): string {
    var d := DsnDriver(dsn);
    if |d| < |dsn| then dsn[|d| + 1..] else []
  }

  lemma {:induction false} DsnOf(driver: string, body: string)
    requires ':' !in driver
    ensures DsnDriver(driver + ":" + body) == driver
    ensures DsnBody(driver + ":" + body) == body
    decreases |driver|
  {
    var dsn := driver + ":" + body;
    if driver == [] {
      assert dsn == ":" + body;
    } else {
      assert dsn[0] == driver[0];
      assert dsn[1..] == driver[1..] + ":" + body;
      DsnOf(driver[1..], body);
      assert [driver[0]] + driver[1..] == driver;
    }
  }

  /** The PostgreSQL DSN selects PDO's pgsql driver and carries host and database name. */
  lemma PgsqlDsnSelectsPgsql(host: Value, dbname: Value)
    ensures DsnDriver(PgsqlDsn(host, dbname)) == "pgsql"
    ensures DsnBody(PgsqlDsn(host, dbname)) == "host=" + Interpolate(host) + ";dbname=" + Interpolate(dbname)
  {
    var h, d := Interpolate(host), Interpolate(dbname);
    var body := "host=" + h + ";dbname=" + d;
    assert "pgsql:host=" == "pgsql" + ":" + "host=";
    calc {
      PgsqlDsn(host, dbname);
      "pgsql:host=" + h + ";dbname=" + d;
      ("pgsql" + ":" + "host=") + h + ";dbname=" + d;
      "pgsql" + ":" + body;
    }
    DsnOf("pgsql", body);
  }

  /** The SQLite DSN selects PDO's sqlite driver and carries the database file name. */
  lemma SqliteDsnSelectsSqlite(dbname: Value)
    ensures DsnDriver(SqliteDsn(dbname)) == "sqlite"
    ensures DsnBody(SqliteDsn(dbname)) == Interpolate(dbname)
  {
    assert SqliteDsn(dbname) == "sqlite" + ":" + Interpolate(dbname);
    DsnOf("sqlite", Interpolate(dbname));
  }

  /** The handle connect opens for a database type on the given settings
      (Closed for a type it does not know). */
  function Opened(dbType: string, host: Value, username: Value, password: Value, dbname: Value): Connection {
    if dbType == "mysql" then Mysqli(host, username, password, dbname)
    else if dbType == "pgsql" then Pdo(PgsqlDsn(host, dbname), username, password)
    else if dbType == "sqlite" then Pdo(SqliteDsn(dbname), Null, Null)
    else Closed
  }

  /** Every supported type opens a handle; mysql is the only one that opens mysqli, and
      PDO reads the driver back from the DSN as the type that chose it. */
  lemma OpenedHandleMatchesType(dbType: string, host: Value, username: Value, password: Value, dbname: Value)
    ensures Opened(dbType, host, username, password, dbname) != Closed <==> dbType in SupportedDbTypes
    ensures Opened(dbType, host, username, password, dbname).Mysqli? <==> dbType == "mysql"
    ensures Opened(dbType, host, username, password, dbname).Pdo? ==>
              DsnDriver(Opened(dbType, host, username, password, dbname).dsn) == dbType
  {
    if dbType == "pgsql" {
      PgsqlDsnSelectsPgsql(host, dbname);
    } else if dbType == "sqlite" {
      SqliteDsnSelectsSqlite(dbname);
    }
  }

  // ---------------------------------------------------------------------------
  // The class

  class QueryMaster {
    var connection: Connection
    var dbType: string
    var host: Value
    var username: Value
    var password: Value
    var dbname: Value

    /** The states the PHP object can be in: a supported database type, and either the
        handle connect opened on the current settings or, after close, none. */
    predicate Valid()
      reads this
    {
      dbType in SupportedDbTypes &&
      (connection == Closed || connection == Opened(dbType, host, username, password, dbname))
    }

    /** `new QueryMaster(...)`: an unsupported database type throws before any
        connection is attempted; otherwise the object is built and connected. */
    static method Construct(dbType: string := "mysql", host: Value := Null, username: Value := Null,
                            password: Value := Null, dbname: Value := Null)
      returns (r: Result<QueryMaster>)
      ensures r.Failure? <==> dbType !in SupportedDbTypes
      ensures r.Failure? ==> r.error == UnsupportedDatabaseType
      ensures r.Success? ==> fresh(r.value) && r.value.Valid()
      ensures r.Success? ==> r.value.dbType == dbType
      ensures r.Success? ==> r.value.host == Setting(host, DefaultHost)
      ensures r.Success? ==> r.value.username == Setting(username, DefaultUsername)
      ensures r.Success? ==> r.value.password == Setting(password, DefaultPassword)
      ensures r.Success? ==> r.value.dbname == Setting(dbname, DefaultDbname)
      ensures r.Success? ==>
                r.value.connection == Opened(dbType, Setting(host, DefaultHost), Setting(username, DefaultUsername),
                          Setting(password, DefaultPassword), Setting(dbname, DefaultDbname))
    {
      if dbType !in SupportedDbTypes {
        return Failure(UnsupportedDatabaseType);
      }
      var qm := new QueryMaster(dbType, host, username, password, dbname);
      r := Success(qm);
    }

    /** The constructor proper, for a database type already checked: each setting keeps
        its default unless its argument is truthy, then connect opens the handle. */
    constructor (dbType: string, host: Value, username: Value, password: Value, dbname: Value)
      requires dbType in SupportedDbTypes
      ensures this.dbType == dbType
      ensures this.host == Setting(host, DefaultHost)
      ensures this.username == Setting(username, DefaultUsername)
      ensures this.password == Setting(password, DefaultPassword)
      ensures this.dbname == Setting(dbname, DefaultDbname)
      ensures connection == Opened(dbType, this.host, this.username, this.password, this.dbname)
      ensures Valid()
    {
      this.dbType := dbType;
      this.host := Str(DefaultHost);
      this.username := Str(DefaultUsername);
      this.password := Str(DefaultPassword);
      this.dbname := Str(DefaultDbname);
      connection := Closed;
      new;
      if Truthy(host) { this.host := host; }
      assert this.host == Setting(host, DefaultHost);
      if Truthy(username) { this.username := username; }
      assert this.username == Setting(username, DefaultUsername);
      if Truthy(password) { this.password := password; }
      assert this.password == Setting(password, DefaultPassword);
      if Truthy(dbname) { this.dbname := dbname; }
      assert this.dbname == Setting(dbname, DefaultDbname);
      Connect();
    }

    /** connect: open the driver the database type names, on the configured settings. */
    method Connect()
      modifies this`connection
      ensures dbType in SupportedDbTypes ==> connection == Opened(dbType, host, username, password, dbname)
      ensures dbType !in SupportedDbTypes ==> connection == old(connection)
    {
      if dbType == "mysql" {
        connection := Mysqli(host, username, password, dbname);
      } else if dbType == "pgsql" {
        connection := Pdo(PgsqlDsn(host, dbname), username, password);
      } else if dbType == "sqlite" {
        connection := Pdo(SqliteDsn(dbname), Null, Null);
      }
    }

    /** close: release the handle; the configuration stays as it was. */
    method Close()
      requires Valid()
      modifies this`connection
      ensures connection == Closed && Valid()
      ensures dbType == old(dbType) && host == old(host) && username == old(username)
      ensures password == old(password) && dbname == old(dbname)
    {
      connection := Closed;
    }

    /** prepareAndBind: prepare the query on the handle and bind the parameters. */
    method PrepareAndBind(query: string, params: seq<Value>) returns (r: Result<Request>)
      requires Valid()
      ensures connection == Closed ==> r == Failure(NoConnection)
      ensures connection != Closed ==> r == Success(Prepared(query, Plan(dbType, params)))
    {
      if connection == Closed {
        return Failure(NoConnection);
      }
      var plan := BindParams(dbType, params);
      r := Success(Prepared(query, plan));
    }

    method Insert(table: string, data: Record) returns (r: Result<Request>)
      requires Valid()
      ensures connection == Closed ==> r == Failure(NoConnection)
      ensures connection != Closed ==> r == Success(Prepared(InsertQuery(table, data), Plan(dbType, Values(data))))
    {
      var columns := Implode(", ", Keys(data));
      var placeholders := Implode(", ", seq(|data|, _ => "?"));
      var query := "INSERT INTO " + table + " (" + columns + ") VALUES (" + placeholders + ")";
      r := PrepareAndBind(query, Values(data));
    }

    method Update(table: string, data: Record, condition: string) returns (r: Result<Request>)
      requires Valid()
      ensures connection == Closed ==> r == Failure(NoConnection)
      ensures connection != Closed ==> r == Success(Prepared(UpdateQuery(table, data, condition), Plan(dbType, Values(data))))
    {
      var setValues := SetValues(data);
      var query := "UPDATE " + table + " SET " + setValues + " WHERE " + condition;
      r := PrepareAndBind(query, Values(data));
    }

    /** delete: `exec` the statement. mysqli has no `exec` method, so on a mysqli handle
        the call fails and the statement never reaches the server. */
    method Delete(table: string, condition: string) returns (r: Result<Request>)
      requires Valid()
      ensures connection == Closed ==> r == Failure(NoConnection)
      ensures connection.Mysqli? ==> r == Failure(UndefinedMethod)
      ensures connection.Pdo? ==> r == Success(Exec(DeleteQuery(table, condition)))
      ensures connection != Closed ==> (r.Failure? <==> dbType == "mysql")
    {
      if connection == Closed {
        return Failure(NoConnection);
      }
      if connection.Mysqli? {
        return Failure(UndefinedMethod);
      }
      r := Success(Exec(DeleteQuery(table, condition)));
    }

    method Select(table: string, columns: string := "*", condition: string := "1", limit: Value := Null)
      returns (r: Result<Request>)
      requires Valid()
      ensures connection == Closed ==> r == Failure(NoConnection)
      ensures connection != Closed ==> r == Success(Query(SelectQuery(table, columns, condition, limit)))
    {
      if connection == Closed {
        return Failure(NoConnection);
      }
      r := Success(Query(SelectQuery(table, columns, condition, limit)));
    }

    /** getById: the only lookup whose condition value is bound rather than spliced in. */
    method GetById(table: string, id: Value) returns (r: Result<Request>)
      requires Valid()
      ensures connection == Closed ==> r == Failure(NoConnection)
      ensures connection != Closed ==> r == Success(Prepared(GetByIdQuery(table), Plan(dbType, [id])))
    {
      r := PrepareAndBind(GetByIdQuery(table), [id]);
    }

    method FindByMany(table: string, condition: string, columns: string := "*") returns (r: Result<Request>)
      requires Valid()
      ensures connection == Closed ==> r == Failure(NoConnection)
      ensures connection != Closed ==> r == Success(Query(FindByManyQuery(table, condition, columns)))
    {
      if connection == Closed {
        return Failure(NoConnection);
      }
      r := Success(Query(FindByManyQuery(table, condition, columns)));
    }

    method FindByOne(table: string, condition: string, columns: string := "*") returns (r: Result<Request>)
      requires Valid()
      ensures connection == Closed ==> r == Failure(NoConnection)
      ensures connection != Closed ==> r == Success(Query(FindByOneQuery(table, condition, columns)))
    {
      if connection == Closed {
        return Failure(NoConnection);
      }
      r := Success(Query(FindByOneQuery(table, condition, columns)));
    }

    method Paginate(table: string, columns: string := "*", condition: string := "1", page: int := 1, limit: int := 10)
      returns (r: Result<Request>)
      requires Valid()
      ensures connection == Closed ==> r == Failure(NoConnection)
      ensures connection != Closed ==> r == Success(Query(
                FindByManyQuery(table, condition, columns)
                + " LIMIT " + IntToString(limit) + " OFFSET " + IntToString((page - 1) * limit)))
    {
      r := Select(table, columns, condition, Str(PaginateLimit(page, limit)));
      PaginateAlwaysLimits(table, columns, condition, page, limit);
    }
  }

  /** getById binds exactly one parameter, the id, whatever the database type, and its
      query text adds exactly one placeholder to the table name for it. */
  lemma GetByIdBindsOnlyTheId(dbType: string, table: string, id: Value, other: Value)
    ensures |Plan(dbType, [id])| == 1 && Plan(dbType, [id])[0].value == id
    ensures Plan(dbType, [id]) != Plan(dbType, [other]) <==> id != other
    ensures Count('?', GetByIdQuery(table)) == Count('?', table) + |Plan(dbType, [id])|
  {
    GetByIdArity(table);
    if Plan(dbType, [id]) == Plan(dbType, [other]) {
      assert Plan(dbType, [id])[0].value == Plan(dbType, [other])[0].value;
    }
  }

  /** After close, an insert fails instead of reaching the driver, and the
      configuration is what it was. */
  method CloseThenInsert(qm: QueryMaster, table: string, data: Record) returns (r: Result<Request>)
    requires qm.Valid()
    modifies qm`connection
    ensures r == Failure(NoConnection)
    ensures qm.dbType == old(qm.dbType) && qm.host == old(qm.host)
    ensures qm.username == old(qm.username) && qm.password == old(qm.password) && qm.dbname == old(qm.dbname)
  {
    qm.Close();
    r := qm.Insert(table, data);
  }
}
