/**
  `SAPUserHandler` and `reset_password` of `sap_rfc_modules.py`: a handler
  owns one RFC connection; its methods call function modules through it and
  interpret the responses (`SapRfc`); `reset_password` looks up the system,
  builds a handler, changes the password, commits only a generated one, and
  always closes the connection it opened. The SAP system behind the
  connection is an oracle; the connection records every call and the close.
*/
module SapHandler {
  import opened Wrappers
  import opened SapRfc

  /** The logon parameters a handler connects with; the configuration may leave any of them unset. */
  datatype Logon = Logon(host: Option<string>, sysnr: Option<string>, client: Option<string>,
                         user: Option<string>, password: Option<string>)

  /**
    The SAP system as seen through the RFC library: whether a logon succeeds,
    what each call returns or the text of the exception it raises, and
    whether closing raises.
  */
  datatype RfcServer = RfcServer(accepts: Logon -> bool, respond: RfcCall -> Result<Response, string>, closeFails: bool)

  /** The server's answer to a call. */
  function Reply(server: RfcServer, call: RfcCall): Result<Response, string> {
    server.respond(call)
  }

  /** An open RFC connection: every call and the close are recorded in `log`. */
  class Connection {
    const server: RfcServer
    var log: seq<RfcEvent>

    constructor(server: RfcServer)
      ensures this.server == server && log == []
    {
      this.server := server;
      log := [];
    }

    /** `conn.call(...)`: the server's response, or the text of the exception it raised. */
    method Call(call: RfcCall) returns (r: Result<Response, string>)
      modifies this
      ensures log == old(log) + [Invoked(call)]
      ensures r == Reply(server, call)
    {
      log := log + [Invoked(call)];
      r := Reply(server, call);
    }

    /** `conn.close()`; `failed` says whether it raised. */
    method Close() returns (failed: bool)
      modifies this
      ensures log == old(log) + [Closed]
      ensures failed == server.closeFails
    {
      log := log + [Closed];
      failed := server.closeFails;
    }
  }

  const FetchContext: string := "An error occurred while fetching user list: "
  const LockContext: string := "An error occurred while checking lock state: "
  const SearchContext: string := "An error occurred while searching for user: "

  /** `get_user_list` on the server's answer: the user list, or the call's exception re-raised in context. */
  function UserListOutcome(reply: Result<Response, string>): (r: Result<RfcValue, Fault>)
    ensures reply.Failure? ==> r == Failure(Wrapped(FetchContext, RfcError(reply.error)))
    ensures reply.Success? ==> r == Success(UserList(reply.value))
  {
    match reply
    case Failure(e) => Failure(Wrapped(FetchContext, RfcError(e)))
    case Success(resp) => Success(UserList(resp))
  }

  /** `is_user_locked` on the server's answer: every exception, from the call or the data, re-raised in context. */
  function LockOutcome(reply: Result<Response, string>): (r: Result<Option<string>, Fault>)
    ensures reply.Failure? ==> r == Failure(Wrapped(LockContext, RfcError(reply.error)))
    ensures reply.Success? && LockStatus(reply.value).Success? ==> r == LockStatus(reply.value)
    ensures reply.Success? && LockStatus(reply.value).Failure? ==>
              r == Failure(Wrapped(LockContext, LockStatus(reply.value).error))
  {
    match reply
    case Failure(e) => Failure(Wrapped(LockContext, RfcError(e)))
    case Success(resp) =>
      match LockStatus(resp)
      case Failure(f) => Failure(Wrapped(LockContext, f))
      case Success(status) => Success(status)
  }

  /**
    `find_user` on the server's answer to the user-list call: the matching
    users, or the exception (from `get_user_list` or from the filter)
    re-raised in context.
  */
  function FindOutcome(reply: Result<Response, string>, first: string, last: string): Result<seq<Row>, Fault> {
    match UserListOutcome(reply)
    case Failure(f) => Failure(Wrapped(SearchContext, f))
    case Success(list) =>
      match FindUsers(list, first, last)
      case Failure(f) => Failure(Wrapped(SearchContext, f))
      case Success(users) => Success(users)
  }

  /**
    Over a user list of rows that all carry both names, `find_user` returns
    the users with both names equal, in list order; without a `USERLIST` it
    finds nobody; a failed call surfaces wrapped twice, first by
    `get_user_list` and then by `find_user`.
  */
  lemma FindOutcomeCases(reply: Result<Response, string>, first: string, last: string, users: seq<Row>)
    ensures reply.Failure? ==>
              FindOutcome(reply, first, last) == Failure(Wrapped(SearchContext, Wrapped(FetchContext, RfcError(reply.error))))
    ensures reply.Success? && "USERLIST" !in reply.value ==> FindOutcome(reply, first, last) == Success([])
    ensures reply.Success? && "USERLIST" in reply.value && reply.value["USERLIST"] == Table(users)
            && (forall i :: 0 <= i < |users| ==> "FIRSTNAME" in users[i] && "LASTNAME" in users[i]) ==>
              && FindOutcome(reply, first, last).Success?
              && Subsequence(FindOutcome(reply, first, last).value, users)
              && (forall u :: u in FindOutcome(reply, first, last).value ==> IsMatch(u, first, last))
              && (forall i :: 0 <= i < |users| && IsMatch(users[i], first, last) ==>
                    users[i] in FindOutcome(reply, first, last).value)
              && |FindOutcome(reply, first, last).value| == MatchCount(users, first, last)
  {
    MatchUsersExact(users, first, last);
  }

  /** The handler of one connection. */
  class SapUserHandler {
    const conn: Connection

    /** A handler on a connection that logged on. */
    constructor(conn: Connection)
      ensures this.conn == conn
    {
      this.conn := conn;
    }

    /** `get_user_list()`: one `BAPI_USER_GETLIST` call. */
    method GetUserList() returns (r: Result<RfcValue, Fault>)
      modifies conn
      ensures conn.log == old(conn.log) + [Invoked(UserListCall)]
      ensures r == UserListOutcome(Reply(conn.server, UserListCall))
    {
      var reply := conn.Call(UserListCall);
      if reply.Failure? {
        r := Failure(Wrapped(FetchContext, RfcError(reply.error)));
      } else {
        r := Success(Get(reply.value, "USERLIST", Table([])));
      }
    }

    /** `is_user_locked(username)`: one `RFC_READ_TABLE` call on `USR02`. */
    method IsUserLocked(username: string) returns (r: Result<Option<string>, Fault>)
      modifies conn
      ensures conn.log == old(conn.log) + [Invoked(LockQuery(username))]
      ensures r == LockOutcome(Reply(conn.server, LockQuery(username)))
    {
      var reply := conn.Call(LockQuery(username));
      if reply.Failure? {
        r := Failure(Wrapped(LockContext, RfcError(reply.error)));
      } else {
        var status := LockStatus(reply.value);
        if status.Failure? {
          r := Failure(Wrapped(LockContext, status.error));
        } else {
          r := status;
        }
      }
    }

    /** `find_user(first, last)`: the user list, then the filter. */
    method FindUser(first: string, last: string) returns (r: Result<seq<Row>, Fault>)
      modifies conn
      ensures conn.log == old(conn.log) + [Invoked(UserListCall)]
      ensures r == FindOutcome(Reply(conn.server, UserListCall), first, last)
    {
      var list := GetUserList();
      if list.Failure? {
        r := Failure(Wrapped(SearchContext, list.error));
      } else {
        var found := FindUsers(list.value, first, last);
        if found.Failure? {
          r := Failure(Wrapped(SearchContext, found.error));
        } else {
          r := found;
        }
      }
    }
  }

  // ---------------------------------------------------------------------------
  // reset_password

  /** The configuration of one system: `host`, `sysnr`, `client`, `user`, `password`, each possibly unset. */
  type SystemParams = map<string, Option<string>>

  /**
    What `reset_password` returns: an error text, `(True, password)`,
    `False`, or, for a system the configuration does not know, the
    `KeyError` it raises.
  */
  datatype ResetOutcome = ErrorText(text: string) | PasswordReset(password: RfcValue) | Failed | UnknownSystem(key: string)

  const GenerationFailed: string := "Error: Password generation failed."

  /** The logon parameters of a system, or `None` when one of the five keys is missing (a `KeyError`). */
  function LogonOf(params: SystemParams): (r: Option<Logon>)
    ensures r.Some? <==> "host" in params && "sysnr" in params && "client" in params && "user" in params && "password" in params
    ensures r.Some? ==> r.value == Logon(params["host"], params["sysnr"], params["client"], params["user"], params["password"])
  {
    if "host" in params && "sysnr" in params && "client" in params && "user" in params && "password" in params
    then Some(Logon(params["host"], params["sysnr"], params["client"], params["user"], params["password"]))
    else None
  }

  /** The effect of the `try` body once a handler exists: its outcome and the calls it made. */
  datatype Attempt = Attempt(outcome: ResetOutcome, calls: seq<RfcEvent>)

  /**
    Change the password; stop at the first error row of `RETURN` or a
    missing generated password; otherwise commit and return the password.
    Any exception makes the outcome `False`.
  */
  function ChangeAttempt(server: RfcServer, username: string): Attempt {
    var change := ChangeCall(username);
    match Reply(server, change)
    case Failure(_) => Attempt(Failed, [Invoked(change)])
    case Success(resp) =>
      match InterpretChange(resp)
      case Broken(_) => Attempt(Failed, [Invoked(change)])
      case Rejected(m) => Attempt(ErrorText("Error: " + m), [Invoked(change)])
      case NoPassword => Attempt(ErrorText(GenerationFailed), [Invoked(change)])
      case Generated(pwd) =>
        match Reply(server, CommitCall)
        case Failure(_) => Attempt(Failed, [Invoked(change), Invoked(CommitCall)])
        case Success(_) => Attempt(PasswordReset(pwd), [Invoked(change), Invoked(CommitCall)])
  }

  /** A whole `reset_password`: its outcome, whether a handler was built, and what its connection saw. */
  datatype ResetRun = ResetRun(outcome: ResetOutcome, connected: bool, log: seq<RfcEvent>)

  function ResetSpec(username: string, systemKey: string, systems: map<string, SystemParams>, server: RfcServer): ResetRun {
    if systemKey !in systems then ResetRun(UnknownSystem(systemKey), false, [])
    else
      var logon := LogonOf(systems[systemKey]);
      if logon.None? || !server.accepts(logon.value) then ResetRun(Failed, false, [])
      else
        var attempt := ChangeAttempt(server, username);
        ResetRun(attempt.outcome, true, attempt.calls + [Closed])
  }

  /**
    The `try` body of `reset_password` on a built handler, with the scan of
    the `RETURN` rows as a loop that returns at the first error row.
  */
  method AttemptChange(handler: SapUserHandler, username: string) returns (outcome: ResetOutcome)
    modifies handler.conn
    ensures outcome == ChangeAttempt(handler.conn.server, username).outcome
    ensures handler.conn.log == old(handler.conn.log) + ChangeAttempt(handler.conn.server, username).calls
  {
    var conn := handler.conn;
    var change := ChangeCall(username);
    var reply := conn.Call(change);
    if reply.Failure? {
      return Failed;
    }
    var resp := reply.value;
    var returned := Records(Get(resp, "RETURN", Table([])));
    if returned.Failure? {
      return Failed;
    }
    var rows := returned.value;
    var j := 0;
    while j < |rows|
      invariant 0 <= j <= |rows|
      invariant ScanReturn(rows) == ScanReturn(rows[j..])
    {
      var row := rows[j];
      if "TYPE" !in row {
        return Failed;
      }
      if row["TYPE"] == "E" {
        if "MESSAGE" !in row {
          return Failed;
        }
        return ErrorText("Error: " + row["MESSAGE"]);
      }
      assert rows[j..][1..] == rows[j + 1..];
      j := j + 1;
    }
    assert rows[j..] == [];
    if !("GENERATED_PASSWORD" in resp && Truthy(resp["GENERATED_PASSWORD"])) {
      return ErrorText(GenerationFailed);
    }
    var committed := conn.Call(CommitCall);
    if committed.Failure? {
      return Failed;
    }
    return PasswordReset(resp["GENERATED_PASSWORD"]);
  }

  /**
    `reset_password(username, system)`: the configuration lookup raises
    outside the `try`; a handler that was built has its connection closed
    afterwards whatever happened, and a failing close changes nothing.
    `handler` is the handler built, if any.
  */
  method ResetPassword(username: string, systemKey: string, systems: map<string, SystemParams>, server: RfcServer)
    returns (outcome: ResetOutcome, handler: SapUserHandler?)
    ensures outcome == ResetSpec(username, systemKey, systems, server).outcome
    ensures (handler != null) == ResetSpec(username, systemKey, systems, server).connected
    ensures handler != null ==>
              fresh(handler) && fresh(handler.conn) && handler.conn.server == server
              && handler.conn.log == ResetSpec(username, systemKey, systems, server).log
  {
    if systemKey !in systems {
      return UnknownSystem(systemKey), null;
    }
    var logon := LogonOf(systems[systemKey]);
    if logon.None? || !server.accepts(logon.value) {
      return Failed, null;
    }
    var conn := new Connection(server);
    handler := new SapUserHandler(conn);
    outcome := AttemptChange(handler, username);
    var closeFailed := conn.Close();
  }

  /** An unknown system raises before anything is connected; every other outcome comes from a lookup that worked. */
  lemma ResetUnknownSystem(username: string, systemKey: string, systems: map<string, SystemParams>, server: RfcServer)
    ensures ResetSpec(username, systemKey, systems, server).outcome.UnknownSystem? <==> systemKey !in systems
    ensures systemKey !in systems ==>
              ResetSpec(username, systemKey, systems, server) == ResetRun(UnknownSystem(systemKey), false, [])
  {
  }

  /**
    The commit is issued exactly when the change call returned a response
    whose `RETURN` rows all pass and which holds a non-empty password; so an
    error row or a missing password never commits.
  */
  lemma {:induction false} ResetCommitsOnlyGenerated(username: string, systemKey: string,
                                                     systems: map<string, SystemParams>, server: RfcServer)
    ensures var run := ResetSpec(username, systemKey, systems, server);
            var reply := Reply(server, ChangeCall(username));
            Invoked(CommitCall) in run.log <==>
              run.connected && reply.Success? && InterpretChange(reply.value).Generated?
  {
    var run := ResetSpec(username, systemKey, systems, server);
    if run.connected {
      assert ChangeCall(username) != CommitCall;
      var calls := ChangeAttempt(server, username).calls;
      assert run.log == calls + [Closed];
      assert Invoked(CommitCall) in run.log <==> Invoked(CommitCall) in calls;
    }
  }

  /**
    `(True, password)` comes only from a commit that went through, after a
    change whose response generated that (non-empty) password: change,
    commit, close, in that order.
  */
  lemma ResetPasswordAfterCommit(username: string, systemKey: string, systems: map<string, SystemParams>, server: RfcServer)
    requires ResetSpec(username, systemKey, systems, server).outcome.PasswordReset?
    ensures var run := ResetSpec(username, systemKey, systems, server);
            var reply := Reply(server, ChangeCall(username));
            && run.log == [Invoked(ChangeCall(username)), Invoked(CommitCall), Closed]
            && Reply(server, CommitCall).Success?
            && reply.Success? && InterpretChange(reply.value) == Generated(run.outcome.password)
            && Truthy(run.outcome.password)
  {
  }

  /** With a handler built, the run is the change attempt followed by the close. */
  lemma ResetConnectedRun(username: string, systemKey: string, systems: map<string, SystemParams>, server: RfcServer)
    requires ResetSpec(username, systemKey, systems, server).connected
    ensures ResetSpec(username, systemKey, systems, server)
            == ResetRun(ChangeAttempt(server, username).outcome, true, ChangeAttempt(server, username).calls + [Closed])
  {
  }

  /**
    With a change response, the first error row in `RETURN` ends the attempt
    with `"Error: " + MESSAGE` of that row, and no commit is issued.
  */
  lemma ChangeRejected(server: RfcServer, username: string, resp: Response, rows: seq<Row>)
    requires Reply(server, ChangeCall(username)) == Success(resp)
    requires "RETURN" in resp && resp["RETURN"] == Table(rows) && ScanReturn(rows).ErrorMessage?
    ensures ChangeAttempt(server, username)
            == Attempt(ErrorText("Error: " + ScanReturn(rows).message), [Invoked(ChangeCall(username))])
  {
    assert InterpretChange(resp) == Rejected(ScanReturn(rows).message);
  }

  /**
    With every `RETURN` row passing (or no `RETURN` at all) but no non-empty
    `GENERATED_PASSWORD`, the attempt ends with the generation-failed text,
    and no commit is issued.
  */
  lemma ChangeNoPassword(server: RfcServer, username: string, resp: Response, rows: seq<Row>)
    requires Reply(server, ChangeCall(username)) == Success(resp)
    requires Get(resp, "RETURN", Table([])) == Table(rows)
    requires forall i :: 0 <= i < |rows| ==> PassesCheck(rows[i])
    requires !("GENERATED_PASSWORD" in resp && Truthy(resp["GENERATED_PASSWORD"]))
    ensures ChangeAttempt(server, username) == Attempt(ErrorText(GenerationFailed), [Invoked(ChangeCall(username))])
  {
    ScanReturnFirst(rows);
    assert InterpretChange(resp) == NoPassword;
  }

  /**
    Every exception inside the `try` makes the outcome `False`: a failed
    logon (or a missing logon parameter), a change call that raises, a
    response whose `RETURN` cannot be scanned, and a commit that raises.
  */
  lemma ResetExceptionsFail(username: string, systemKey: string, systems: map<string, SystemParams>, server: RfcServer)
    requires systemKey in systems
    ensures var logon := LogonOf(systems[systemKey]);
            logon.None? || !server.accepts(logon.value) ==>
              ResetSpec(username, systemKey, systems, server) == ResetRun(Failed, false, [])
    ensures ResetSpec(username, systemKey, systems, server).connected && Reply(server, ChangeCall(username)).Failure? ==>
              ResetSpec(username, systemKey, systems, server).outcome == Failed
    ensures var reply := Reply(server, ChangeCall(username));
            ResetSpec(username, systemKey, systems, server).connected && reply.Success?
            && InterpretChange(reply.value).Broken? ==>
              ResetSpec(username, systemKey, systems, server).outcome == Failed
    ensures var reply := Reply(server, ChangeCall(username));
            ResetSpec(username, systemKey, systems, server).connected && reply.Success?
            && InterpretChange(reply.value).Generated? && Reply(server, CommitCall).Failure? ==>
              ResetSpec(username, systemKey, systems, server)
              == ResetRun(Failed, true, [Invoked(ChangeCall(username)), Invoked(CommitCall), Closed])
  {
    if ResetSpec(username, systemKey, systems, server).connected {
      ResetConnectedRun(username, systemKey, systems, server);
    }
  }

  /** Whether closing raises changes nothing about the outcome or the calls: the close error is swallowed. */
  lemma ResetIgnoresCloseFailure(username: string, systemKey: string, systems: map<string, SystemParams>, server: RfcServer)
    ensures ResetSpec(username, systemKey, systems, server)
            == ResetSpec(username, systemKey, systems, server.(closeFails := !server.closeFails))
  {
    var other := server.(closeFails := !server.closeFails);
    assert Reply(other, ChangeCall(username)) == Reply(server, ChangeCall(username));
    assert Reply(other, CommitCall) == Reply(server, CommitCall);
    assert ChangeAttempt(other, username) == ChangeAttempt(server, username);
  }

  /**
    A built handler's connection is closed exactly once, as the last thing
    that happens on it; without a handler nothing is called or closed.
  */
  lemma ResetClosesOnce(username: string, systemKey: string, systems: map<string, SystemParams>, server: RfcServer)
    ensures var run := ResetSpec(username, systemKey, systems, server);
            && (!run.connected ==> run.log == [])
            && (run.connected ==>
                  && |run.log| > 0 && run.log[|run.log| - 1] == Closed
                  && forall i :: 0 <= i < |run.log| - 1 ==> run.log[i].Invoked?)
  {
  }
}
