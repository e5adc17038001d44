/**
  The decisions `sap_rfc_modules.py` takes over RFC response data: the
  calls it builds, the user list it reads, the first-name/last-name filter,
  the `USR02.UFLAG` lock decoding and the `RETURN`-table scan of a password
  change. RFC values follow what the RFC library hands back: text and
  numbers, structures (a dictionary of fields) and tables (a list of rows).
  A Python exception raised on the data is a `Fault`.
*/
module SapRfc {
  import opened Wrappers

  /** A table row or structure: field name to field text. */
  type Row = map<string, string>

  /** One RFC parameter value. */
  datatype RfcValue = Field(text: string) | Number(n: int) | Structure(fields: Row) | Table(rows: seq<Row>)

  /** The exporting and table parameters an RFC call returns, by name. */
  type Response = map<string, RfcValue>

  /** `conn.call(functionModule, **params)`. */
  datatype RfcCall = RfcCall(functionModule: string, params: map<string, RfcValue>)

  /** What a connection is asked to do, in order. */
  datatype RfcEvent = Invoked(call: RfcCall) | Closed

  /**
    A Python exception: one the RFC library raised (with its text), a
    `KeyError` on a missing field, a `TypeError`/`AttributeError` from a value
    that is not a table of rows where one is read, or an exception re-raised
    with a context text in front of the inner one's text.
  */
  datatype Fault = RfcError(text: string) | KeyMissing(key: string) | NotRecords | Wrapped(context: string, inner: Fault)

  /** `resp.get(key, default)`. */
  function Get(resp: Response, key: string, default: RfcValue): RfcValue {
    if key in resp then resp[key] else default
  }

  /** Python truthiness of a value: non-empty text, structure or table, non-zero number. */
  predicate Truthy(v: RfcValue) {
    match v
    case Field(t) => t != ""
    case Number(n) => n != 0
    case Structure(fs) => |fs| > 0
    case Table(rows) => |rows| > 0
  }

  /**
    `for row in v: row[key]...`: a table yields its rows; empty text or an
    empty structure yields nothing; anything else fails on the first element.
  */
  function Records(v: RfcValue): (r: Result<seq<Row>, Fault>)
    ensures v.Table? ==> r == Success(v.rows)
    ensures !v.Table? ==> (r == Success([]) <==> !v.Number? && !Truthy(v))
    ensures !v.Table? && r.Failure? ==> r.error == NotRecords
  {
    match v
    case Table(rows) => Success(rows)
    case Field(t) => if t == "" then Success([]) else Failure(NotRecords)
    case Structure(fs) => if |fs| == 0 then Success([]) else Failure(NotRecords)
    case Number(_) => Failure(NotRecords)
  }

  // ---------------------------------------------------------------------------
  // get_user_list and find_user

  /** `BAPI_USER_GETLIST` with `WITH_USERNAME='X'` and `MAX_ROWS=20000`. */
  const UserListCall: RfcCall :=
    RfcCall("BAPI_USER_GETLIST", map["WITH_USERNAME" := Field("X"), "MAX_ROWS" := Number(20000)])

  /** The user list of a `BAPI_USER_GETLIST` response: its `USERLIST`, or an empty list. */
  function UserList(resp: Response): (r: RfcValue)
    ensures "USERLIST" in resp ==> r == resp["USERLIST"]
    ensures "USERLIST" !in resp ==> r == Table([])
  {
    Get(resp, "USERLIST", Table([]))
  }

  /** Whether a row has both names and they are the ones looked for. */
  predicate IsMatch(user: Row, first: string, last: string) {
    "FIRSTNAME" in user && "LASTNAME" in user && user["FIRSTNAME"] == first && user["LASTNAME"] == last
  }

  /**
    `[u for u in users if u['FIRSTNAME'] == first and u['LASTNAME'] == last]`,
    in order; a missing `FIRSTNAME`, or a missing `LASTNAME` on a row whose
    first name matches, raises `KeyError` at the first such row.
  */
  function MatchUsers(users: seq<Row>, first: string, last: string): Result<seq<Row>, Fault>
  {
    if users == [] then Success([])
    else
      var u := users[0];
      if "FIRSTNAME" !in u then Failure(KeyMissing("FIRSTNAME"))
      else if u["FIRSTNAME"] != first then MatchUsers(users[1..], first, last)
      else if "LASTNAME" !in u then Failure(KeyMissing("LASTNAME"))
      else
        match MatchUsers(users[1..], first, last)
        case Failure(f) => Failure(f)
        case Success(rest) => Success(if u["LASTNAME"] == last then [u] + rest else rest)
  }

  /** Whether a row can be filtered without a `KeyError`. */
  predicate Readable(user: Row, first: string) {
    "FIRSTNAME" in user && (user["FIRSTNAME"] == first ==> "LASTNAME" in user)
  }

  /** How many rows of the list, counted with repetition, carry both names looked for. */
  function MatchCount(users: seq<Row>, first: string, last: string): nat {
    if users == [] then 0
    else (if IsMatch(users[0], first, last) then 1 else 0) + MatchCount(users[1..], first, last)
  }

  /** `sub` is `s` with some elements left out, the rest kept in order. */
  predicate Subsequence(sub: seq<Row>, s: seq<Row>)
    decreases |s|
  {
    if sub == [] then true
    else if s == [] then false
    else if sub[0] == s[0] then Subsequence(sub[1..], s[1..])
    else Subsequence(sub, s[1..])
  }

  /**
    The filter fails exactly when some row cannot be read, and then with the
    `KeyError` of the first such row; otherwise it returns exactly the
    matching rows, as a subsequence of the list, in their original order and
    with every repeated matching row kept.
  */
  lemma MatchUsersExact(users: seq<Row>, first: string, last: string)
    ensures MatchUsers(users, first, last).Success? <==> forall i :: 0 <= i < |users| ==> Readable(users[i], first)
    ensures MatchUsers(users, first, last).Failure? ==>
              exists i :: 0 <= i < |users| && !Readable(users[i], first)
                          && (forall j :: 0 <= j < i ==> Readable(users[j], first))
                          && MatchUsers(users, first, last).error
                             == KeyMissing(if "FIRSTNAME" !in users[i] then "FIRSTNAME" else "LASTNAME")
    ensures MatchUsers(users, first, last).Success? ==>
              var found := MatchUsers(users, first, last).value;
              && Subsequence(found, users)
              && (forall u :: u in found ==> IsMatch(u, first, last))
              && (forall i :: 0 <= i < |users| && IsMatch(users[i], first, last) ==> users[i] in found)
              && |found| == MatchCount(users, first, last)
  {
    MatchUsersFails(users, first, last);
    MatchUsersFinds(users, first, last);
  }

  /** The filter fails exactly at the first row that cannot be read, with that row's `KeyError`. */
  lemma {:induction false} MatchUsersFails(users: seq<Row>, first: string, last: string)
    ensures MatchUsers(users, first, last).Success? <==> forall i :: 0 <= i < |users| ==> Readable(users[i], first)
    ensures MatchUsers(users, first, last).Failure? ==>
              exists i :: 0 <= i < |users| && !Readable(users[i], first)
                          && (forall j :: 0 <= j < i ==> Readable(users[j], first))
                          && MatchUsers(users, first, last).error
                             == KeyMissing(if "FIRSTNAME" !in users[i] then "FIRSTNAME" else "LASTNAME")
  {
    if users != [] {
      var u := users[0];
      var tail := users[1..];
      MatchUsersFails(tail, first, last);
      if !Readable(u, first) {
        assert !Readable(users[0], first);
      } else {
        assert MatchUsers(users, first, last).Success? == MatchUsers(tail, first, last).Success?;
        assert MatchUsers(tail, first, last).Failure? ==>
               MatchUsers(users, first, last).error == MatchUsers(tail, first, last).error;
        if MatchUsers(tail, first, last).Failure? {
          var i :| 0 <= i < |tail| && !Readable(tail[i], first) && (forall j :: 0 <= j < i ==> Readable(tail[j], first))
                   && MatchUsers(tail, first, last).error
                      == KeyMissing(if "FIRSTNAME" !in tail[i] then "FIRSTNAME" else "LASTNAME");
          assert users[i + 1] == tail[i];
          forall j | 0 <= j < i + 1
            ensures Readable(users[j], first)
          {
            if j > 0 {
              assert users[j] == tail[j - 1];
            }
          }
        } else {
          forall i | 0 <= i < |users|
            ensures Readable(users[i], first)
          {
            if i > 0 {
              assert users[i] == tail[i - 1];
            }
          }
        }
      }
    }
  }

  /**
    When the filter succeeds it returns exactly the matching rows, as a
    subsequence in their order, as many rows as match.
  */
  lemma {:induction false} MatchUsersFinds(users: seq<Row>, first: string, last: string)
    ensures MatchUsers(users, first, last).Success? ==>
              var found := MatchUsers(users, first, last).value;
              && Subsequence(found, users)
              && (forall u :: u in found ==> IsMatch(u, first, last))
              && (forall i :: 0 <= i < |users| && IsMatch(users[i], first, last) ==> users[i] in found)
              && |found| == MatchCount(users, first, last)
  {
    var r := MatchUsers(users, first, last);
    if users != [] && r.Success? {
      var u := users[0];
      var tail := users[1..];
      var rt := MatchUsers(tail, first, last);
      MatchUsersFinds(tail, first, last);
      assert rt.Success?;
      if IsMatch(u, first, last) {
        assert r.value == [u] + rt.value;
        assert ([u] + rt.value)[1..] == rt.value;
      } else {
        assert r.value == rt.value;
      }
      forall i | 0 <= i < |users| && IsMatch(users[i], first, last)
        ensures users[i] in r.value
      {
        if i > 0 {
          assert users[i] == tail[i - 1];
        }
      }
    }
  }

  /** `find_user` on a user list value: iterate it as rows, then filter. */
  function FindUsers(list: RfcValue, first: string, last: string): Result<seq<Row>, Fault> {
    match Records(list)
    case Failure(f) => Failure(f)
    case Success(users) => MatchUsers(users, first, last)
  }

  // ---------------------------------------------------------------------------
  // is_user_locked

  /** Whether `c` is whitespace to Python's `str.strip()` (`str.isspace`). */
  predicate IsSpace(c: char) {
    || ('\t' <= c <= '\r')
    || ('\U{1C}' <= c <= ' ')
    || c == '\U{85}' || c == '\U{A0}' || c == '\U{1680}'
    || ('\U{2000}' <= c <= '\U{200A}')
    || c == '\U{2028}' || c == '\U{2029}' || c == '\U{202F}' || c == '\U{205F}' || c == '\U{3000}'
  }

  function StripLeft(s: string): string {
    if s != [] && IsSpace(s[0]) then StripLeft(s[1..]) else s
  }

  function StripRight(s: string): string {
    if s != [] && IsSpace(s[|s| - 1]) then StripRight(s[..|s| - 1]) else s
  }

  /** `s.strip()`: `s` without its leading and trailing whitespace. */
  function Strip(s: string): string {
    StripRight(StripLeft(s))
  }

  /** Text that is empty or neither starts nor ends with whitespace. */
  predicate Trimmed(s: string) {
    s == [] || (!IsSpace(s[0]) && !IsSpace(s[|s| - 1]))
  }

  /** Predicate: every character of `s` is whitespace. */
  predicate AllSpace(s: string) {
    forall i :: 0 <= i < |s| ==> IsSpace(s[i])
  }

  lemma {:induction false} StripLeftPadding(pad: string, core: string)
    requires AllSpace(pad) && (core == [] || !IsSpace(core[0]))
    ensures StripLeft(pad + core) == core
  {
    if pad == [] {
      assert pad + core == core;
    } else {
      assert (pad + core)[1..] == pad[1..] + core;
      StripLeftPadding(pad[1..], core);
    }
  }

  lemma {:induction false} StripRightPadding(core: string, pad: string)
    requires AllSpace(pad) && (core == [] || !IsSpace(core[|core| - 1]))
    ensures StripRight(core + pad) == core
    decreases |pad|
  {
    if pad == [] {
      assert core + pad == core;
    } else {
      assert (core + pad)[..|core + pad| - 1] == core + pad[..|pad| - 1];
      StripRightPadding(core, pad[..|pad| - 1]);
    }
  }

  /** Stripping whitespace around text that has none at its edges gives back that text. */
  lemma StripPadding(left: string, core: string, right: string)
    requires AllSpace(left) && AllSpace(right) && Trimmed(core)
    ensures Strip(left + core + right) == core
  {
    assert left + core + right == left + (core + right);
    if core == [] {
      assert core + right == right;
      if right == [] {
        StripLeftPadding(left, []);
        assert left + [] == left;
      } else {
        assert AllSpace(left + right);
        StripLeftPadding(left + right, []);
        assert left + right + [] == left + right;
      }
      StripRightPadding([], []);
    } else {
      StripLeftPadding(left, core + right);
      StripRightPadding(core, right);
    }
  }

  lemma {:induction false} StripLeftShape(s: string)
    ensures |StripLeft(s)| <= |s|
    ensures StripLeft(s) == s[|s| - |StripLeft(s)|..] && AllSpace(s[..|s| - |StripLeft(s)|])
    ensures StripLeft(s) == [] || !IsSpace(StripLeft(s)[0])
  {
    if s != [] && IsSpace(s[0]) {
      var tail := s[1..];
      StripLeftShape(tail);
      var k := |tail| - |StripLeft(tail)|;
      assert s[k + 1..] == tail[k..];
      assert s[..k + 1] == [s[0]] + tail[..k];
    }
  }

  lemma {:induction false} StripRightShape(s: string)
    ensures |StripRight(s)| <= |s|
    ensures StripRight(s) == s[..|StripRight(s)|] && AllSpace(s[|StripRight(s)|..])
    ensures StripRight(s) == [] || !IsSpace(StripRight(s)[|StripRight(s)| - 1])
    decreases |s|
  {
    if s != [] && IsSpace(s[|s| - 1]) {
      var init := s[..|s| - 1];
      StripRightShape(init);
      var j := |StripRight(init)|;
      assert s[..j] == init[..j];
      assert s[j..] == init[j..] + [s[|s| - 1]];
    }
  }

  /**
    `Strip(s)` is the part of `s` between a whitespace-only head and a
    whitespace-only tail, with no whitespace left at its edges.
  */
  lemma StripShape(s: string)
    ensures |StripLeft(s)| <= |s|
    ensures var i := |s| - |StripLeft(s)|;
            && i + |Strip(s)| <= |s|
            && Strip(s) == s[i..i + |Strip(s)|]
            && AllSpace(s[..i]) && AllSpace(s[i + |Strip(s)|..])
    ensures Trimmed(Strip(s))
  {
    StripLeftShape(s);
    var i := |s| - |StripLeft(s)|;
    var l := StripLeft(s);
    StripRightShape(l);
    var j := |StripRight(l)|;
    assert s[i..i + j] == l[..j];
    var rest := l[j..];
    assert AllSpace(rest);
    assert s[i + j..] == rest;
    if Strip(s) != [] {
      assert Strip(s)[0] == l[0];
    }
  }

  const WrongLogons: string := "User is locked due to wrong logons."
  const GloballyLocked: string := "User is globally locked."

  /**
    The lock message for a stripped `UFLAG` value: `'128'` is a lock by
    wrong logons, `'0'` is no lock (`None`), anything else a global lock.
  */
  function DecodeUflag(flag: string): (r: Option<string>)
    ensures r == Some(WrongLogons) <==> flag == "128"
    ensures r == None <==> flag == "0"
    ensures r == Some(GloballyLocked) <==> flag != "128" && flag != "0"
  {
    if flag == "128" then Some(WrongLogons)
    else if flag == "0" then None
    else Some(GloballyLocked)
  }

  /** The `WHERE` line selecting one user: `BNAME = '<username>'`. */
  function WhereUser(username: string): string {
    "BNAME = '" + username + "'"
  }

  /**
    The text a `WhereUser` line compares `BNAME` with, read naively as
    everything between `BNAME = '` and the final quote; quotes inside the
    name are not interpreted.
  */
  function SelectedUser(line: string): Option<string> {
    var head := "BNAME = '";
    if |line| >= |head| + 1 && line[..|head|] == head && line[|line| - 1] == '\''
    then Some(line[|head|..|line| - 1])
    else None
  }

  /** The option text is `BNAME = '`, the user name as given, and a closing quote. */
  lemma WhereUserSelects(username: string)
    ensures SelectedUser(WhereUser(username)) == Some(username)
  {
    var line := WhereUser(username);
    assert line[..9] == "BNAME = '";
    assert line[9..|line| - 1] == username;
  }

  /** `RFC_READ_TABLE` reading field `UFLAG` of table `USR02`, delimiter `|`, for one user. */
  function LockQuery(username: string): RfcCall {
    RfcCall("RFC_READ_TABLE", map[
      "QUERY_TABLE" := Field("USR02"),
      "DELIMITER" := Field("|"),
      "FIELDS" := Table([map["FIELDNAME" := "UFLAG"]]),
      "OPTIONS" := Table([map["TEXT" := WhereUser(username)]])])
  }

  /**
    The query reads one field, `UFLAG`, of `USR02`, with a single option line
    comparing `BNAME` with the user name as given.
  */
  lemma LockQuerySelects(username: string)
    ensures LockQuery(username).functionModule == "RFC_READ_TABLE"
    ensures LockQuery(username).params["QUERY_TABLE"] == Field("USR02")
    ensures LockQuery(username).params["DELIMITER"] == Field("|")
    ensures LockQuery(username).params["FIELDS"] == Table([map["FIELDNAME" := "UFLAG"]])
    ensures var options := LockQuery(username).params["OPTIONS"];
            && options.Table? && |options.rows| == 1 && "TEXT" in options.rows[0]
            && SelectedUser(options.rows[0]["TEXT"]) == Some(username)
  {
    WhereUserSelects(username);
  }

  /**
    `is_user_locked` on a read-table response: no `DATA` rows is `None`;
    otherwise the first row's `WA` (or `''`), stripped, is decoded.
  */
  function LockStatus(resp: Response): Result<Option<string>, Fault> {
    var data := Get(resp, "DATA", Table([]));
    if !Truthy(data) then Success(None)
    else if data.Table? then
      var row := data.rows[0];
      Success(DecodeUflag(Strip(if "WA" in row then row["WA"] else "")))
    else Failure(NotRecords)
  }

  /**
    Only the first `DATA` row counts, and only its `WA` text up to
    surrounding whitespace; no rows means no lock; a row without `WA` reads
    as a global lock.
  */
  lemma LockStatusFirstRow(resp: Response, row: Row, later: seq<Row>, left: string, flag: string, right: string)
    requires AllSpace(left) && AllSpace(right) && Trimmed(flag)
    requires "DATA" in resp && resp["DATA"] == Table([row] + later)
    ensures LockStatus(resp) == LockStatus(resp["DATA" := Table([row])])
    ensures "WA" in row && row["WA"] == left + flag + right ==> LockStatus(resp) == Success(DecodeUflag(flag))
    ensures "WA" !in row ==> LockStatus(resp) == Success(Some(GloballyLocked))
  {
    StripPadding(left, flag, right);
    assert Strip("") == "";
  }

  lemma LockStatusNoRows(resp: Response)
    requires "DATA" !in resp || resp["DATA"] == Table([])
    ensures LockStatus(resp) == Success(None)
  {
  }

  // ---------------------------------------------------------------------------
  // reset_password

  /** `BAPI_USER_CHANGE` asking for a generated password for one user. */
  function ChangeCall(username: string): RfcCall {
    RfcCall("BAPI_USER_CHANGE", map[
      "USERNAME" := Field(username),
      "PASSWORDX" := Structure(map["BAPIPWD" := "X"]),
      "GENERATE_PWD" := Field("X")])
  }

  /** `BAPI_TRANSACTION_COMMIT` without parameters. */
  const CommitCall: RfcCall := RfcCall("BAPI_TRANSACTION_COMMIT", map[])

  /** What the scan of the `RETURN` rows finds. */
  datatype Scan = NoError | ErrorMessage(message: string) | ScanFault(fault: Fault)

  /** Whether a `RETURN` row can be checked and is not an error row. */
  predicate PassesCheck(row: Row) {
    "TYPE" in row && row["TYPE"] != "E"
  }

  /**
    `for message in rows: if message['TYPE'] == 'E': return message['MESSAGE']`:
    the first error row's message; a row without `TYPE`, or an error row
    without `MESSAGE`, raises `KeyError` there.
  */
  function ScanReturn(rows: seq<Row>): Scan {
    if rows == [] then NoError
    else
      var row := rows[0];
      if "TYPE" !in row then ScanFault(KeyMissing("TYPE"))
      else if row["TYPE"] == "E" then
        (if "MESSAGE" in row then ErrorMessage(row["MESSAGE"]) else ScanFault(KeyMissing("MESSAGE")))
      else ScanReturn(rows[1..])
  }

  /**
    The scan stops at the first row that is unreadable or an error: it finds
    nothing exactly when every row passes, and otherwise reports that row.
  */
  lemma {:induction false} ScanReturnFirst(rows: seq<Row>)
    ensures ScanReturn(rows) == NoError <==> forall i :: 0 <= i < |rows| ==> PassesCheck(rows[i])
    ensures ScanReturn(rows) != NoError ==>
              exists i :: 0 <= i < |rows| && !PassesCheck(rows[i]) && (forall j :: 0 <= j < i ==> PassesCheck(rows[j]))
                          && ScanReturn(rows) == ScanReturn([rows[i]])
    ensures ScanReturn(rows).ErrorMessage? ==>
              exists i :: 0 <= i < |rows| && "TYPE" in rows[i] && rows[i]["TYPE"] == "E"
                          && "MESSAGE" in rows[i] && rows[i]["MESSAGE"] == ScanReturn(rows).message
  {
    if rows != [] {
      var tail := rows[1..];
      ScanReturnFirst(tail);
      assert forall i :: 0 < i < |rows| ==> rows[i] == tail[i - 1];
      if PassesCheck(rows[0]) {
        if ScanReturn(tail) != NoError {
          var i :| 0 <= i < |tail| && !PassesCheck(tail[i]) && (forall j :: 0 <= j < i ==> PassesCheck(tail[j]))
                   && ScanReturn(tail) == ScanReturn([tail[i]]);
          assert rows[i + 1] == tail[i];
          assert forall j :: 0 < j < i + 1 ==> rows[j] == tail[j - 1];
        }
        if ScanReturn(tail).ErrorMessage? {
          var i :| 0 <= i < |tail| && "TYPE" in tail[i] && tail[i]["TYPE"] == "E"
                   && "MESSAGE" in tail[i] && tail[i]["MESSAGE"] == ScanReturn(tail).message;
          assert rows[i + 1] == tail[i];
        }
      } else {
        assert [rows[0]][1..] == [];
      }
    }
  }

  /** What `reset_password` concludes from the `BAPI_USER_CHANGE` response. */
  datatype ChangeVerdict = Rejected(message: string) | NoPassword | Generated(password: RfcValue) | Broken(fault: Fault)

  /**
    The `RETURN` rows are scanned first: an error row rejects the change;
    then a missing or empty `GENERATED_PASSWORD` is a failed generation;
    an exception on the way breaks the attempt.
  */
  function InterpretChange(resp: Response): ChangeVerdict {
    match Records(Get(resp, "RETURN", Table([])))
    case Failure(f) => Broken(f)
    case Success(rows) =>
      match ScanReturn(rows)
      case ErrorMessage(m) => Rejected(m)
      case ScanFault(f) => Broken(f)
      case NoError =>
        if "GENERATED_PASSWORD" in resp && Truthy(resp["GENERATED_PASSWORD"])
        then Generated(resp["GENERATED_PASSWORD"])
        else NoPassword
  }

  /**
    A password counts as generated only when every `RETURN` row passes and
    the response holds a non-empty `GENERATED_PASSWORD`; an error row
    rejects the change with that row's message whatever else the response
    holds. A response without `RETURN` has no rows to scan.
  */
  lemma InterpretChangeCases(resp: Response, rows: seq<Row>)
    requires Get(resp, "RETURN", Table([])) == Table(rows)
    ensures InterpretChange(resp).Generated? <==>
              && (forall i :: 0 <= i < |rows| ==> PassesCheck(rows[i]))
              && "GENERATED_PASSWORD" in resp && Truthy(resp["GENERATED_PASSWORD"])
    ensures InterpretChange(resp).Generated? ==> InterpretChange(resp).password == resp["GENERATED_PASSWORD"]
    ensures ScanReturn(rows).ErrorMessage? ==> InterpretChange(resp) == Rejected(ScanReturn(rows).message)
    ensures InterpretChange(resp) == NoPassword <==>
              && (forall i :: 0 <= i < |rows| ==> PassesCheck(rows[i]))
              && !("GENERATED_PASSWORD" in resp && Truthy(resp["GENERATED_PASSWORD"]))
  {
    ScanReturnFirst(rows);
  }
}
