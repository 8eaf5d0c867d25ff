/**
 * The ErrorCoder log of lib/error-coder.js: an object that holds a table of
 * message templates per status code, a current status, and a log that groups
 * the errors added under each status.
 *
 * Statuses and error codes are JavaScript values tested for truthiness;
 * here they are `Option<int>`, with `None` for `undefined`. A thrown `Error`
 * becomes an `Err` result.
 */
module ErrorCoding {
  import opened Wrappers
  import opened Text

  /** One entry of a group: the composed code and the formatted message. */
  datatype ErrorRecord = ErrorRecord(errorCode: string, errorMessage: string)

  /** `errorsLog[status]`: the status it was created for and its errors in the order added. */
  datatype Group = Group(status: int, errors: seq<ErrorRecord>)

  /** Why a call throws: a falsy status or error code, or no template table for the current status. */
  datatype CoderError = StatusCodeRequired | NoStatusTable(status: Option<int>)

  /** The text of the `Error` thrown for a falsy status or error code. */
  const RequiredMessage := "status code is required"

  /** Everything an ErrorCoder object holds, as a value. */
  datatype Coder = Coder(
    namespace: string,
    errorsMap: map<int, map<int, string>>,
    currentStatus: Option<int>,
    log: map<int, Group>)

  /** JavaScript truthiness of a number that may be `undefined`. */
  predicate Truthy(v: Option<int>) {
    v.Some? && v.value != 0
  }

  /** The errors logged under status `s`, none if it has no group yet. */
  function ErrorsOf(log: map<int, Group>, s: int): seq<ErrorRecord>
  {
    if s in log then log[s].errors else []
  }

  /** The code of a logged error: namespace, status and error code written one after the other. */
  function CodeText(namespace: string, status: int, code: int): (r: string)
    ensures namespace + IntToString(status) <= r
    ensures |r| > |namespace| + |IntToString(status)|
    ensures r[|namespace| + |IntToString(status)|..] == IntToString(code)
  {
    var head := namespace + IntToString(status);
    assert (head + IntToString(code))[..|head|] == head;
    head + IntToString(code)
  }

  /**
   * `errorsMap[currentStatus][errorCode]`: fails when there is no table for
   * the status, and holds a template only when the entry is a non-empty string.
   */
  function Template(errorsMap: map<int, map<int, string>>, status: Option<int>, code: int): (r: Result<Option<string>, CoderError>)
    ensures r.Err? <==> status.None? || status.value !in errorsMap
    ensures r.Err? ==> r.error == NoStatusTable(status)
    ensures r.Ok? && r.value.Some? <==>
              status.Some? && status.value in errorsMap && code in errorsMap[status.value] &&
              errorsMap[status.value][code] != ""
    ensures r.Ok? && r.value.Some? ==> r.value.value == errorsMap[status.value][code]
  {
    if status.None? || status.value !in errorsMap then Err(NoStatusTable(status))
    else
      var row := errorsMap[status.value];
      if code in row && row[code] != "" then Ok(Some(row[code])) else Ok(None)
  }

  /**
   * The push onto `errorsLog[status].errors`, creating the group
   * `{status, errors: []}` first when there is none.
   */
  function Logged(log: map<int, Group>, status: int, rec: ErrorRecord): (r: map<int, Group>)
    ensures r.Keys == log.Keys + {status}
    ensures forall k :: k in log && k != status ==> r[k] == log[k]
    ensures ErrorsOf(r, status) == ErrorsOf(log, status) + [rec]
    ensures r[status].status == if status in log then log[status].status else status
  {
    var g := if status in log then log[status] else Group(status, []);
    log[status := g.(errors := g.errors + [rec])]
  }

  /**
   * `add(errorCode, ...args)`. A falsy code fails before anything is read; a
   * missing table fails; no template leaves the log alone; a template appends
   * one record to the group of the current status and touches nothing else.
   * `format` stands for the message formatting applied to the template and
   * the extra arguments.
   */
  function AddToLog<A>(c: Coder, code: Option<int>, args: seq<A>, format: (string, seq<A>) -> string): (r: Result<Coder, CoderError>)
    ensures !Truthy(code) ==> r == Err(StatusCodeRequired)
    ensures Truthy(code) ==> (r.Err? <==> c.currentStatus.None? || c.currentStatus.value !in c.errorsMap)
    ensures r.Err? ==> r.error == StatusCodeRequired || r.error == NoStatusTable(c.currentStatus)
    ensures r.Ok? ==> r.value.(log := c.log) == c
    ensures r.Ok? ==> forall k :: k != c.currentStatus.value ==> ErrorsOf(r.value.log, k) == ErrorsOf(c.log, k)
    ensures r.Ok? ==> var s := c.currentStatus.value;
              var row := c.errorsMap[s];
              ErrorsOf(r.value.log, s) ==
                if code.value in row && row[code.value] != ""
                then ErrorsOf(c.log, s) + [ErrorRecord(CodeText(c.namespace, s, code.value), format(row[code.value], args))]
                else ErrorsOf(c.log, s)
  {
    if !Truthy(code) then Err(StatusCodeRequired)
    else
      match Template(c.errorsMap, c.currentStatus, code.value)
      case Err(e) => Err(e)
      case Ok(None) => Ok(c)
      case Ok(Some(t)) =>
        var s := c.currentStatus.value;
        var rec := ErrorRecord(CodeText(c.namespace, s, code.value), format(t, args));
        Ok(c.(log := Logged(c.log, s, rec)))
  }

  /**
   * What the log always satisfies: every group sits under its own status,
   * holds at least one error, and each of its codes starts with the
   * namespace followed by that status.
   */
  predicate Grouped(namespace: string, log: map<int, Group>) {
    forall k :: k in log ==>
      log[k].status == k && log[k].errors != [] &&
      forall i :: 0 <= i < |log[k].errors| ==> namespace + IntToString(k) <= log[k].errors[i].errorCode
  }

  /** `add` keeps the log grouped. */
  lemma AddToLogGrouped<A>(c: Coder, code: Option<int>, args: seq<A>, format: (string, seq<A>) -> string)
    requires Grouped(c.namespace, c.log)
    ensures AddToLog(c, code, args, format).Ok? ==>
              Grouped(c.namespace, AddToLog(c, code, args, format).value.log)
  {
    if Truthy(code) && Template(c.errorsMap, c.currentStatus, code.value).Ok? {
      var t := Template(c.errorsMap, c.currentStatus, code.value).value;
      if t.Some? {
        var s := c.currentStatus.value;
        var rec := ErrorRecord(CodeText(c.namespace, s, code.value), format(t.value, args));
        assert AddToLog(c, code, args, format).value.log == Logged(c.log, s, rec);
        LoggedGrouped(c.namespace, c.log, s, rec);
      }
    }
  }

  /** Pushing a record whose code starts with namespace and status keeps the log grouped. */
  lemma LoggedGrouped(namespace: string, log: map<int, Group>, s: int, rec: ErrorRecord)
    requires Grouped(namespace, log) && namespace + IntToString(s) <= rec.errorCode
    ensures Grouped(namespace, Logged(log, s, rec))
  {
    var r := Logged(log, s, rec);
    forall k | k in r
      ensures r[k].status == k && r[k].errors != []
      ensures forall i :: 0 <= i < |r[k].errors| ==> namespace + IntToString(k) <= r[k].errors[i].errorCode
    {
      if k == s {
        var old_ := ErrorsOf(log, s);
        assert r[k].errors == old_ + [rec];
        forall i | 0 <= i < |r[k].errors|
          ensures namespace + IntToString(k) <= r[k].errors[i].errorCode
        {
          if i < |old_| {
            assert r[k].errors[i] == log[s].errors[i];
          }
        }
      } else {
        assert r[k] == log[k];
      }
    }
  }

  /** `setStatus(status)`: a falsy status throws; otherwise it becomes current. */
  function SetStatusOn(c: Coder, status: Option<int>): (r: Result<Coder, CoderError>)
    ensures r.Err? <==> !Truthy(status)
    ensures r.Err? ==> r.error == StatusCodeRequired
    ensures r.Ok? ==> r.value.currentStatus == status && r.value.(currentStatus := c.currentStatus) == c
  {
    if Truthy(status) then Ok(c.(currentStatus := status)) else Err(StatusCodeRequired)
  }

  /** `init(status)`: `status || 0` becomes current. */
  function InitOn(c: Coder, status: Option<int>): (r: Coder)
    ensures r.currentStatus.Some? && r.(currentStatus := c.currentStatus) == c
    ensures Truthy(status) ==> r.currentStatus == status
    ensures !Truthy(status) ==> r.currentStatus == Some(0)
  {
    c.(currentStatus := Some(if Truthy(status) then status.value else 0))
  }

  // ---------------------------------------------------------------------
  // A chain of calls, and the errors it logs read off the calls alone

  datatype Call<A> = SetStatusCall(status: Option<int>) | InitCall(status: Option<int>) | AddCall(code: Option<int>, args: seq<A>)

  function Apply<A>(c: Coder, call: Call<A>, format: (string, seq<A>) -> string): Result<Coder, CoderError>
  {
    match call
    case SetStatusCall(v) => SetStatusOn(c, v)
    case InitCall(v) => Ok(InitOn(c, v))
    case AddCall(code, args) => AddToLog(c, code, args, format)
  }

  /** The calls made one after the other; the first that throws ends the chain. */
  function Session<A>(c: Coder, calls: seq<Call<A>>, format: (string, seq<A>) -> string): Result<Coder, CoderError>
    decreases |calls|
  {
    if calls == [] then Ok(c)
    else
      match Apply(c, calls[0], format)
      case Err(e) => Err(e)
      case Ok(next) => Session(next, calls[1..], format)
  }

  /**
   * The records a chain of calls adds under status `s`, found by following
   * the current status through the calls, without looking at the log.
   */
  function Recorded<A>(namespace: string, errorsMap: map<int, map<int, string>>, status: Option<int>,
                       calls: seq<Call<A>>, format: (string, seq<A>) -> string, s: int): seq<ErrorRecord>
    decreases |calls|
  {
    if calls == [] then []
    else
      match calls[0]
      case SetStatusCall(v) =>
        if Truthy(v) then Recorded(namespace, errorsMap, v, calls[1..], format, s) else []
      case InitCall(v) =>
        Recorded(namespace, errorsMap, Some(if Truthy(v) then v.value else 0), calls[1..], format, s)
      case AddCall(code, args) =>
        if !Truthy(code) || status.None? || status.value !in errorsMap then []
        else
          var row := errorsMap[status.value];
          var here := if status.value == s && code.value in row && row[code.value] != ""
                      then [ErrorRecord(CodeText(namespace, s, code.value), format(row[code.value], args))]
                      else [];
          here + Recorded(namespace, errorsMap, status, calls[1..], format, s)
  }

  /**
   * After a chain of calls that does not throw, the errors under any status
   * are those it had before followed by the records of the adds made while
   * that status was current, in call order; namespace and templates are as
   * they were.
   */
  lemma {:induction false} SessionRecords<A>(c: Coder, calls: seq<Call<A>>, format: (string, seq<A>) -> string, s: int)
    requires Session(c, calls, format).Ok?
    ensures var d := Session(c, calls, format).value;
            d.namespace == c.namespace && d.errorsMap == c.errorsMap &&
            ErrorsOf(d.log, s) == ErrorsOf(c.log, s) + Recorded(c.namespace, c.errorsMap, c.currentStatus, calls, format, s)
    decreases |calls|
  {
    if calls == [] {
      assert ErrorsOf(c.log, s) + [] == ErrorsOf(c.log, s);
    } else {
      var next := Apply(c, calls[0], format).value;
      RecordedStep(c, calls, format, s);
      SessionRecords(next, calls[1..], format, s);
    }
  }

  /** One call moves its own record, if any, from the calls' records into the log. */
  lemma RecordedStep<A>(c: Coder, calls: seq<Call<A>>, format: (string, seq<A>) -> string, s: int)
    requires calls != [] && Apply(c, calls[0], format).Ok?
    ensures var next := Apply(c, calls[0], format).value;
            next.namespace == c.namespace && next.errorsMap == c.errorsMap &&
            ErrorsOf(c.log, s) + Recorded(c.namespace, c.errorsMap, c.currentStatus, calls, format, s) ==
            ErrorsOf(next.log, s) + Recorded(c.namespace, c.errorsMap, next.currentStatus, calls[1..], format, s)
  {
    if calls[0].AddCall? {
      RecordedAdd(c, calls[0].code, calls[0].args, calls[1..], format, s);
      assert calls == [AddCall(calls[0].code, calls[0].args)] + calls[1..];
    }
  }

  lemma RecordedAdd<A>(c: Coder, code: Option<int>, args: seq<A>, rest: seq<Call<A>>,
                       format: (string, seq<A>) -> string, s: int)
    requires AddToLog(c, code, args, format).Ok?
    ensures var next := AddToLog(c, code, args, format).value;
            ErrorsOf(c.log, s) + Recorded(c.namespace, c.errorsMap, c.currentStatus, [AddCall(code, args)] + rest, format, s) ==
            ErrorsOf(next.log, s) + Recorded(c.namespace, c.errorsMap, c.currentStatus, rest, format, s)
  {
    var st := c.currentStatus.value;
    var row := c.errorsMap[st];
    var before := ErrorsOf(c.log, s);
    var after := ErrorsOf(AddToLog(c, code, args, format).value.log, s);
    var later := Recorded(c.namespace, c.errorsMap, c.currentStatus, rest, format, s);
    assert c.currentStatus == Some(st) && code == Some(code.value);
    RecordedHead(c.namespace, c.errorsMap, st, code.value, args, rest, format, s);
    if st == s && code.value in row && row[code.value] != "" {
      var rec := ErrorRecord(CodeText(c.namespace, s, code.value), format(row[code.value], args));
      LoggedErrors(c, code, args, format, s);
      assert after == before + [rec];
      AppendOne(before, rec, later);
    } else {
      LoggedErrors(c, code, args, format, s);
      assert after == before;
      assert [] + later == later;
    }
  }

  lemma AppendOne<T>(a: seq<T>, x: T, b: seq<T>)
    ensures a + ([x] + b) == (a + [x]) + b
  {
  }

  /** The errors under `s` after an add that does not throw. */
  lemma LoggedErrors<A>(c: Coder, code: Option<int>, args: seq<A>, format: (string, seq<A>) -> string, s: int)
    requires AddToLog(c, code, args, format).Ok?
    ensures var st := c.currentStatus.value;
            var row := c.errorsMap[st];
            ErrorsOf(AddToLog(c, code, args, format).value.log, s) ==
              if st == s && code.value in row && row[code.value] != ""
              then ErrorsOf(c.log, s) + [ErrorRecord(CodeText(c.namespace, s, code.value), format(row[code.value], args))]
              else ErrorsOf(c.log, s)
  {
  }

  /** The records of a chain that starts with an add that does not throw. */
  lemma RecordedHead<A>(namespace: string, errorsMap: map<int, map<int, string>>, st: int, code: int, args: seq<A>,
                        rest: seq<Call<A>>, format: (string, seq<A>) -> string, s: int)
    requires code != 0 && st in errorsMap
    ensures var row := errorsMap[st];
            var here := if st == s && code in row && row[code] != ""
                        then [ErrorRecord(CodeText(namespace, s, code), format(row[code], args))]
                        else [];
            Recorded(namespace, errorsMap, Some(st), [AddCall(Some(code), args)] + rest, format, s) ==
            here + Recorded(namespace, errorsMap, Some(st), rest, format, s)
  {
    var calls := [AddCall(Some(code), args)] + rest;
    assert calls[0] == AddCall(Some(code), args) && calls[1..] == rest;
  }

  /** A chain of calls that does not throw keeps the log grouped. */
  lemma {:induction false} SessionGrouped<A>(c: Coder, calls: seq<Call<A>>, format: (string, seq<A>) -> string)
    requires Grouped(c.namespace, c.log) && Session(c, calls, format).Ok?
    ensures Grouped(c.namespace, Session(c, calls, format).value.log)
    decreases |calls|
  {
    if calls != [] {
      var next := Apply(c, calls[0], format).value;
      if calls[0].AddCall? {
        AddToLogGrouped(c, calls[0].code, calls[0].args, format);
      }
      SessionGrouped(next, calls[1..], format);
    }
  }

  // ---------------------------------------------------------------------
  // The object

  class ErrorCoder {
    var namespace: string
    var errorsMap: map<int, map<int, string>>
    var currentStatus: Option<int>
    var errorsLog: map<int, Group>

    /** The object's fields as a value. */
    function Fields(): Coder
      reads this
    {
      Coder(namespace, errorsMap, currentStatus, errorsLog)
    }

    ghost predicate Valid()
      reads this
    {
      Grouped(namespace, errorsLog)
    }

    /**
     * `new ErrorCoder(options)`: a given option replaces the default, the
     * status is left undefined and the log is empty. `projectNamespace` is
     * what the package name would give.
     */
    constructor (namespace: Option<string>, errorsMap: Option<map<int, map<int, string>>>, projectNamespace: string)
      ensures Valid()
      ensures Fields() == Coder(if namespace.Some? then namespace.value else projectNamespace,
                                if errorsMap.Some? then errorsMap.value else map[], None, map[])
    {
      this.namespace := if namespace.Some? then namespace.value else projectNamespace;
      this.errorsMap := if errorsMap.Some? then errorsMap.value else map[];
      currentStatus := None;
      errorsLog := map[];
    }

    /** `init(status)` */
    method Init(status: Option<int>)
      modifies this
      ensures Fields() == InitOn(old(Fields()), status)
    {
      currentStatus := Some(if Truthy(status) then status.value else 0);
    }

    /** `setStatus(status)`: returns the object itself so that calls can be chained. */
    method SetStatus(status: Option<int>) returns (r: Result<ErrorCoder, CoderError>)
      modifies this
      ensures r.Ok? ==> r.value == this
      ensures SetStatusOn(old(Fields()), status) == if r.Ok? then Ok(Fields()) else Err(r.error)
      ensures r.Err? ==> Fields() == old(Fields())
    {
      if !Truthy(status) {
        return Err(StatusCodeRequired);
      }
      currentStatus := status;
      r := Ok(this);
    }

    /** `add(errorCode, ...args)`: returns the object itself so that calls can be chained. */
    method Add<A>(errorCode: Option<int>, args: seq<A>, format: (string, seq<A>) -> string) returns (r: Result<ErrorCoder, CoderError>)
      requires Valid()
      modifies this
      ensures Valid()
      ensures r.Ok? ==> r.value == this
      ensures AddToLog(old(Fields()), errorCode, args, format) == if r.Ok? then Ok(Fields()) else Err(r.error)
      ensures r.Err? ==> Fields() == old(Fields())
    {
      if !Truthy(errorCode) {
        return Err(StatusCodeRequired);
      }
      if currentStatus.None? || currentStatus.value !in errorsMap {
        return Err(NoStatusTable(currentStatus));
      }
      var status: int := currentStatus.value;
      var code: int := errorCode.value;
      var row := errorsMap[status];
      if code in row && row[code] != "" {
        var record := ErrorRecord(CodeText(namespace, status, code), format(row[code], args));
        assert Template(errorsMap, currentStatus, code) == Ok(Some(row[code]));
        LoggedGrouped(namespace, errorsLog, status, record);
        if status !in errorsLog {
          errorsLog := errorsLog[status := Group(status, [])];
        }
        var group := errorsLog[status];
        errorsLog := errorsLog[status := group.(errors := group.errors + [record])];
        assert errorsLog == Logged(old(errorsLog), status, record);
      } else {
        assert Template(errorsMap, currentStatus, code) == Ok(None);
      }
      r := Ok(this);
    }
  }
}
