/** The skeleton the audited service methods share:

      try { ...calls...; await AuditTrail(success); return v; }
      catch (err) { await AuditTrail(failure); throw err; }

    A workflow is specified by a function from the oracle and the calls made
    before it to a `Run`: how it settles and the calls it makes. */
module Workflow {
  import opened Common
  import opened DataStore

  datatype Run<+T> = Run(outcome: Settled<T>, calls: seq<Call>)

  /** The calls `done` happened first, then `r`. */
  function After<T>(done: seq<Call>, r: Run<T>): (s: Run<T>)
    ensures s.outcome == r.outcome && s.calls == done + r.calls
  {
    Run(r.outcome, done + r.calls)
  }

  /** The audit entries among `calls`, in order: the rows the workflow adds
      to `admin_audit_trails`. */
  function AuditsOf(calls: seq<Call>): (entries: seq<AuditEntry>)
    ensures |entries| <= |calls|
  {
    if calls == [] then [] else (if calls[0].Audit? then [calls[0].entry] else []) + AuditsOf(calls[1..])
  }

  /** Calls none of which is an audit write leave no entry. */
  lemma {:induction false} NoAudits(calls: seq<Call>)
    requires forall i :: 0 <= i < |calls| ==> !calls[i].Audit?
    ensures AuditsOf(calls) == []
    decreases |calls|
  {
    if calls != [] {
      NoAudits(calls[1..]);
    }
  }

  lemma {:induction false} AuditsOfConcat(a: seq<Call>, b: seq<Call>)
    ensures AuditsOf(a + b) == AuditsOf(a) + AuditsOf(b)
    decreases |a|
  {
    if a == [] {
      assert a + b == b;
    } else {
      assert (a + b)[0] == a[0] && (a + b)[1..] == a[1..] + b;
      AuditsOfConcat(a[1..], b);
      Associative(if a[0].Audit? then [a[0].entry] else [], AuditsOf(a[1..]), AuditsOf(b));
    }
  }

  lemma AuditsOfPair(c: Call, d: Call)
    ensures AuditsOf([c, d]) == AuditsOf([c]) + AuditsOf([d])
  {
    AuditsOfConcat([c], [d]);
    assert [c] + [d] == [c, d];
  }

  /** Calls that are not audit writes leave no entry in front of `r`'s. */
  lemma AfterAudits<T>(done: seq<Call>, r: Run<T>)
    requires forall i :: 0 <= i < |done| ==> !done[i].Audit?
    ensures AuditsOf(After(done, r).calls) == AuditsOf(r.calls)
  {
    NoAudits(done);
    AuditsOfConcat(done, r.calls);
  }

  /** The catch block: one "failed" entry, then the caught error again, unless
      the audit write itself rejects, in which case its error escapes. */
  function Caught<T>(o: Oracle, h: seq<Call>, failure: AuditEntry, e: Error): (r: Run<T>)
    ensures r.calls == [Audit(failure)] && r.outcome.Rejected?
    ensures o.write(h, Audit(failure)).Resolved? ==> r.outcome == Rejected(e)
    ensures o.write(h, Audit(failure)).Rejected? ==> r.outcome.error == o.write(h, Audit(failure)).error
  {
    match o.write(h, Audit(failure))
    case Resolved(_) => Run(Rejected(e), [Audit(failure)])
    case Rejected(e') => Run(Rejected(e'), [Audit(failure)])
  }

  /** The last statements of a try block, `await AuditTrail(entry); return v;`:
      when the audit write rejects, the catch block runs after it. */
  function Audited<T>(o: Oracle, h: seq<Call>, entry: AuditEntry, v: T, failure: AuditEntry): (r: Run<T>)
    ensures r.outcome.Resolved? <==> o.write(h, Audit(entry)).Resolved?
    ensures r.outcome.Resolved? ==> r == Run(Resolved(v), [Audit(entry)])
    ensures r.outcome.Rejected? ==> r.calls == [Audit(entry), Audit(failure)]
  {
    match o.write(h, Audit(entry))
    case Resolved(_) => Run(Resolved(v), [Audit(entry)])
    case Rejected(e) => After([Audit(entry)], Caught(o, h + [Audit(entry)], failure, e))
  }

  /** The catch block appends exactly its one entry. */
  lemma CaughtAudits<T>(o: Oracle, h: seq<Call>, failure: AuditEntry, e: Error)
    ensures AuditsOf(Caught<T>(o, h, failure, e).calls) == [failure]
  {
    assert AuditsOf([Audit(failure)]) == [failure] + AuditsOf([]);
  }

  /** A success audit that goes through leaves one entry; one that rejects is
      followed by the catch block's "failed" entry. */
  lemma AuditedAudits<T>(o: Oracle, h: seq<Call>, entry: AuditEntry, v: T, failure: AuditEntry)
    ensures var r := Audited(o, h, entry, v, failure);
      AuditsOf(r.calls) == if r.outcome.Resolved? then [entry] else [entry, failure]
  {
    AuditsOfPair(Audit(entry), Audit(failure));
    assert AuditsOf([Audit(entry)]) == [entry] + AuditsOf([]);
    assert AuditsOf([Audit(failure)]) == [failure] + AuditsOf([]);
  }

  method Catch<T>(store: Store, failure: AuditEntry, e: Error) returns (r: Settled<T>)
    modifies store
    ensures var run := Caught<T>(store.oracle, old(store.trace), failure, e);
      r == run.outcome && store.trace == old(store.trace) + run.calls
  {
    var w := store.Write(Audit(failure));
    if w.Rejected? {
      r := Rejected(w.error);
    } else {
      r := Rejected(e);
    }
  }

  method AuditThen<T>(store: Store, entry: AuditEntry, v: T, failure: AuditEntry) returns (r: Settled<T>)
    modifies store
    ensures var run := Audited(store.oracle, old(store.trace), entry, v, failure);
      r == run.outcome && store.trace == old(store.trace) + run.calls
  {
    var w := store.Write(Audit(entry));
    if w.Rejected? {
      r := Catch(store, failure, w.error);
    } else {
      r := Resolved(v);
    }
  }

  /** The shape of AddRFID, Topup, VoidTopup and the four bind/unbind calls:
      one stored procedure whose `result[0][0].STATUS` must be "SUCCESS"
      (anything else is thrown as `HttpBadRequest(status, [])`), then the
      success audit, and the first row is returned. */
  function StatusRun(o: Oracle, h: seq<Call>, c: Call, success: AuditEntry, failure: AuditEntry): Run<StatusRow> {
    After([c],
      match o.status(h, c)
      case Rejected(e) => Caught(o, h + [c], failure, e)
      case Resolved(row) =>
        if row.status != SUCCESS then Caught(o, h + [c], failure, BadRequest(row.status, NoData))
        else Audited(o, h + [c], success, row, failure))
  }

  method StatusCall(store: Store, c: Call, success: AuditEntry, failure: AuditEntry) returns (r: Settled<StatusRow>)
    modifies store
    ensures var run := StatusRun(store.oracle, old(store.trace), c, success, failure);
      r == run.outcome && store.trace == old(store.trace) + run.calls
  {
    var result := store.Status(c);
    if result.Rejected? {
      r := Catch(store, failure, result.error);
    } else if result.value.status != SUCCESS {
      r := Catch(store, failure, BadRequest(result.value.status, NoData));
    } else {
      r := AuditThen(store, success, result.value, failure);
    }
  }

  /** Everything a status-checked call does: it calls the procedure once and
      first; it resolves exactly when the status is "SUCCESS" and the success
      entry is written, returning that row; a rejection of the procedure or a
      status other than "SUCCESS" is rethrown after exactly one "failed"
      entry; a rejected success entry is followed by one "failed" entry. */
  lemma StatusRunSpec(o: Oracle, h: seq<Call>, c: Call, success: AuditEntry, failure: AuditEntry)
    requires !c.Audit?
    ensures var r := StatusRun(o, h, c, success, failure);
      var answer := o.status(h, c);
      var succeeded := answer.Resolved? && answer.value.status == SUCCESS;
      && |r.calls| >= 2 && r.calls[0] == c
      && (r.outcome.Resolved? <==> succeeded && o.write(h + [c], Audit(success)).Resolved?)
      && (r.outcome.Resolved? ==> r.outcome.value == answer.value && r.outcome.value.status == SUCCESS)
      && (r.outcome.Resolved? ==> r.calls == [c, Audit(success)])
      && (!succeeded ==> r.calls == [c, Audit(failure)])
      && AuditsOf(r.calls) == (if !succeeded then [failure]
                               else if r.outcome.Resolved? then [success]
                               else [success, failure])
      && (answer.Rejected? && o.write(h + [c], Audit(failure)).Resolved? ==> r.outcome == Rejected(answer.error))
      && (answer.Resolved? && !succeeded && o.write(h + [c], Audit(failure)).Resolved? ==>
            r.outcome == Rejected(BadRequest(answer.value.status, NoData)))
  {
    var r := StatusRun(o, h, c, success, failure);
    var tail := r.calls[1..];
    assert r.calls == [c] + tail;
    AuditsOfConcat([c], tail);
    assert AuditsOf([c]) == [];
    match o.status(h, c)
    case Rejected(e) =>
      CaughtAudits<StatusRow>(o, h + [c], failure, e);
    case Resolved(row) =>
      if row.status != SUCCESS {
        CaughtAudits<StatusRow>(o, h + [c], failure, BadRequest(row.status, NoData));
      } else {
        AuditedAudits(o, h + [c], success, row, failure);
      }
  }

  /** `return status;` after a status-checked call. */
  function StatusOf(r: Settled<StatusRow>): (s: Settled<string>)
    ensures s.Resolved? <==> r.Resolved?
    ensures r.Resolved? ==> s.value == r.value.status
    ensures r.Rejected? ==> s.error == r.error
  {
    match r
    case Resolved(row) => Resolved(row.status)
    case Rejected(e) => Rejected(e)
  }

  /** How the workflows that may return the raw write result resolve: with
      their own value, or with the store's `{ affectedRows, insertId }`. */
  datatype Reply<+T> = Confirmed(value: T) | Unconfirmed(result: WriteResult)

  /** What the paginated listings return: the rows, how many came back, the
      table's `COUNT(*)`, and the limit and offset they were asked for. */
  datatype Page = Page(items: seq<Value>, returned: nat, total: Value, limit: int, offset: int)
}
