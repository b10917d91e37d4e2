/** `EVSEService`: the listing of EVSEs (electric vehicle supply equipment),
    their registration inside one database transaction, and binding them to
    and unbinding them from a location. */
module EVSEService {
  import opened Common
  import opened DataStore
  import opened Workflow
  import opened ConnectorRepository

  const INVALID_LIMIT := "Invalid limit. Limit must be on type of number"
  const INVALID_OFFSET := "Invalid offset. Offset must be in type of number"
  const REGISTER_EVSE := "REGISTER new EVSE"
  const REGISTER_EVSE_ATTEMPT := "ATTEMPT to REGISTER new EVSE"
  const ATTEMPT_TO := "ATTEMPT to "
  const BIND_EVSE := "BIND EVSE with ID of "
  const TO_LOCATION := " to Location with ID of "
  const UNBIND_EVSE := "UNBIND EVSE with ID of "
  const FROM_LOCATION := " from Location with ID of "

  /** The `lastInsertID` `RegisterEVSE` hands to `AddTimeslots`, whatever the
      insert of the connectors reported. */
  const FIRST_CONNECTOR_ID := 1

  // ------------------------------------------------------------------- GetEVSES

  /** `GetEVSES({ limit, offset })`: both must be numbers; then the count and
      the page are read, in that order. */
  function GetEvsesRun(o: Oracle, h: seq<Call>, limit: Value, offset: Value): Run<Page> {
    if !limit.Num? then Run(Rejected(BadRequest(INVALID_LIMIT, NoData)), [])
    else if !offset.Num? then Run(Rejected(BadRequest(INVALID_OFFSET, NoData)), [])
    else
      var count := CountEvses;
      var query := GetEvses(limit.n, offset.n);
      match o.total(h, count)
      case Rejected(e) => Run(Rejected(e), [count])
      case Resolved(total) =>
        match o.records(h + [count], query)
        case Rejected(e) => Run(Rejected(e), [count, query])
        case Resolved(rows) => Run(Resolved(Page(rows, |rows|, total, limit.n, offset.n)), [count, query])
  }

  /** A limit or an offset that is not a number is refused before the store
      is asked, the limit first; otherwise the count and then the page are
      read, and the page reports how many rows it holds, the count, and the
      limit and offset it was asked for. Nothing is audited. */
  lemma GetEvsesSpec(o: Oracle, h: seq<Call>, limit: Value, offset: Value)
    ensures var r := GetEvsesRun(o, h, limit, offset);
      && (r.calls == [] <==> !limit.Num? || !offset.Num?)
      && (!limit.Num? ==> r.outcome == Rejected(BadRequest(INVALID_LIMIT, NoData)))
      && (limit.Num? && !offset.Num? ==> r.outcome == Rejected(BadRequest(INVALID_OFFSET, NoData)))
      && (limit.Num? && offset.Num? ==> r.calls <= [CountEvses, GetEvses(limit.n, offset.n)])
      && (r.outcome.Resolved? <==> limit.Num? && offset.Num? && o.total(h, CountEvses).Resolved? &&
                                   o.records(h + [CountEvses], GetEvses(limit.n, offset.n)).Resolved?)
      && (r.outcome.Resolved? ==>
            var page := r.outcome.value;
            && r.calls == [CountEvses, GetEvses(limit.n, offset.n)]
            && page.items == o.records(h + [CountEvses], GetEvses(limit.n, offset.n)).value
            && page.returned == |page.items|
            && page.total == o.total(h, CountEvses).value
            && limit == Num(page.limit) && offset == Num(page.offset))
      && AuditsOf(r.calls) == []
  {
    var r := GetEvsesRun(o, h, limit, offset);
    assert forall i :: 0 <= i < |r.calls| ==> !r.calls[i].Audit?;
    NoAudits(r.calls);
  }

  // ---------------------------------------------------------------- RegisterEVSE

  /** The request body of `RegisterEVSE`: the fields the registration
      procedure reads (model, vendor, serial numbers, ...) as `details`,
      and the arrays and kWh class the service itself uses. */
  datatype EvseRegistration = EvseRegistration(
    adminId: Value,
    details: seq<(string, Value)>,
    connectors: seq<Connector>,
    kwh: Value,
    paymentTypes: seq<Value>,
    capabilities: seq<Value>)

  /** `payment_types.map((payment_type) => [uid, payment_type])` */
  function PaymentTypeRows(uid: string, paymentTypes: seq<Value>): (rows: seq<(string, Value)>)
    ensures |rows| == |paymentTypes|
    ensures forall i :: 0 <= i < |rows| ==> rows[i].0 == uid && rows[i].1 == paymentTypes[i]
  {
    seq(|paymentTypes|, i requires 0 <= i < |paymentTypes| => (uid, paymentTypes[i]))
  }

  /** `capabilities.map((capability) => [capability, uid])` */
  function CapabilityRows(uid: string, capabilities: seq<Value>): (rows: seq<(Value, string)>)
    ensures |rows| == |capabilities|
    ensures forall i :: 0 <= i < |rows| ==> rows[i].0 == capabilities[i] && rows[i].1 == uid
  {
    seq(|capabilities|, i requires 0 <= i < |capabilities| => (capabilities[i], uid))
  }

  /** The four inserts made on the transaction's connection. */
  predicate IsInsert(c: Call) {
    c.InsertConnectors? || c.InsertTimeslots? || c.AddPaymentTypes? || c.AddCapabilities?
  }

  /** The inserts of a registration, in the order the service makes them. */
  function EvseWrites(uid: string, data: EvseRegistration): seq<Call> {
    [InsertConnectors(ConnectorRows(uid, data.connectors)),
     InsertTimeslots(TimeslotRows(uid, ConnectorIds(FIRST_CONNECTOR_ID, |data.connectors|), data.kwh)),
     AddPaymentTypes(PaymentTypeRows(uid, data.paymentTypes)),
     AddCapabilities(CapabilityRows(uid, data.capabilities))]
  }

  function EvseAttempt(admin: Value): AuditEntry {
    AuditEntry(admin, REGISTER_EVSE_ATTEMPT, Failed)
  }

  /** The catch and finally blocks once the connection is held:
      `conn.rollback()`, the "failed" entry, then `conn.release()`, which
      runs even when that entry is rejected. */
  function Abort<T>(o: Oracle, h: seq<Call>, failure: AuditEntry, e: Error): (r: Run<T>)
    ensures r.calls == [Rollback, Audit(failure), Release] && r.outcome.Rejected?
    ensures o.write(h + [Rollback], Audit(failure)).Resolved? ==> r.outcome == Rejected(e)
  {
    var caught := Caught<T>(o, h + [Rollback], failure, e);
    Run(caught.outcome, [Rollback] + caught.calls + [Release])
  }

  /** The rest of the try block once the procedure reported "SUCCESS": the
      inserts `writes` in order, the success entry, `conn.commit()` and, from
      the finally block, `conn.release()`. */
  function Transaction(o: Oracle, h: seq<Call>, writes: seq<Call>, success: AuditEntry, failure: AuditEntry)
    : Run<string>
    decreases |writes|
  {
    if writes == [] then
      match o.write(h, Audit(success))
      case Rejected(e) => After([Audit(success)], Abort(o, h + [Audit(success)], failure, e))
      case Resolved(_) => Run(Resolved(SUCCESS), [Audit(success), Commit, Release])
    else
      After([writes[0]],
        match o.write(h, writes[0])
        case Rejected(e) => Abort(o, h + [writes[0]], failure, e)
        case Resolved(_) => Transaction(o, h + [writes[0]], writes[1..], success, failure))
  }

  function RegisterEvseRun(o: Oracle, h: seq<Call>, uid: string, data: EvseRegistration): Run<string> {
    var c := RegisterEvse(uid, data.details);
    var failure := EvseAttempt(data.adminId);
    After([c],
      match o.status(h, c)
      case Rejected(e) => Caught(o, h + [c], failure, e)
      case Resolved(row) =>
        if row.status != SUCCESS then Abort(o, h + [c], failure, BadRequest(row.status, NoData))
        else Transaction(o, h + [c], EvseWrites(uid, data), AuditEntry(data.adminId, REGISTER_EVSE, Success), failure))
  }

  /** Every insert of `writes` resolves, each answered after the ones before. */
  predicate AllWritten(o: Oracle, h: seq<Call>, writes: seq<Call>)
    decreases |writes|
  {
    writes == [] || (o.write(h, writes[0]).Resolved? && AllWritten(o, h + [writes[0]], writes[1..]))
  }

  /** How many of `writes` are attempted: up to and including the first one
      rejected. */
  function Attempted(o: Oracle, h: seq<Call>, writes: seq<Call>): nat
    decreases |writes|
  {
    if writes == [] then 0
    else if o.write(h, writes[0]).Rejected? then 1
    else 1 + Attempted(o, h + [writes[0]], writes[1..])
  }

  /** What follows the attempted inserts: the success entry, the commit and
      the release; or the rollback, the "failed" entry and the release, after
      the success entry when every insert went through. */
  function Ending(resolved: bool, reached: bool, success: AuditEntry, failure: AuditEntry): seq<Call> {
    if resolved then [Audit(success), Commit, Release]
    else if reached then [Audit(success), Rollback, Audit(failure), Release]
    else [Rollback, Audit(failure), Release]
  }

  /** The closed form of a transaction over `writes` from history `h`: it
      resolves with "SUCCESS" exactly when every insert and then the success
      entry go through, and its calls are the attempted inserts, in order,
      followed by the matching `Ending`. */
  predicate Settles(o: Oracle, h: seq<Call>, writes: seq<Call>, success: AuditEntry, failure: AuditEntry,
                    r: Run<string>) {
    var n := Attempted(o, h, writes);
    var all := AllWritten(o, h, writes);
    && n <= |writes| && (all ==> n == |writes|)
    && (r.outcome.Resolved? <==> all && o.write(h + writes, Audit(success)).Resolved?)
    && (r.outcome.Resolved? ==> r.outcome.value == SUCCESS)
    && r.calls == writes[..n] + Ending(r.outcome.Resolved?, all, success, failure)
  }

  lemma {:induction false} TransactionSettles(o: Oracle, h: seq<Call>, writes: seq<Call>, success: AuditEntry,
                                              failure: AuditEntry)
    ensures Settles(o, h, writes, success, failure, Transaction(o, h, writes, success, failure))
    decreases |writes|, 1
  {
    if writes == [] {
      TransactionSettlesDone(o, h, success, failure);
    } else if o.write(h, writes[0]).Rejected? {
      TransactionSettlesRejected(o, h, writes, success, failure);
    } else {
      TransactionSettlesStep(o, h, writes, success, failure);
    }
  }

  lemma TransactionSettlesDone(o: Oracle, h: seq<Call>, success: AuditEntry, failure: AuditEntry)
    ensures Settles(o, h, [], success, failure, Transaction(o, h, [], success, failure))
  {
    assert h + [] == h;
  }

  lemma TransactionSettlesRejected(o: Oracle, h: seq<Call>, writes: seq<Call>, success: AuditEntry,
                                   failure: AuditEntry)
    requires writes != [] && o.write(h, writes[0]).Rejected?
    ensures Settles(o, h, writes, success, failure, Transaction(o, h, writes, success, failure))
  {
    assert writes[..1] == [writes[0]];
  }

  lemma {:induction false} TransactionSettlesStep(o: Oracle, h: seq<Call>, writes: seq<Call>, success: AuditEntry,
                                                  failure: AuditEntry)
    requires writes != [] && o.write(h, writes[0]).Resolved?
    ensures Settles(o, h, writes, success, failure, Transaction(o, h, writes, success, failure))
    decreases |writes|, 0
  {
    var c := writes[0];
    var rest := Transaction(o, h + [c], writes[1..], success, failure);
    TransactionSettles(o, h + [c], writes[1..], success, failure);
    var n := Attempted(o, h + [c], writes[1..]);
    assert Transaction(o, h, writes, success, failure) == After([c], rest);
    assert h + [c] + writes[1..] == h + writes;
    assert writes[..n + 1] == [c] + writes[1..][..n];
  }

  /** The error a transaction over `writes` leaves, once its "failed" entry
      is written: that of the first rejected insert, or that of the rejected
      success entry when every insert went through. */
  predicate Rethrows(o: Oracle, h: seq<Call>, writes: seq<Call>, success: AuditEntry, failure: AuditEntry,
                     r: Run<string>) {
    var n := Attempted(o, h, writes);
    && (!AllWritten(o, h, writes) ==>
          1 <= n <= |writes| && o.write(h + writes[..n - 1], writes[n - 1]).Rejected? &&
          (o.write(h + writes[..n] + [Rollback], Audit(failure)).Resolved? ==>
             r.outcome == Rejected(o.write(h + writes[..n - 1], writes[n - 1]).error)))
    && (AllWritten(o, h, writes) && o.write(h + writes, Audit(success)).Rejected? &&
        o.write(h + writes + [Audit(success)] + [Rollback], Audit(failure)).Resolved? ==>
          r.outcome == Rejected(o.write(h + writes, Audit(success)).error))
  }

  /** Every insert, and the success entry, rethrows its own error after the
      rollback, the "failed" entry and the release. */
  lemma {:induction false} TransactionRethrows(o: Oracle, h: seq<Call>, writes: seq<Call>, success: AuditEntry,
                                               failure: AuditEntry)
    ensures Rethrows(o, h, writes, success, failure, Transaction(o, h, writes, success, failure))
    decreases |writes|
  {
    if writes == [] {
      assert h + [] == h;
    } else if o.write(h, writes[0]).Rejected? {
      assert writes[..1] == [writes[0]] && writes[..0] == [];
      assert h + [] == h;
    } else {
      var c := writes[0];
      var h' := h + [c];
      TransactionRethrows(o, h', writes[1..], success, failure);
      var n := Attempted(o, h', writes[1..]);
      assert Transaction(o, h, writes, success, failure) == After([c], Transaction(o, h', writes[1..], success, failure));
      assert h' + writes[1..] == h + writes by {
        Associative(h, [c], writes[1..]);
        assert [c] + writes[1..] == writes;
      }
      if !AllWritten(o, h', writes[1..]) {
        assert 1 <= n;
        assert h' + writes[1..][..n] == h + writes[..n + 1] by {
          Associative(h, [c], writes[1..][..n]);
          assert [c] + writes[1..][..n] == writes[..n + 1];
        }
        assert h' + writes[1..][..n - 1] == h + writes[..n] by {
          Associative(h, [c], writes[1..][..n - 1]);
          assert [c] + writes[1..][..n - 1] == writes[..n];
        }
        assert writes[1..][n - 1] == writes[n];
      }
    }
  }

  /** The connection is handled once: the calls end with exactly one
      release, and hold one commit and no rollback when `committed`, one
      rollback and no commit otherwise. */
  predicate HandledOnce(calls: seq<Call>, committed: bool) {
    && |calls| >= 1 && calls[|calls| - 1] == Release
    && multiset(calls)[Release] == 1
    && multiset(calls)[Commit] == (if committed then 1 else 0)
    && multiset(calls)[Rollback] == (if committed then 0 else 1)
  }

  /** A prefix of inserts holds only inserts. */
  lemma PrefixInserts(writes: seq<Call>, n: nat)
    requires forall i :: 0 <= i < |writes| ==> IsInsert(writes[i])
    requires n <= |writes|
    ensures |writes[..n]| == n && forall i :: 0 <= i < n ==> IsInsert(writes[..n][i])
  {
  }

  /** After inserts, an ending handles the connection once, committed
      exactly when the transaction resolves. */
  lemma EndingHandled(inserts: seq<Call>, resolved: bool, reached: bool, success: AuditEntry, failure: AuditEntry)
    requires forall i :: 0 <= i < |inserts| ==> IsInsert(inserts[i])
    ensures HandledOnce(inserts + Ending(resolved, reached, success, failure), resolved)
  {
    var tail := Ending(resolved, reached, success, failure);
    assert Release !in inserts && Commit !in inserts && Rollback !in inserts;
    assert multiset(inserts + tail) == multiset(inserts) + multiset(tail);
  }

  /** No insert follows the attempted ones. */
  lemma EndingNoInserts(inserts: seq<Call>, tail: seq<Call>)
    requires forall i :: 0 <= i < |tail| ==> !IsInsert(tail[i])
    ensures (inserts + tail)[..|inserts|] == inserts
    ensures forall i :: |inserts| <= i < |inserts + tail| ==> !IsInsert((inserts + tail)[i])
  {
    assert forall i :: |inserts| <= i < |inserts + tail| ==> (inserts + tail)[i] == tail[i - |inserts|];
  }

  /** The entries are the success entry alone, the "failed" entry alone when
      an insert is rejected, or both when the success entry is. */
  lemma EndingAuditsAfter(inserts: seq<Call>, resolved: bool, reached: bool, success: AuditEntry, failure: AuditEntry)
    requires forall i :: 0 <= i < |inserts| ==> IsInsert(inserts[i])
    ensures AuditsOf(inserts + Ending(resolved, reached, success, failure)) ==
            (if resolved then [success] else if reached then [success, failure] else [failure])
  {
    AuditsOfConcat(inserts, Ending(resolved, reached, success, failure));
    InsertsLeaveNoEntry(inserts);
    EndingAudits(resolved, reached, success, failure);
  }

  lemma InsertsLeaveNoEntry(inserts: seq<Call>)
    requires forall i :: 0 <= i < |inserts| ==> IsInsert(inserts[i])
    ensures AuditsOf(inserts) == []
  {
    assert forall i :: 0 <= i < |inserts| ==> !inserts[i].Audit?;
    NoAudits(inserts);
  }

  lemma EndingAudits(resolved: bool, reached: bool, success: AuditEntry, failure: AuditEntry)
    ensures AuditsOf(Ending(resolved, reached, success, failure)) ==
            (if resolved then [success] else if reached then [success, failure] else [failure])
  {
    AuditsOfConcat([Audit(failure)], [Release]);
    AuditsOfConcat([Rollback], [Audit(failure), Release]);
    AuditsOfConcat([Audit(success)], [Rollback, Audit(failure), Release]);
    AuditsOfConcat([Audit(success)], [Commit, Release]);
    assert [Audit(failure), Release] == [Audit(failure)] + [Release];
    assert [Rollback, Audit(failure), Release] == [Rollback] + [Audit(failure), Release];
    assert [Audit(success), Rollback, Audit(failure), Release] == [Audit(success)] + [Rollback, Audit(failure), Release];
    assert [Audit(success), Commit, Release] == [Audit(success)] + [Commit, Release];
  }

  /** A transaction over inserts: the connection is handled once, the
      commit happening exactly when it resolves; the inserts are made in
      order, from the first, up to and including the first rejected one, and
      no insert follows; the error rethrown is the rejected call's own; and
      its audit entries are the success entry alone,
      the "failed" entry alone when an insert is rejected, or both when the
      success entry is. */
  lemma TransactionDiscipline(o: Oracle, h: seq<Call>, writes: seq<Call>, success: AuditEntry, failure: AuditEntry)
    requires forall i :: 0 <= i < |writes| ==> IsInsert(writes[i])
    ensures var r := Transaction(o, h, writes, success, failure);
      && Settles(o, h, writes, success, failure, r)
      && Rethrows(o, h, writes, success, failure, r)
      && Disciplined(writes, Attempted(o, h, writes), AllWritten(o, h, writes), success, failure, r.outcome.Resolved?, r.calls)
  {
    var r := Transaction(o, h, writes, success, failure);
    TransactionSettles(o, h, writes, success, failure);
    TransactionRethrows(o, h, writes, success, failure);
    EndingIsDisciplined(writes, Attempted(o, h, writes), AllWritten(o, h, writes), success, failure, r.outcome.Resolved?);
  }

  /** What `TransactionDiscipline` states of the calls of a transaction that
      attempted `n` of `writes`, went through all of them when `all`, and
      resolved when `resolved`. */
  predicate Disciplined(writes: seq<Call>, n: nat, all: bool, success: AuditEntry, failure: AuditEntry,
                        resolved: bool, calls: seq<Call>) {
    && HandledOnce(calls, resolved)
    && n <= |writes| && n <= |calls| && calls[..n] == writes[..n]
    && (forall i :: n <= i < |calls| ==> !IsInsert(calls[i]))
    && AuditsOf(calls) == (if resolved then [success] else if all then [success, failure] else [failure])
  }

  lemma EndingIsDisciplined(writes: seq<Call>, n: nat, all: bool, success: AuditEntry, failure: AuditEntry, resolved: bool)
    requires forall i :: 0 <= i < |writes| ==> IsInsert(writes[i])
    requires n <= |writes|
    ensures Disciplined(writes, n, all, success, failure, resolved, writes[..n] + Ending(resolved, all, success, failure))
  {
    PrefixInserts(writes, n);
    EndingHandled(writes[..n], resolved, all, success, failure);
    EndingNoInserts(writes[..n], Ending(resolved, all, success, failure));
    EndingAuditsAfter(writes[..n], resolved, all, success, failure);
  }

  /** The four inserts of a registration are inserts, and the first is always
      attempted. */
  lemma EvseWritesAreInserts(o: Oracle, h: seq<Call>, uid: string, data: EvseRegistration)
    ensures var writes := EvseWrites(uid, data);
      |writes| == 4 && (forall i :: 0 <= i < |writes| ==> IsInsert(writes[i])) && Attempted(o, h, writes) >= 1
  {
  }

  /** `RegisterEVSE`: the registration procedure is called first. Rejected, it
      hands out no connection, so nothing is rolled back or released, and one
      "failed" entry follows. A status other than "SUCCESS" is rolled back,
      audited once as failed and thrown as a bad request, then the
      connection is released. "SUCCESS" goes on with the transaction of the
      four inserts. */
  lemma RegisterEvseSpec(o: Oracle, h: seq<Call>, uid: string, data: EvseRegistration)
    ensures var r := RegisterEvseRun(o, h, uid, data);
      var c := RegisterEvse(uid, data.details);
      var answer := o.status(h, c);
      var failure := EvseAttempt(data.adminId);
      && r.calls[0] == c
      && (answer.Rejected? ==>
            r.calls == [c, Audit(failure)] && Release !in r.calls && Rollback !in r.calls &&
            (o.write(h + [c], Audit(failure)).Resolved? ==> r.outcome == Rejected(answer.error)))
      && (answer.Resolved? && answer.value.status != SUCCESS ==>
            r.calls == [c, Rollback, Audit(failure), Release] && r.outcome.Rejected? &&
            (o.write(h + [c] + [Rollback], Audit(failure)).Resolved? ==>
               r.outcome == Rejected(BadRequest(answer.value.status, NoData))))
      && (answer.Resolved? && answer.value.status == SUCCESS ==>
            r == After([c], Transaction(o, h + [c], EvseWrites(uid, data),
                                        AuditEntry(data.adminId, REGISTER_EVSE, Success), failure)))
  {
  }

  /** Once the procedure answers, the connection is released exactly once,
      last, with a commit exactly when the registration resolves and a
      rollback exactly when it rejects. It resolves exactly when the status
      is "SUCCESS", every insert goes through and so does the success entry,
      and then it returns "SUCCESS" after the procedure, the inserts in order,
      that entry, the commit and the release. */
  lemma RegisterEvseCommits(o: Oracle, h: seq<Call>, uid: string, data: EvseRegistration)
    ensures var r := RegisterEvseRun(o, h, uid, data);
      var c := RegisterEvse(uid, data.details);
      var answer := o.status(h, c);
      var writes := EvseWrites(uid, data);
      var success := AuditEntry(data.adminId, REGISTER_EVSE, Success);
      && (answer.Resolved? ==> HandledOnce(r.calls, r.outcome.Resolved?))
      && (r.outcome.Resolved? <==> answer.Resolved? && answer.value.status == SUCCESS &&
                                   AllWritten(o, h + [c], writes) && o.write(h + [c] + writes, Audit(success)).Resolved?)
      && (r.outcome.Resolved? ==> r == Run(Resolved(SUCCESS), [c] + writes + [Audit(success), Commit, Release]))
  {
    var c := RegisterEvse(uid, data.details);
    RegisterEvseSpec(o, h, uid, data);
    match o.status(h, c)
    case Rejected(e) =>
    case Resolved(row) =>
      if row.status != SUCCESS {
        RefusedIsHandled(c, EvseAttempt(data.adminId));
      } else {
        EvseWritesAreInserts(o, h + [c], uid, data);
        AcceptedIsHandled(o, h, c, EvseWrites(uid, data), AuditEntry(data.adminId, REGISTER_EVSE, Success),
                          EvseAttempt(data.adminId));
      }
  }

  lemma RefusedIsHandled(c: Call, failure: AuditEntry)
    requires c.RegisterEvse?
    ensures HandledOnce([c, Rollback, Audit(failure), Release], false)
  {
    assert multiset([c, Rollback, Audit(failure), Release]) == multiset{c} + multiset([Rollback, Audit(failure), Release]);
  }

  lemma AcceptedIsHandled(o: Oracle, h: seq<Call>, c: Call, writes: seq<Call>, success: AuditEntry,
                          failure: AuditEntry)
    requires c.RegisterEvse? && forall i :: 0 <= i < |writes| ==> IsInsert(writes[i])
    ensures var r := After([c], Transaction(o, h + [c], writes, success, failure));
      && HandledOnce(r.calls, r.outcome.Resolved?)
      && (r.outcome.Resolved? <==> AllWritten(o, h + [c], writes) && o.write(h + [c] + writes, Audit(success)).Resolved?)
      && (r.outcome.Resolved? ==> r == Run(Resolved(SUCCESS), [c] + writes + [Audit(success), Commit, Release]))
  {
    var rest := Transaction(o, h + [c], writes, success, failure);
    TransactionSettles(o, h + [c], writes, success, failure);
    AcceptedRun(c, writes, Attempted(o, h + [c], writes), AllWritten(o, h + [c], writes), success, failure, rest);
  }

  lemma AcceptedRun(c: Call, writes: seq<Call>, n: nat, all: bool, success: AuditEntry, failure: AuditEntry,
                    rest: Run<string>)
    requires c.RegisterEvse? && forall i :: 0 <= i < |writes| ==> IsInsert(writes[i])
    requires n <= |writes| && (all ==> n == |writes|)
    requires rest.calls == writes[..n] + Ending(rest.outcome.Resolved?, all, success, failure)
    requires rest.outcome.Resolved? ==> all && rest.outcome.value == SUCCESS
    ensures var r := After([c], rest);
      && HandledOnce(r.calls, r.outcome.Resolved?)
      && (r.outcome.Resolved? ==> r == Run(Resolved(SUCCESS), [c] + writes + [Audit(success), Commit, Release]))
  {
    PrefixInserts(writes, n);
    EndingHandled(writes[..n], rest.outcome.Resolved?, all, success, failure);
    PrependHandled(c, rest.calls, rest.outcome.Resolved?);
    if rest.outcome.Resolved? {
      assert writes[..|writes|] == writes;
      Associative([c], writes, [Audit(success), Commit, Release]);
    }
  }

  /** A call that is neither a commit, a rollback nor a release in front
      keeps the connection handled once. */
  lemma PrependHandled(c: Call, calls: seq<Call>, committed: bool)
    requires c != Commit && c != Rollback && c != Release && HandledOnce(calls, committed)
    ensures HandledOnce([c] + calls, committed)
  {
    assert multiset([c] + calls) == multiset{c} + multiset(calls);
  }

  /** Audit entries: one success entry when the registration resolves; one
      "failed" entry when it rejects before the success entry is written, and
      both when the success entry itself is rejected. */
  lemma RegisterEvseAudits(o: Oracle, h: seq<Call>, uid: string, data: EvseRegistration)
    ensures var r := RegisterEvseRun(o, h, uid, data);
      var c := RegisterEvse(uid, data.details);
      var answer := o.status(h, c);
      var reached := answer.Resolved? && answer.value.status == SUCCESS && AllWritten(o, h + [c], EvseWrites(uid, data));
      var success := AuditEntry(data.adminId, REGISTER_EVSE, Success);
      AuditsOf(r.calls) == (if r.outcome.Resolved? then [success]
                            else if reached then [success, EvseAttempt(data.adminId)]
                            else [EvseAttempt(data.adminId)])
  {
    var r := RegisterEvseRun(o, h, uid, data);
    var c := RegisterEvse(uid, data.details);
    var failure := EvseAttempt(data.adminId);
    RegisterEvseSpec(o, h, uid, data);
    AuditsOfConcat([c], r.calls[1..]);
    assert r.calls == [c] + r.calls[1..];
    assert AuditsOf([c]) == [];
    match o.status(h, c)
    case Rejected(e) =>
      CaughtAudits<string>(o, h + [c], failure, e);
    case Resolved(row) =>
      if row.status != SUCCESS {
        EndingAudits(false, false, AuditEntry(data.adminId, REGISTER_EVSE, Success), failure);
      } else {
        EvseWritesAreInserts(o, h + [c], uid, data);
        TransactionDiscipline(o, h + [c], EvseWrites(uid, data), AuditEntry(data.adminId, REGISTER_EVSE, Success), failure);
      }
  }

  /** Every timeslot row refers to one of the EVSE's connector rows: the
      timeslots are generated for connector ids 1, 2, ..., N, which are the
      ids the connector rows carry. */
  lemma TimeslotsReferToConnectors(uid: string, data: EvseRegistration)
    ensures var connectors := ConnectorRows(uid, data.connectors);
      forall t :: t in TimeslotRows(uid, ConnectorIds(FIRST_CONNECTOR_ID, |data.connectors|), data.kwh) ==>
        exists k :: 0 <= k < |connectors| && connectors[k].evseUid == t.evseUid && connectors[k].connectorId == t.connectorId
  {
    var connectors := ConnectorRows(uid, data.connectors);
    var ids := ConnectorIds(FIRST_CONNECTOR_ID, |data.connectors|);
    match Band(data.kwh)
    case None =>
    case Some((lo, hi)) =>
      forall t | t in Grid(uid, ids, lo, hi)
        ensures exists k :: 0 <= k < |connectors| && connectors[k].evseUid == t.evseUid && connectors[k].connectorId == t.connectorId
      {
        GridMembers(uid, ids, lo, hi, t);
        var k :| 0 <= k < |ids| && t.connectorId == ids[k];
        assert connectors[k].connectorId == k + 1 == ids[k];
      }
  }

  /** A row of the grid belongs to the EVSE and to one of the given ids. */
  lemma {:induction false} GridMembers(uid: string, ids: seq<int>, lo: int, hi: int, t: TimeslotRow)
    requires t in Grid(uid, ids, lo, hi)
    ensures t.evseUid == uid && exists k :: 0 <= k < |ids| && t.connectorId == ids[k]
    decreases |ids|
  {
    var head := SlotRows(uid, ids[0], lo, hi);
    if t in head {
      var j :| 0 <= j < |head| && head[j] == t;
    } else {
      GridMembers(uid, ids[1..], lo, hi, t);
      var k :| 0 <= k < |ids[1..]| && t.connectorId == ids[1..][k];
      assert ids[k + 1] == ids[1..][k];
    }
  }

  // --------------------------------------------------------- BindEVSE, UnbindEVSE

  function BindAction(evseUid: Value, locationId: Value): string {
    BIND_EVSE + JsString(evseUid) + TO_LOCATION + JsString(locationId)
  }

  function UnbindAction(evseUid: Value, locationId: Value): string {
    UNBIND_EVSE + JsString(evseUid) + FROM_LOCATION + JsString(locationId)
  }

  function BindEvseRun(o: Oracle, h: seq<Call>, evseUid: Value, locationId: Value, admin: Value): Run<StatusRow> {
    StatusRun(o, h, BindEvse(evseUid, locationId),
      AuditEntry(admin, BindAction(evseUid, locationId), Success),
      AuditEntry(admin, ATTEMPT_TO + BindAction(evseUid, locationId), Failed))
  }

  function UnbindEvseRun(o: Oracle, h: seq<Call>, evseUid: Value, locationId: Value, admin: Value): Run<StatusRow> {
    StatusRun(o, h, UnbindEvse(evseUid, locationId),
      AuditEntry(admin, UnbindAction(evseUid, locationId), Success),
      AuditEntry(admin, ATTEMPT_TO + UnbindAction(evseUid, locationId), Failed))
  }

  /** `BindEVSE`: one procedure call; "SUCCESS" comes back after one entry
      naming the EVSE and the location; any other status is thrown as a bad
      request after one "failed" entry that names them too. */
  lemma BindEvseSpec(o: Oracle, h: seq<Call>, evseUid: Value, locationId: Value, admin: Value)
    ensures var r := BindEvseRun(o, h, evseUid, locationId, admin);
      var c := BindEvse(evseUid, locationId);
      var answer := o.status(h, c);
      var action := BIND_EVSE + JsString(evseUid) + TO_LOCATION + JsString(locationId);
      var success := AuditEntry(admin, action, Success);
      var failure := AuditEntry(admin, ATTEMPT_TO + action, Failed);
      && r.calls[0] == c
      && (r.outcome.Resolved? <==> answer.Resolved? && answer.value.status == SUCCESS && o.write(h + [c], Audit(success)).Resolved?)
      && (r.outcome.Resolved? ==> r.outcome.value.status == SUCCESS && r.calls == [c, Audit(success)])
      && (answer.Resolved? && answer.value.status != SUCCESS ==>
            r.calls == [c, Audit(failure)] &&
            (o.write(h + [c], Audit(failure)).Resolved? ==> r.outcome == Rejected(BadRequest(answer.value.status, NoData))))
      && (answer.Rejected? ==> r.calls == [c, Audit(failure)])
      && (answer.Rejected? && o.write(h + [c], Audit(failure)).Resolved? ==> r.outcome == Rejected(answer.error))
      && (answer.Resolved? && answer.value.status == SUCCESS ==>
            AuditsOf(r.calls) == if r.outcome.Resolved? then [success] else [success, failure])
  {
    StatusRunSpec(o, h, BindEvse(evseUid, locationId),
      AuditEntry(admin, BindAction(evseUid, locationId), Success),
      AuditEntry(admin, ATTEMPT_TO + BindAction(evseUid, locationId), Failed));
  }

  /** `UnbindEVSE`: the same shape as `BindEVSE`, with its own procedure and
      entries. */
  lemma UnbindEvseSpec(o: Oracle, h: seq<Call>, evseUid: Value, locationId: Value, admin: Value)
    ensures var r := UnbindEvseRun(o, h, evseUid, locationId, admin);
      var c := UnbindEvse(evseUid, locationId);
      var answer := o.status(h, c);
      var action := UNBIND_EVSE + JsString(evseUid) + FROM_LOCATION + JsString(locationId);
      var success := AuditEntry(admin, action, Success);
      var failure := AuditEntry(admin, ATTEMPT_TO + action, Failed);
      && r.calls[0] == c
      && (r.outcome.Resolved? <==> answer.Resolved? && answer.value.status == SUCCESS && o.write(h + [c], Audit(success)).Resolved?)
      && (r.outcome.Resolved? ==> r.outcome.value.status == SUCCESS && r.calls == [c, Audit(success)])
      && (answer.Resolved? && answer.value.status != SUCCESS ==>
            r.calls == [c, Audit(failure)] &&
            (o.write(h + [c], Audit(failure)).Resolved? ==> r.outcome == Rejected(BadRequest(answer.value.status, NoData))))
      && (answer.Rejected? ==> r.calls == [c, Audit(failure)])
      && (answer.Rejected? && o.write(h + [c], Audit(failure)).Resolved? ==> r.outcome == Rejected(answer.error))
      && (answer.Resolved? && answer.value.status == SUCCESS ==>
            AuditsOf(r.calls) == if r.outcome.Resolved? then [success] else [success, failure])
  {
    StatusRunSpec(o, h, UnbindEvse(evseUid, locationId),
      AuditEntry(admin, UnbindAction(evseUid, locationId), Success),
      AuditEntry(admin, ATTEMPT_TO + UnbindAction(evseUid, locationId), Failed));
  }

  // ------------------------------------------------------------------- the service

  /** Part way through the transaction over `writes`: the inserts `done`
      went through and `todo` remain. */
  ghost predicate Pending(o: Oracle, h: seq<Call>, writes: seq<Call>, success: AuditEntry, failure: AuditEntry,
                          done: seq<Call>, todo: seq<Call>) {
    Transaction(o, h, writes, success, failure) == After(done, Transaction(o, h + done, todo, success, failure))
  }

  lemma SnocThree(h: seq<Call>, done: seq<Call>, x: Call, y: Call, z: Call)
    ensures h + done + [x] + [y] + [z] == h + (done + [x, y, z])
  {
  }

  lemma Begin(o: Oracle, h: seq<Call>, writes: seq<Call>, success: AuditEntry, failure: AuditEntry)
    ensures Pending(o, h, writes, success, failure, [], writes)
  {
    assert h + [] == h;
    assert [] + Transaction(o, h, writes, success, failure).calls == Transaction(o, h, writes, success, failure).calls;
  }

  /** With nothing left to insert, the success entry decides between the
      commit and the rollback. */
  lemma Conclude(o: Oracle, h: seq<Call>, writes: seq<Call>, success: AuditEntry, failure: AuditEntry,
                 done: seq<Call>)
    requires Pending(o, h, writes, success, failure, done, [])
    ensures var answer := o.write(h + done, Audit(success));
      && (answer.Rejected? ==>
            Transaction(o, h, writes, success, failure) ==
            After(done + [Audit(success)], Abort(o, h + done + [Audit(success)], failure, answer.error)))
      && (answer.Resolved? ==>
            Transaction(o, h, writes, success, failure) == Run(Resolved(SUCCESS), done + [Audit(success), Commit, Release]))
  {
  }

  /** An insert that goes through moves it from `todo` to `done`. */
  lemma Advance(o: Oracle, h: seq<Call>, writes: seq<Call>, success: AuditEntry, failure: AuditEntry,
                done: seq<Call>, todo: seq<Call>)
    requires Pending(o, h, writes, success, failure, done, todo)
    requires todo != [] && o.write(h + done, todo[0]).Resolved?
    ensures Pending(o, h, writes, success, failure, done + [todo[0]], todo[1..])
  {
    assert h + done + [todo[0]] == h + (done + [todo[0]]);
  }

  /** An insert that is rejected ends the transaction with the rollback. */
  lemma Stop(o: Oracle, h: seq<Call>, writes: seq<Call>, success: AuditEntry, failure: AuditEntry,
             done: seq<Call>, todo: seq<Call>)
    requires Pending(o, h, writes, success, failure, done, todo)
    requires todo != [] && o.write(h + done, todo[0]).Rejected?
    ensures Transaction(o, h, writes, success, failure) ==
            After(done + [todo[0]], Abort(o, h + done + [todo[0]], failure, o.write(h + done, todo[0]).error))
  {
  }


  class EVSEService {
    const store: Store

    constructor(store: Store)
      ensures this.store == store
    {
      this.store := store;
    }

    method GetEvses(limit: Value, offset: Value) returns (r: Settled<Page>)
      modifies store
      ensures var run := GetEvsesRun(store.oracle, old(store.trace), limit, offset);
        r == run.outcome && store.trace == old(store.trace) + run.calls
    {
      if !limit.Num? {
        return Rejected(BadRequest(INVALID_LIMIT, NoData));
      }
      if !offset.Num? {
        return Rejected(BadRequest(INVALID_OFFSET, NoData));
      }
      var totalEvsesInDb := store.Total(CountEvses);
      if totalEvsesInDb.Rejected? {
        return Rejected(totalEvsesInDb.error);
      }
      var result := store.Records(Call.GetEvses(limit.n, offset.n));
      if result.Rejected? {
        return Rejected(result.error);
      }
      r := Resolved(Page(result.value, |result.value|, totalEvsesInDb.value, limit.n, offset.n));
    }

    method RegisterEvse(uid: string, data: EvseRegistration) returns (r: Settled<string>)
      modifies store
      ensures var run := RegisterEvseRun(store.oracle, old(store.trace), uid, data);
        r == run.outcome && store.trace == old(store.trace) + run.calls
    {
      var failure := EvseAttempt(data.adminId);
      var result := store.Status(Call.RegisterEvse(uid, data.details));
      if result.Rejected? {
        r := Catch(store, failure, result.error);
        return;
      }
      var status := result.value.status;
      if status != SUCCESS {
        r := RollBack(failure, BadRequest(status, NoData));
        return;
      }
      r := Insert(uid, data, AuditEntry(data.adminId, REGISTER_EVSE, Success), failure);
    }

    /** `if (conn) conn.rollback()`, the catch block's entry, and the finally
        block's `conn.release()`. */
    method RollBack(failure: AuditEntry, e: Error) returns (r: Settled<string>)
      modifies store
      ensures var run := Abort<string>(store.oracle, old(store.trace), failure, e);
        r == run.outcome && store.trace == old(store.trace) + run.calls
    {
      store.Note(Rollback);
      r := Catch(store, failure, e);
      store.Note(Release);
    }

    /** The inserts on the connection, the success entry, the commit and the
        release. */
    method Insert(uid: string, data: EvseRegistration, success: AuditEntry, failure: AuditEntry)
      returns (r: Settled<string>)
      modifies store
      ensures var run := Transaction(store.oracle, old(store.trace), EvseWrites(uid, data), success, failure);
        r == run.outcome && store.trace == old(store.trace) + run.calls
    {
      var timeslots := AddTimeslots(uid, FIRST_CONNECTOR_ID, data.kwh, |data.connectors|);
      r := Transact(InsertConnectors(ConnectorRows(uid, data.connectors)), InsertTimeslots(timeslots),
                    AddPaymentTypes(PaymentTypeRows(uid, data.paymentTypes)),
                    AddCapabilities(CapabilityRows(uid, data.capabilities)), success, failure);
    }

    /** The four inserts in order, each followed by the rollback when it is
        rejected, then the success entry, the commit and the release. */
    method Transact(connectors: Call, timeslots: Call, paymentTypes: Call, capabilities: Call,
                    success: AuditEntry, failure: AuditEntry)
      returns (r: Settled<string>)
      modifies store
      ensures var run := Transaction(store.oracle, old(store.trace), [connectors, timeslots, paymentTypes, capabilities],
                                     success, failure);
        r == run.outcome && store.trace == old(store.trace) + run.calls
    {
      ghost var h := store.trace;
      ghost var writes := [connectors, timeslots, paymentTypes, capabilities];
      Begin(store.oracle, h, writes, success, failure);
      assert writes[..0] == [] && writes[0..] == writes;
      var stopped;
      stopped, r := Put(connectors, h, writes, success, failure, 0);
      if stopped {
        return;
      }
      stopped, r := Put(timeslots, h, writes, success, failure, 1);
      if stopped {
        return;
      }
      stopped, r := Put(paymentTypes, h, writes, success, failure, 2);
      if stopped {
        return;
      }
      stopped, r := Put(capabilities, h, writes, success, failure, 3);
      if stopped {
        return;
      }
      assert writes[..4] == writes && writes[4..] == [];
      r := Finish(h, writes, success, failure, writes);
    }

    /** The insert `writes[k]` of the transaction: when it is rejected, the
        rollback follows and the transaction is over. */
    method Put(c: Call, ghost h: seq<Call>, ghost writes: seq<Call>, success: AuditEntry, failure: AuditEntry, ghost k: nat)
      returns (stopped: bool, r: Settled<string>)
      requires k < |writes| && writes[k] == c && store.trace == h + writes[..k]
      requires Pending(store.oracle, h, writes, success, failure, writes[..k], writes[k..])
      modifies store
      ensures !stopped ==> store.trace == h + writes[..k + 1]
      ensures !stopped ==> Pending(store.oracle, h, writes, success, failure, writes[..k + 1], writes[k + 1..])
      ensures stopped ==> var run := Transaction(store.oracle, h, writes, success, failure);
        r == run.outcome && store.trace == h + run.calls
    {
      var w := store.Write(c);
      if w.Rejected? {
        Stop(store.oracle, h, writes, success, failure, writes[..k], writes[k..]);
        r := RollBack(failure, w.error);
        ghost var x := Abort<string>(store.oracle, h + writes[..k] + [c], failure, w.error).calls;
        Associative(h, writes[..k] + [c], x);
        Associative(h, writes[..k], [c]);
        return true, r;
      }
      Advance(store.oracle, h, writes, success, failure, writes[..k], writes[k..]);
      assert writes[..k] + [c] == writes[..k + 1] && writes[k..][1..] == writes[k + 1..];
      Associative(h, writes[..k], [c]);
      stopped, r := false, Resolved(SUCCESS);
    }

    /** The success entry, then the commit and the release, or the rollback
        when that entry is rejected. */
    method Finish(ghost h: seq<Call>, ghost writes: seq<Call>, success: AuditEntry, failure: AuditEntry,
                  ghost done: seq<Call>)
      returns (r: Settled<string>)
      requires Pending(store.oracle, h, writes, success, failure, done, []) && store.trace == h + done
      modifies store
      ensures var run := Transaction(store.oracle, h, writes, success, failure);
        r == run.outcome && store.trace == h + run.calls
    {
      Conclude(store.oracle, h, writes, success, failure, done);
      var w := store.Write(Audit(success));
      if w.Rejected? {
        ghost var x := Abort<string>(store.oracle, h + done + [Audit(success)], failure, w.error).calls;
        r := RollBack(failure, w.error);
        Associative(h, done + [Audit(success)], x);
        Associative(h, done, [Audit(success)]);
        return;
      }
      store.Note(Commit);
      store.Note(Release);
      SnocThree(h, done, Audit(success), Commit, Release);
      r := Resolved(SUCCESS);
    }

    method BindEvse(evseUid: Value, locationId: Value, admin: Value) returns (r: Settled<string>)
      modifies store
      ensures var run := BindEvseRun(store.oracle, old(store.trace), evseUid, locationId, admin);
        r == StatusOf(run.outcome) && store.trace == old(store.trace) + run.calls
    {
      var result := StatusCall(store, Call.BindEvse(evseUid, locationId),
        AuditEntry(admin, BindAction(evseUid, locationId), Success),
        AuditEntry(admin, ATTEMPT_TO + BindAction(evseUid, locationId), Failed));
      r := StatusOf(result);
    }

    method UnbindEvse(evseUid: Value, locationId: Value, admin: Value) returns (r: Settled<string>)
      modifies store
      ensures var run := UnbindEvseRun(store.oracle, old(store.trace), evseUid, locationId, admin);
        r == StatusOf(run.outcome) && store.trace == old(store.trace) + run.calls
    {
      var result := StatusCall(store, Call.UnbindEvse(evseUid, locationId),
        AuditEntry(admin, UnbindAction(evseUid, locationId), Success),
        AuditEntry(admin, ATTEMPT_TO + UnbindAction(evseUid, locationId), Failed));
      r := StatusOf(result);
    }
  }
}
