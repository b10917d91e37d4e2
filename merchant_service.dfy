/** `MerchantService`: the back-office operations on charging point operators
    (CPOs), their RFID cards and top-ups, and the company partner details.

    Every workflow is a function `...Run(o, h, ...)` of the oracle and the
    calls made before it, and a method of the class `MerchantService` proved
    to make exactly those calls and settle the same way. */
module MerchantService {
  import opened Common
  import opened Geocoding
  import opened DataStore
  import opened Workflow
  import opened CpoInput
  import PartyIdGenerator

  // ------------------------------------------------------- messages and actions

  const BAD_REQUEST := "Bad Request"
  const NO_CHANGES_APPLIED := "NO_CHANGES_APPLIED"
  const CPO_ID_DOES_NOT_EXISTS := "CPO_ID_DOES_NOT_EXISTS"
  const LOCATION_NOT_FOUND := "LOCATION_NOT_FOUND"
  const INVALID_REQUEST := "INVALID_REQUEST"
  const INVALID_USERNAME := "INVALID_USERNAME"
  const INVALID_CONTACT_NUMBER := "INVALID_CONTACT_NUMBER"
  const INVALID_CONTACT_EMAIL := "INVALID_CONTACT_EMAIL"
  const INVALID_AMOUNT := "INVALID_AMOUNT"
  const INVALID_ACTION := "INVALID_ACTION"
  const RFID_EXISTS := "RFID_EXISTS: "
  const USERNAME_MESSAGE := "Username must only contains letters, numbers, and underscores"
  const CONTACT_NUMBER_MESSAGE := "Contact number must be a valid number. (E.g. +639112231123 or 09112231123)"
  const CONTACT_EMAIL_MESSAGE := "Contact email must be a valid email. (E.g. email@gmail.com)"
  const VALID_ACTIONS_MESSAGE := "Valid actions are: activate, and deactivate"

  const ACTIVATE_ACTION := "activate"
  const DEACTIVATE_ACTION := "deactivate"
  const PHYSICAL := "PHYSICAL"
  const UNASSIGNED := "UNASSIGNED"

  /** The `action` column of the audit entries; the ones ending in "of "
      are followed by an id. */
  const REGISTER_CPO := "REGISTER Charging Point Operator"
  const REGISTER_CPO_ATTEMPT := "ATTEMPT to REGISTER Charging Point Operator"
  const UPDATE_CPO := "UPDATE Charging Point Operator with id of "
  const UPDATE_CPO_ATTEMPT := "ATTEMPT to UPDATE Charging Point Operator"
  const UPDATE_CPO_NO_CHANGES := "ATTEMPT to UPDATE Charging Point Operator - No Changes Applied"
  const ADD_RFID := "ADD RFID to Charging Point Operator with id of "
  const ADD_RFID_ATTEMPT := "ATTEMPT to ADD RFID to Charging Point Operator"
  const TOPUP := "TOPUP to CPO with id of "
  const TOPUP_ATTEMPT := "ATTEMPT to TOPUP to CPO with id of "
  const VOID_TOPUP := "VOID Topup with reference ID of "
  const VOID_TOPUP_ATTEMPT := "ATTEMPT to VOID Topup"
  const ACTIVATE := "ACTIVATE"
  const DEACTIVATE := "DEACTIVATE"
  const CPO_ACCOUNT := " Charging Point Operator account with id of "
  /** The catch block of `ChangeCPOAccountStatus` names DEACTIVATE whatever
      the action was. */
  const CPO_ACCOUNT_ATTEMPT := "ATTEMPT to DEACTIVATE Charging Point Operator account"
  const CREATE_PARTNER := "CREATED Company Partner Details"
  const CREATE_PARTNER_ATTEMPT := "ATTEMPT to create partner details"
  const UPDATE_PARTNER := "UPDATE Company Partner Details"
  const UPDATE_PARTNER_ATTEMPT := "ATTEMPT to update company partner details"

  // ---------------------------------------------------------------- RegisterCPO

  /** `RegisterCPO(data)`, for the request body `form`. The generated password
      is not represented, neither in the mail nor in the registration. */
  function RegisterCpoRun(o: Oracle, h: seq<Call>, form: seq<(string, Value)>): Run<string> {
    var admin := Lookup(form, "admin_id");
    var failure := AuditEntry(admin, REGISTER_CPO_ATTEMPT, Failed);
    var mail := SendCredentials(Lookup(form, "contact_email"), Lookup(form, "username"));
    var c := RegisterCpo(form);
    After([mail],
      match o.write(h, mail)
      case Rejected(e) => Caught(o, h + [mail], failure, e)
      case Resolved(_) =>
        After([c],
          match o.status(h + [mail], c)
          case Rejected(e) => Caught(o, h + [mail] + [c], failure, e)
          case Resolved(row) =>
            if row.status != SUCCESS then Caught(o, h + [mail] + [c], failure, BadRequest(BAD_REQUEST, Detail(row.status)))
            else Audited(o, h + [mail] + [c], AuditEntry(admin, REGISTER_CPO, Success), row.status, failure)))
  }

  /** The credentials are mailed before the operator is registered, so a
      registration the store refuses still leaves a sent mail behind; a status
      other than "SUCCESS" is thrown as the detail of a "Bad Request"; and the
      registration resolves only with "SUCCESS" and one success entry. */
  lemma RegisterCpoSpec(o: Oracle, h: seq<Call>, form: seq<(string, Value)>)
    ensures var r := RegisterCpoRun(o, h, form);
      var admin := Lookup(form, "admin_id");
      var mail := SendCredentials(Lookup(form, "contact_email"), Lookup(form, "username"));
      var failure := AuditEntry(admin, REGISTER_CPO_ATTEMPT, Failed);
      var success := AuditEntry(admin, REGISTER_CPO, Success);
      && r.calls[0] == mail
      && (o.write(h, mail).Rejected? ==> r.calls == [mail, Audit(failure)])
      && (r.outcome.Resolved? ==> r.outcome.value == SUCCESS && r.calls == [mail, RegisterCpo(form), Audit(success)])
      && (o.write(h, mail).Resolved? && o.status(h + [mail], RegisterCpo(form)).Resolved? ==>
            var status := o.status(h + [mail], RegisterCpo(form)).value.status;
            status != SUCCESS && o.write(h + [mail] + [RegisterCpo(form)], Audit(failure)).Resolved? ==>
              r.outcome == Rejected(BadRequest(BAD_REQUEST, Detail(status))))
      && (o.write(h, mail).Resolved? && o.status(h + [mail], RegisterCpo(form)).Resolved? &&
          o.status(h + [mail], RegisterCpo(form)).value.status == SUCCESS &&
          o.write(h + [mail] + [RegisterCpo(form)], Audit(success)).Resolved? ==>
            r == Run(Resolved(SUCCESS), [mail, RegisterCpo(form), Audit(success)]))
      && (o.write(h, mail).Rejected? && o.write(h + [mail], Audit(failure)).Resolved? ==>
            r.outcome == Rejected(o.write(h, mail).error))
      && (o.write(h, mail).Resolved? && o.status(h + [mail], RegisterCpo(form)).Rejected? ==>
            r.calls == [mail, RegisterCpo(form), Audit(failure)] &&
            (o.write(h + [mail] + [RegisterCpo(form)], Audit(failure)).Resolved? ==>
               r.outcome == Rejected(o.status(h + [mail], RegisterCpo(form)).error)))
      && AuditsOf(r.calls) in {[success], [failure], [success, failure]}
      && (r.outcome.Resolved? <==> AuditsOf(r.calls) == [success])
  {
    RegisterCpoEntries(o, h, form);
  }

  /** The three ways a registration can leave its entries. */
  lemma RegisterCpoEntries(o: Oracle, h: seq<Call>, form: seq<(string, Value)>)
    ensures var r := RegisterCpoRun(o, h, form);
      var A := AuditsOf(r.calls);
      var admin := Lookup(form, "admin_id");
      var failure := AuditEntry(admin, REGISTER_CPO_ATTEMPT, Failed);
      var success := AuditEntry(admin, REGISTER_CPO, Success);
      || (r.outcome.Rejected? && A == [failure])
      || (r.outcome.Resolved? && A == [success])
      || (r.outcome.Rejected? && A == [success, failure])
  {
    var r := RegisterCpoRun(o, h, form);
    var admin := Lookup(form, "admin_id");
    var mail := SendCredentials(Lookup(form, "contact_email"), Lookup(form, "username"));
    var failure := AuditEntry(admin, REGISTER_CPO_ATTEMPT, Failed);
    var success := AuditEntry(admin, REGISTER_CPO, Success);
    var c := RegisterCpo(form);
    match o.write(h, mail)
    case Rejected(e) =>
      AfterAudits([mail], Caught<string>(o, h + [mail], failure, e));
      CaughtAudits<string>(o, h + [mail], failure, e);
    case Resolved(_) =>
      var answer := o.status(h + [mail], c);
      var inner: Run<string>;
      if answer.Rejected? {
        inner := Caught(o, h + [mail] + [c], failure, answer.error);
        CaughtAudits<string>(o, h + [mail] + [c], failure, answer.error);
      } else if answer.value.status != SUCCESS {
        inner := Caught(o, h + [mail] + [c], failure, BadRequest(BAD_REQUEST, Detail(answer.value.status)));
        CaughtAudits<string>(o, h + [mail] + [c], failure, BadRequest(BAD_REQUEST, Detail(answer.value.status)));
      } else {
        inner := Audited(o, h + [mail] + [c], success, answer.value.status, failure);
        AuditedAudits(o, h + [mail] + [c], success, answer.value.status, failure);
      }
      assert r == After([mail], After([c], inner));
      AfterAudits([c], inner);
      AfterAudits([mail], After([c], inner));
  }

  // ----------------------------------------------------------- CheckRegisterCPO

  /** `CheckRegisterCPO(type, value)`. Whether `String(value)` matches the
      e-mail expression is the parameter `emailMatches`. */
  function CheckRegisterCpoRun(o: Oracle, h: seq<Call>, kind: string, value: Value, emailMatches: bool): Run<string> {
    if kind == "username" && !IsUsername(JsString(value)) then
      Run(Rejected(BadRequest(INVALID_USERNAME, Detail(USERNAME_MESSAGE))), [])
    else if kind == "contact_number" && !IsContactNumber(JsString(value)) then
      Run(Rejected(BadRequest(INVALID_CONTACT_NUMBER,
        Detail(CONTACT_NUMBER_MESSAGE))), [])
    else if kind == "contact_email" && !emailMatches then
      Run(Rejected(BadRequest(INVALID_CONTACT_EMAIL, Detail(CONTACT_EMAIL_MESSAGE))), [])
    else
      var c := CheckRegisterCpo(kind, value);
      match o.status(h, c)
      case Rejected(e) => Run(Rejected(e), [c])
      case Resolved(row) =>
        if row.status != SUCCESS then Run(Rejected(BadRequest(row.status, NoData)), [c])
        else Run(Resolved(row.status), [c])
  }

  /** A username, contact number or contact e-mail the expressions refuse is
      rejected with its own code and message without asking the store; a
      well-formed one, or any other field, is checked by the store exactly
      once: "SUCCESS" is returned, any other status is thrown as a bad
      request with that status, and nothing is audited either way. */
  lemma CheckRegisterCpoSpec(o: Oracle, h: seq<Call>, kind: string, value: Value, emailMatches: bool)
    ensures var r := CheckRegisterCpoRun(o, h, kind, value, emailMatches);
      var refused := (kind == "username" && !IsUsername(JsString(value))) ||
                     (kind == "contact_number" && !IsContactNumber(JsString(value))) ||
                     (kind == "contact_email" && !emailMatches);
      && (refused <==> r.calls == [])
      && (refused ==> r.outcome.Rejected? && r.outcome.error.BadRequest? &&
                      r.outcome.error.message in {INVALID_USERNAME, INVALID_CONTACT_NUMBER, INVALID_CONTACT_EMAIL})
      && (!refused ==> r.calls == [CheckRegisterCpo(kind, value)])
      && (r.outcome.Resolved? ==> r.outcome.value == SUCCESS)
      && AuditsOf(r.calls) == []
      && (kind == "username" && !IsUsername(JsString(value)) ==>
            r.outcome == Rejected(BadRequest(INVALID_USERNAME, Detail(USERNAME_MESSAGE))))
      && (kind == "contact_number" && !IsContactNumber(JsString(value)) ==>
            r.outcome == Rejected(BadRequest(INVALID_CONTACT_NUMBER, Detail(CONTACT_NUMBER_MESSAGE))))
      && (kind == "contact_email" && !emailMatches ==>
            r.outcome == Rejected(BadRequest(INVALID_CONTACT_EMAIL, Detail(CONTACT_EMAIL_MESSAGE))))
      && (!refused ==>
            var c := CheckRegisterCpo(kind, value);
            match o.status(h, c)
            case Rejected(e) => r.outcome == Rejected(e)
            case Resolved(row) =>
              r.outcome == (if row.status == SUCCESS then Resolved(SUCCESS)
                            else Rejected(BadRequest(row.status, NoData))))
  {
  }

  // -------------------------------------------------------------- UpdateCPOByID

  /** The existence check of one rule, probed with `newData[column]`
      (`undefined` when the update does not touch that column). */
  function Probe(rule: ColumnRule, data: seq<(string, Value)>): Call {
    ColumnValueExists(rule.table, rule.column, Lookup(data, rule.column))
  }

  /** The existence checks from `rules` on, collecting into `errors`. A check
      that rejects ends the checks with its error. */
  function ColumnChecks(o: Oracle, h: seq<Call>, data: seq<(string, Value)>, rules: seq<ColumnRule>,
                        errors: seq<(string, string)>): Run<seq<(string, string)>>
    decreases |rules|
  {
    if rules == [] then Run(Resolved(errors), [])
    else
      var c := Probe(rules[0], data);
      match o.count(h, c)
      case Rejected(e) => Run(Rejected(e), [c])
      case Resolved(n) =>
        After([c], ColumnChecks(o, h + [c], data, rules[1..],
                                if n > 0 then errors + [(rules[0].errorKey, rules[0].code)] else errors))
  }

  /** Every check of `calls`, made one after the other after `h`, found no
      row. */
  predicate NoneFound(o: Oracle, h: seq<Call>, calls: seq<Call>)
    decreases |calls|
  {
    calls == [] || (o.count(h, calls[0]) == Resolved(0) && NoneFound(o, h + [calls[0]], calls[1..]))
  }

  /** The key and code a hit of each rule records. */
  function RuleErrors(rules: seq<ColumnRule>): set<(string, string)> {
    set rule | rule in rules :: (rule.errorKey, rule.code)
  }

  /** The checks run in rule order, each once, and stop at the first that
      rejects; they all run when none rejects. */
  lemma {:induction false} ColumnChecksCalls(o: Oracle, h: seq<Call>, data: seq<(string, Value)>,
                                             rules: seq<ColumnRule>, errors: seq<(string, string)>)
    ensures var r := ColumnChecks(o, h, data, rules, errors);
      && |r.calls| <= |rules|
      && (forall i :: 0 <= i < |r.calls| ==> r.calls[i] == Probe(rules[i], data))
      && (r.outcome.Rejected? ==> |r.calls| >= 1)
      && (r.outcome.Resolved? ==> |r.calls| == |rules|)
    decreases |rules|
  {
    if rules != [] {
      var c := Probe(rules[0], data);
      var n := o.count(h, c);
      if n.Resolved? {
        var errors' := if n.value > 0 then errors + [(rules[0].errorKey, rules[0].code)] else errors;
        var r := ColumnChecks(o, h, data, rules, errors);
        var rest := ColumnChecks(o, h + [c], data, rules[1..], errors');
        ColumnChecksCalls(o, h + [c], data, rules[1..], errors');
        assert r.calls == [c] + rest.calls && r.outcome == rest.outcome;
        forall i | 0 <= i < |r.calls|
          ensures r.calls[i] == Probe(rules[i], data)
        {
          if i > 0 {
            assert r.calls[i] == rest.calls[i - 1];
            assert rules[i] == rules[1..][i - 1];
          }
        }
      }
    }
  }

  /** One check, unfolded after the calls `done`: a check that rejects ends
      the checks; otherwise the rest follow it. */
  lemma ColumnCheckStep(o: Oracle, h: seq<Call>, done: seq<Call>, data: seq<(string, Value)>,
                        rules: seq<ColumnRule>, errors: seq<(string, string)>)
    requires rules != []
    ensures var c := Probe(rules[0], data);
      var n := o.count(h + done, c);
      After(done, ColumnChecks(o, h + done, data, rules, errors)) ==
        if n.Rejected? then Run(Rejected(n.error), done + [c])
        else After(done + [c], ColumnChecks(o, h + (done + [c]), data, rules[1..],
                                            if n.value > 0 then errors + [(rules[0].errorKey, rules[0].code)]
                                            else errors))
  {
    var c := Probe(rules[0], data);
    var n := o.count(h + done, c);
    if n.Resolved? {
      var errors' := if n.value > 0 then errors + [(rules[0].errorKey, rules[0].code)] else errors;
      Associative(h, done, [c]);
      Associative(done, [c], ColumnChecks(o, h + (done + [c]), data, rules[1..], errors').calls);
    }
  }

  /** When all checks resolve, the given errors are kept, every error added
      is the key and code of one of the rules, and nothing is added exactly
      when no check found a row. */
  lemma {:induction false} ColumnChecksErrors(o: Oracle, h: seq<Call>, data: seq<(string, Value)>,
                                              rules: seq<ColumnRule>, errors: seq<(string, string)>)
    ensures var r := ColumnChecks(o, h, data, rules, errors);
      r.outcome.Resolved? ==>
        && errors <= r.outcome.value
        && (forall e :: e in r.outcome.value ==> e in errors || e in RuleErrors(rules))
        && (r.outcome.value == errors <==> NoneFound(o, h, r.calls))
    decreases |rules|
  {
    var r := ColumnChecks(o, h, data, rules, errors);
    if rules != [] {
      var c := Probe(rules[0], data);
      var n := o.count(h, c);
      if n.Resolved? {
        var errors' := if n.value > 0 then errors + [(rules[0].errorKey, rules[0].code)] else errors;
        var rest := ColumnChecks(o, h + [c], data, rules[1..], errors');
        ColumnChecksErrors(o, h + [c], data, rules[1..], errors');
        assert r.calls[1..] == rest.calls;
        assert RuleErrors(rules) == {(rules[0].errorKey, rules[0].code)} + RuleErrors(rules[1..]) by {
          assert rules == [rules[0]] + rules[1..];
        }
      }
    }
  }

  /** Check `i` of `calls`, made after `h` and the checks before it, found a
      row. */
  predicate Hit(o: Oracle, h: seq<Call>, calls: seq<Call>, i: nat)
    requires i < |calls|
  {
    var n := o.count(h + calls[..i], calls[i]);
    n.Resolved? && n.value > 0
  }

  /** A check after a first call `c` is the same check of the rest, after
      `h + [c]`. */
  lemma HitShift(o: Oracle, h: seq<Call>, c: Call, calls: seq<Call>, i: nat)
    requires 0 < i <= |calls|
    ensures Hit(o, h, [c] + calls, i) == Hit(o, h + [c], calls, i - 1)
  {
    assert ([c] + calls)[..i] == [c] + calls[..i - 1];
    Associative(h, [c], calls[..i - 1]);
  }

  /** When all checks resolve, every rule whose check found a row has its
      key and code in the result, even when they were already given. */
  lemma {:induction false} ColumnChecksRecordsHits(o: Oracle, h: seq<Call>, data: seq<(string, Value)>,
                                                   rules: seq<ColumnRule>, errors: seq<(string, string)>)
    ensures var r := ColumnChecks(o, h, data, rules, errors);
      r.outcome.Resolved? ==>
        && |r.calls| == |rules|
        && forall i :: 0 <= i < |rules| && Hit(o, h, r.calls, i) ==>
             (rules[i].errorKey, rules[i].code) in r.outcome.value
    decreases |rules|
  {
    var r := ColumnChecks(o, h, data, rules, errors);
    ColumnChecksCalls(o, h, data, rules, errors);
    if rules != [] {
      var c := Probe(rules[0], data);
      var n := o.count(h, c);
      if n.Resolved? {
        var e0 := (rules[0].errorKey, rules[0].code);
        var errors' := if n.value > 0 then errors + [e0] else errors;
        var rest := ColumnChecks(o, h + [c], data, rules[1..], errors');
        ColumnChecksRecordsHits(o, h + [c], data, rules[1..], errors');
        assert r.calls == [c] + rest.calls && r.outcome == rest.outcome;
        if r.outcome.Resolved? {
          var value := r.outcome.value;
          forall i | 0 <= i < |rules| && Hit(o, h, r.calls, i)
            ensures (rules[i].errorKey, rules[i].code) in value
          {
            if i == 0 {
              assert h + r.calls[..0] == h;
              assert n.value > 0;
              ColumnChecksErrors(o, h + [c], data, rules[1..], errors');
              assert errors'[|errors|] == e0;
              assert value[|errors|] == e0;
            } else {
              HitShift(o, h, c, rest.calls, i);
              assert rules[i] == rules[1..][i - 1];
            }
          }
        }
      }
    }
  }

  /** `e` is the key and code of a rule of `rules` whose check, in `calls`,
      found a row. */
  predicate FromHit(o: Oracle, h: seq<Call>, calls: seq<Call>, rules: seq<ColumnRule>, e: (string, string))
    requires |calls| == |rules|
  {
    exists i :: 0 <= i < |rules| && Hit(o, h, calls, i) && e == (rules[i].errorKey, rules[i].code)
  }

  /** When all checks resolve, every entry of the result was given or is the
      key and code of a rule whose check found a row. */
  lemma {:induction false} ColumnChecksOnlyHits(o: Oracle, h: seq<Call>, data: seq<(string, Value)>,
                                                rules: seq<ColumnRule>, errors: seq<(string, string)>)
    ensures var r := ColumnChecks(o, h, data, rules, errors);
      r.outcome.Resolved? ==>
        && |r.calls| == |rules|
        && forall e :: e in r.outcome.value ==> e in errors || FromHit(o, h, r.calls, rules, e)
    decreases |rules|
  {
    var r := ColumnChecks(o, h, data, rules, errors);
    ColumnChecksCalls(o, h, data, rules, errors);
    if rules != [] {
      var c := Probe(rules[0], data);
      var n := o.count(h, c);
      if n.Resolved? {
        var e0 := (rules[0].errorKey, rules[0].code);
        var errors' := if n.value > 0 then errors + [e0] else errors;
        var rest := ColumnChecks(o, h + [c], data, rules[1..], errors');
        ColumnChecksOnlyHits(o, h + [c], data, rules[1..], errors');
        assert r.calls == [c] + rest.calls && r.outcome == rest.outcome;
        if r.outcome.Resolved? {
          forall e | e in r.outcome.value
            ensures e in errors || FromHit(o, h, r.calls, rules, e)
          {
            if e !in errors' {
              assert e in rest.outcome.value;
              var j :| 0 <= j < |rules[1..]| && Hit(o, h + [c], rest.calls, j) &&
                       e == (rules[1..][j].errorKey, rules[1..][j].code);
              HitShift(o, h, c, rest.calls, j + 1);
              assert rules[j + 1] == rules[1..][j];
              assert Hit(o, h, r.calls, j + 1) && e == (rules[j + 1].errorKey, rules[j + 1].code);
            } else if e !in errors {
              assert n.value > 0 && e == e0;
              assert h + r.calls[..0] == h && r.calls[0] == c;
              assert Hit(o, h, r.calls, 0) && e == (rules[0].errorKey, rules[0].code);
            }
          }
        }
      }
    }
  }

  function UpdateAttempt(admin: Value): AuditEntry {
    AuditEntry(admin, UPDATE_CPO_ATTEMPT, Failed)
  }

  /** `UpdateCPOByID({ id, data, admin_id })`, for `data` given as its
      entries in insertion order. */
  function UpdateCpoByIdRun(o: Oracle, h: seq<Call>, id: Value, data: seq<(string, Value)>, admin: Value): Run<string> {
    if !HasValidKeys(data) then Caught(o, h, UpdateAttempt(admin), BadRequest(InvalidInputsMessage(), NoData))
    else if data == [] then
      Audited(o, h, AuditEntry(admin, UPDATE_CPO_NO_CHANGES, Success),
              NO_CHANGES_APPLIED, UpdateAttempt(admin))
    else CheckedUpdate(o, h, id, data, admin, COLUMN_RULES)
  }

  /** The existence checks of `rules`, then the rest of the update; a check
      that rejects goes to the catch block. */
  function CheckedUpdate(o: Oracle, h: seq<Call>, id: Value, data: seq<(string, Value)>, admin: Value,
                         rules: seq<ColumnRule>): Run<string> {
    var checks := ColumnChecks(o, h, data, rules, []);
    After(checks.calls,
      match checks.outcome
      case Rejected(e) => Caught(o, h + checks.calls, UpdateAttempt(admin), e)
      case Resolved(errors) => UpdateCpoChecked(o, h + checks.calls, id, data, admin, errors))
  }

  /** The rest of `UpdateCPOByID` once the checks have collected `errors`. */
  function UpdateCpoChecked(o: Oracle, h: seq<Call>, id: Value, data: seq<(string, Value)>, admin: Value,
                            errors: seq<(string, string)>): Run<string> {
    var failure := UpdateAttempt(admin);
    if errors != [] then Caught(o, h, failure, BadRequest(INVALID_REQUEST, FieldErrors(errors)))
    else
      var c := UpdateCpo(id, SetClause(data));
      After([c],
        match o.write(h, c)
        case Rejected(e) => Caught(o, h + [c], failure, e)
        case Resolved(result) =>
          if result.affectedRows > 0 then
            Audited(o, h + [c], AuditEntry(admin, UPDATE_CPO + JsString(id), Success),
                    SUCCESS, failure)
          else Caught(o, h + [c], failure, BadRequest(CPO_ID_DOES_NOT_EXISTS, NoData)))
  }

  /** Whitelisted, non-empty data goes on to the five checks. */
  lemma UpdateCpoRunsChecks(o: Oracle, h: seq<Call>, id: Value, data: seq<(string, Value)>, admin: Value)
    requires HasValidKeys(data) && data != []
    ensures UpdateCpoByIdRun(o, h, id, data, admin) == CheckedUpdate(o, h, id, data, admin, COLUMN_RULES)
  {
  }

  /** A key outside the whitelist is refused before any check: the only call
      is the "failed" entry. */
  lemma UpdateCpoRejectsUnknownKey(o: Oracle, h: seq<Call>, id: Value, data: seq<(string, Value)>, admin: Value, k: nat)
    requires k < |data| && data[k].0 !in VALID_INPUTS
    ensures var r := UpdateCpoByIdRun(o, h, id, data, admin);
      && r.calls == [Audit(UpdateAttempt(admin))]
      && (o.write(h, Audit(UpdateAttempt(admin))).Resolved? ==>
            r.outcome == Rejected(BadRequest(InvalidInputsMessage(), NoData)))
  {
  }

  /** No data: "NO_CHANGES_APPLIED" with one success entry and no check. */
  lemma UpdateCpoWithoutChanges(o: Oracle, h: seq<Call>, id: Value, admin: Value)
    ensures var r := UpdateCpoByIdRun(o, h, id, [], admin);
      var entry := AuditEntry(admin, UPDATE_CPO_NO_CHANGES, Success);
      && r.calls[0] == Audit(entry)
      && (forall i :: 0 <= i < |r.calls| ==> r.calls[i].Audit?)
      && (o.write(h, Audit(entry)).Resolved? ==> r == Run(Resolved(NO_CHANGES_APPLIED), [Audit(entry)]))
  {
  }

  /** With whitelisted, non-empty data the five existence checks run first,
      in the order username, CPO owner name, contact name, contact number and
      contact e-mail. When all five answer, what follows them is the rest of
      the update, given the errors they collected; those errors are empty
      exactly when no check found a row, and each names the key and code of
      one of the five rules. */
  lemma UpdateCpoChecksFirst(o: Oracle, h: seq<Call>, id: Value, data: seq<(string, Value)>, admin: Value)
    requires HasValidKeys(data) && data != []
    ensures var r := UpdateCpoByIdRun(o, h, id, data, admin);
      var checks := ColumnChecks(o, h, data, COLUMN_RULES, []);
      && checks.calls <= r.calls
      && 1 <= |checks.calls| <= 5
      && (forall i :: 0 <= i < |checks.calls| ==> r.calls[i] == Probe(COLUMN_RULES[i], data))
      && (checks.outcome.Rejected? ==> r.calls == checks.calls + [Audit(UpdateAttempt(admin))])
      && (checks.outcome.Resolved? ==>
            var errors := checks.outcome.value;
            && |checks.calls| == 5
            && r == After(checks.calls, UpdateCpoChecked(o, h + checks.calls, id, data, admin, errors))
            && (errors == [] <==> NoneFound(o, h, checks.calls))
            && (forall e :: e in errors ==> e in RuleErrors(COLUMN_RULES))
            && (forall i :: 0 <= i < 5 ==>
                  (Hit(o, h, checks.calls, i) <==> (COLUMN_RULES[i].errorKey, COLUMN_RULES[i].code) in errors))
            && (errors != [] && o.write(h + checks.calls, Audit(UpdateAttempt(admin))).Resolved? ==>
                  r == Run(Rejected(BadRequest(INVALID_REQUEST, FieldErrors(errors))),
                           checks.calls + [Audit(UpdateAttempt(admin))])))
  {
    var checks := ColumnChecks(o, h, data, COLUMN_RULES, []);
    ColumnChecksCalls(o, h, data, COLUMN_RULES, []);
    ColumnChecksErrors(o, h, data, COLUMN_RULES, []);
    if checks.outcome.Resolved? {
      ColumnRulesHits(o, h, data);
      UpdateCpoCheckedSpec(o, h + checks.calls, id, data, admin, checks.outcome.value);
    }
  }

  /** With the five rules and no errors given, probe `i` found a row exactly
      when the key and code of rule `i` are among the errors. */
  lemma ColumnRulesHits(o: Oracle, h: seq<Call>, data: seq<(string, Value)>)
    ensures var checks := ColumnChecks(o, h, data, COLUMN_RULES, []);
      checks.outcome.Resolved? ==>
        && |checks.calls| == 5
        && forall i :: 0 <= i < 5 ==>
             (Hit(o, h, checks.calls, i) <==> (COLUMN_RULES[i].errorKey, COLUMN_RULES[i].code) in checks.outcome.value)
  {
    var checks := ColumnChecks(o, h, data, COLUMN_RULES, []);
    ColumnChecksRecordsHits(o, h, data, COLUMN_RULES, []);
    ColumnChecksOnlyHits(o, h, data, COLUMN_RULES, []);
    if checks.outcome.Resolved? {
      var errors := checks.outcome.value;
      forall i | 0 <= i < 5 && (COLUMN_RULES[i].errorKey, COLUMN_RULES[i].code) in errors
        ensures Hit(o, h, checks.calls, i)
      {
        var j :| 0 <= j < 5 && Hit(o, h, checks.calls, j) &&
                 (COLUMN_RULES[i].errorKey, COLUMN_RULES[i].code) == (COLUMN_RULES[j].errorKey, COLUMN_RULES[j].code);
        ColumnRuleCodesDistinct(i, j);
      }
    }
  }

  /** Field errors are thrown as "INVALID_REQUEST" without an update. With
      none, the SET clause of the data is run; an update that touches no row
      is thrown as "CPO_ID_DOES_NOT_EXISTS", one that does resolves with
      "SUCCESS" and the entry naming the id. */
  lemma UpdateCpoCheckedSpec(o: Oracle, h: seq<Call>, id: Value, data: seq<(string, Value)>, admin: Value,
                             errors: seq<(string, string)>)
    ensures var r := UpdateCpoChecked(o, h, id, data, admin, errors);
      var c := UpdateCpo(id, SetClause(data));
      var failure := UpdateAttempt(admin);
      var success := AuditEntry(admin, UPDATE_CPO + JsString(id), Success);
      var answer := o.write(h, c);
      && (errors != [] ==>
            r.calls == [Audit(failure)] &&
            (o.write(h, Audit(failure)).Resolved? ==> r.outcome == Rejected(BadRequest(INVALID_REQUEST, FieldErrors(errors)))))
      && (errors == [] ==> r.calls[0] == c)
      && (errors == [] && answer.Resolved? && answer.value.affectedRows <= 0 ==>
            r.calls == [c, Audit(failure)] &&
            (o.write(h + [c], Audit(failure)).Resolved? ==> r.outcome == Rejected(BadRequest(CPO_ID_DOES_NOT_EXISTS, NoData))))
      && (r.outcome.Resolved? <==> errors == [] && answer.Resolved? && answer.value.affectedRows > 0 &&
                                   o.write(h + [c], Audit(success)).Resolved?)
      && (r.outcome.Resolved? ==> r == Run(Resolved(SUCCESS), [c, Audit(success)]))
  {
    var r := UpdateCpoChecked(o, h, id, data, admin, errors);
    var c := UpdateCpo(id, SetClause(data));
    var failure := UpdateAttempt(admin);
    var success := AuditEntry(admin, UPDATE_CPO + JsString(id), Success);
    if errors != [] {
      CaughtAudits<string>(o, h, failure, BadRequest(INVALID_REQUEST, FieldErrors(errors)));
    } else {
      var answer := o.write(h, c);
      var inner: Run<string>;
      if answer.Rejected? {
        inner := Caught(o, h + [c], failure, answer.error);
        CaughtAudits<string>(o, h + [c], failure, answer.error);
      } else if answer.value.affectedRows > 0 {
        inner := Audited(o, h + [c], success, SUCCESS, failure);
        AuditedAudits(o, h + [c], success, SUCCESS, failure);
      } else {
        inner := Caught(o, h + [c], failure, BadRequest(CPO_ID_DOES_NOT_EXISTS, NoData));
        CaughtAudits<string>(o, h + [c], failure, BadRequest(CPO_ID_DOES_NOT_EXISTS, NoData));
      }
      assert r == After([c], inner);
      AfterAudits([c], inner);
    }
  }

  /** The entries the rest of the update leaves. */
  lemma UpdateCpoCheckedAudits(o: Oracle, h: seq<Call>, id: Value, data: seq<(string, Value)>, admin: Value,
                               errors: seq<(string, string)>)
    ensures var r := UpdateCpoChecked(o, h, id, data, admin, errors);
      var A := AuditsOf(r.calls);
      && (|A| == 1 || (|A| == 2 && A[0].remarks == Success && A[1] == UpdateAttempt(admin)))
      && (r.outcome.Resolved? <==> |A| == 1 && A[0].remarks == Success)
      && (r.outcome.Rejected? ==> A[|A| - 1] == UpdateAttempt(admin))
  {
    UpdateCpoCheckedEntries(o, h, id, data, admin, errors);
  }

  /** The three ways the rest of the update can leave its entries. */
  lemma UpdateCpoCheckedEntries(o: Oracle, h: seq<Call>, id: Value, data: seq<(string, Value)>, admin: Value,
                                errors: seq<(string, string)>)
    ensures var r := UpdateCpoChecked(o, h, id, data, admin, errors);
      var A := AuditsOf(r.calls);
      var success := AuditEntry(admin, UPDATE_CPO + JsString(id), Success);
      || (r.outcome.Rejected? && A == [UpdateAttempt(admin)])
      || (r.outcome.Resolved? && A == [success])
      || (r.outcome.Rejected? && A == [success, UpdateAttempt(admin)])
  {
    var r := UpdateCpoChecked(o, h, id, data, admin, errors);
    var c := UpdateCpo(id, SetClause(data));
    var failure := UpdateAttempt(admin);
    var success := AuditEntry(admin, UPDATE_CPO + JsString(id), Success);
    if errors != [] {
      CaughtAudits<string>(o, h, failure, BadRequest(INVALID_REQUEST, FieldErrors(errors)));
    } else {
      var answer := o.write(h, c);
      var inner: Run<string>;
      if answer.Rejected? {
        inner := Caught(o, h + [c], failure, answer.error);
        CaughtAudits<string>(o, h + [c], failure, answer.error);
      } else if answer.value.affectedRows > 0 {
        inner := Audited(o, h + [c], success, SUCCESS, failure);
        AuditedAudits(o, h + [c], success, SUCCESS, failure);
      } else {
        inner := Caught(o, h + [c], failure, BadRequest(CPO_ID_DOES_NOT_EXISTS, NoData));
        CaughtAudits<string>(o, h + [c], failure, BadRequest(CPO_ID_DOES_NOT_EXISTS, NoData));
      }
      assert r == After([c], inner);
      AfterAudits([c], inner);
    }
  }

  /** Every run of `UpdateCPOByID` leaves one entry, or a success entry whose
      write failed followed by a "failed" one; it resolves exactly when it
      leaves one success entry, and a rejection ends with the "failed" one. */
  lemma UpdateCpoAudits(o: Oracle, h: seq<Call>, id: Value, data: seq<(string, Value)>, admin: Value)
    ensures var r := UpdateCpoByIdRun(o, h, id, data, admin);
      var A := AuditsOf(r.calls);
      && (|A| == 1 || (|A| == 2 && A[0].remarks == Success && A[1] == UpdateAttempt(admin)))
      && (r.outcome.Resolved? <==> |A| == 1 && A[0].remarks == Success)
      && (r.outcome.Rejected? ==> A[|A| - 1] == UpdateAttempt(admin))
  {
    var failure := UpdateAttempt(admin);
    if !HasValidKeys(data) {
      CaughtAudits<string>(o, h, failure, BadRequest(InvalidInputsMessage(), NoData));
    } else if data == [] {
      AuditedAudits(o, h, AuditEntry(admin, UPDATE_CPO_NO_CHANGES, Success),
                    NO_CHANGES_APPLIED, failure);
    } else {
      CheckedUpdateAudits(o, h, id, data, admin, COLUMN_RULES);
    }
  }

  /** The same, for the checks of any rules. */
  lemma CheckedUpdateAudits(o: Oracle, h: seq<Call>, id: Value, data: seq<(string, Value)>, admin: Value,
                            rules: seq<ColumnRule>)
    ensures var r := CheckedUpdate(o, h, id, data, admin, rules);
      var A := AuditsOf(r.calls);
      && (|A| == 1 || (|A| == 2 && A[0].remarks == Success && A[1] == UpdateAttempt(admin)))
      && (r.outcome.Resolved? <==> |A| == 1 && A[0].remarks == Success)
      && (r.outcome.Rejected? ==> A[|A| - 1] == UpdateAttempt(admin))
  {
    var failure := UpdateAttempt(admin);
    var checks := ColumnChecks(o, h, data, rules, []);
    ColumnChecksCalls(o, h, data, rules, []);
    assert forall i :: 0 <= i < |checks.calls| ==> !checks.calls[i].Audit?;
    if checks.outcome.Rejected? {
      AfterAudits(checks.calls, Caught<string>(o, h + checks.calls, failure, checks.outcome.error));
      CaughtAudits<string>(o, h + checks.calls, failure, checks.outcome.error);
    } else {
      var rest := UpdateCpoChecked(o, h + checks.calls, id, data, admin, checks.outcome.value);
      AfterAudits(checks.calls, rest);
      UpdateCpoCheckedAudits(o, h + checks.calls, id, data, admin, checks.outcome.value);
    }
  }

  // ---------------------------------------------------- AddRFID, Topup, VoidTopup

  function AddRfidRun(o: Oracle, h: seq<Call>, cpoOwnerId: Value, tag: Value, admin: Value): Run<StatusRow> {
    StatusRun(o, h, AddRfid(cpoOwnerId, tag),
      AuditEntry(admin, ADD_RFID + JsString(cpoOwnerId), Success),
      AuditEntry(admin, ADD_RFID_ATTEMPT, Failed))
  }

  /** `AddRFID`: one procedure call; a status other than "SUCCESS" is thrown
      as the message of a bad request after one "failed" entry; "SUCCESS"
      comes back with the entry naming the CPO. */
  lemma AddRfidSpec(o: Oracle, h: seq<Call>, cpoOwnerId: Value, tag: Value, admin: Value)
    ensures var r := AddRfidRun(o, h, cpoOwnerId, tag, admin);
      var c := AddRfid(cpoOwnerId, tag);
      var answer := o.status(h, c);
      var success := AuditEntry(admin, ADD_RFID + JsString(cpoOwnerId), Success);
      var failure := AuditEntry(admin, ADD_RFID_ATTEMPT, Failed);
      && r.calls[0] == c
      && (r.outcome.Resolved? ==> r.outcome.value.status == SUCCESS && r.calls == [c, Audit(success)])
      && (answer.Resolved? && answer.value.status != SUCCESS ==>
            r.calls == [c, Audit(failure)] &&
            (o.write(h + [c], Audit(failure)).Resolved? ==> r.outcome == Rejected(BadRequest(answer.value.status, NoData))))
      && (answer.Rejected? ==> r.calls == [c, Audit(failure)])
  {
    StatusRunSpec(o, h, AddRfid(cpoOwnerId, tag),
      AuditEntry(admin, ADD_RFID + JsString(cpoOwnerId), Success),
      AuditEntry(admin, ADD_RFID_ATTEMPT, Failed));
  }

  /** `{ status, new_balance }` of a top-up. */
  datatype TopupReceipt = TopupReceipt(status: string, newBalance: Value)

  function ReceiptOf(r: Settled<StatusRow>): Settled<TopupReceipt> {
    match r
    case Resolved(row) => Resolved(TopupReceipt(row.status, row.currentBalance))
    case Rejected(e) => Rejected(e)
  }

  function TopupRun(o: Oracle, h: seq<Call>, cpoOwnerId: Value, amount: real, admin: Value): Run<StatusRow> {
    var failure := AuditEntry(admin, TOPUP_ATTEMPT + JsString(cpoOwnerId), Failed);
    if amount <= 0.0 then Caught(o, h, failure, BadRequest(INVALID_AMOUNT, NoData))
    else StatusRun(o, h, Topup(cpoOwnerId, amount),
                   AuditEntry(admin, TOPUP + JsString(cpoOwnerId), Success), failure)
  }

  /** A top-up of zero or less is refused before the store is asked: the only
      call is the "failed" entry. */
  lemma TopupRejectsNonPositive(o: Oracle, h: seq<Call>, cpoOwnerId: Value, amount: real, admin: Value)
    requires amount <= 0.0
    ensures var r := TopupRun(o, h, cpoOwnerId, amount, admin);
      var failure := AuditEntry(admin, TOPUP_ATTEMPT + JsString(cpoOwnerId), Failed);
      && r.calls == [Audit(failure)]
      && (o.write(h, Audit(failure)).Resolved? ==> r.outcome == Rejected(BadRequest(INVALID_AMOUNT, NoData)))
  {
  }

  /** A positive top-up calls the procedure once; a status other than
      "SUCCESS" is thrown after one "failed" entry; "SUCCESS" returns the new
      balance the procedure reports, with one success entry. */
  lemma TopupPositive(o: Oracle, h: seq<Call>, cpoOwnerId: Value, amount: real, admin: Value)
    requires amount > 0.0
    ensures var r := TopupRun(o, h, cpoOwnerId, amount, admin);
      var c := Topup(cpoOwnerId, amount);
      var answer := o.status(h, c);
      var success := AuditEntry(admin, TOPUP + JsString(cpoOwnerId), Success);
      var failure := AuditEntry(admin, TOPUP_ATTEMPT + JsString(cpoOwnerId), Failed);
      && r.calls[0] == c
      && (r.outcome.Resolved? ==>
            ReceiptOf(r.outcome) == Resolved(TopupReceipt(SUCCESS, answer.value.currentBalance)) &&
            r.calls == [c, Audit(success)])
      && (answer.Resolved? && answer.value.status != SUCCESS ==>
            r.calls == [c, Audit(failure)] &&
            (o.write(h + [c], Audit(failure)).Resolved? ==> r.outcome == Rejected(BadRequest(answer.value.status, NoData))))
      && AuditsOf(r.calls) in {[success], [failure], [success, failure]}
  {
    StatusRunSpec(o, h, Topup(cpoOwnerId, amount),
      AuditEntry(admin, TOPUP + JsString(cpoOwnerId), Success),
      AuditEntry(admin, TOPUP_ATTEMPT + JsString(cpoOwnerId), Failed));
  }

  function VoidTopupRun(o: Oracle, h: seq<Call>, referenceId: Value, admin: Value): Run<StatusRow> {
    StatusRun(o, h, VoidTopup(referenceId),
      AuditEntry(admin, VOID_TOPUP + JsString(referenceId), Success),
      AuditEntry(admin, VOID_TOPUP_ATTEMPT, Failed))
  }

  /** `VoidTopup` returns the procedure's status, balance and reference
      number when the status is "SUCCESS", and throws that status otherwise. */
  lemma VoidTopupSpec(o: Oracle, h: seq<Call>, referenceId: Value, admin: Value)
    ensures var r := VoidTopupRun(o, h, referenceId, admin);
      var c := VoidTopup(referenceId);
      var answer := o.status(h, c);
      var success := AuditEntry(admin, VOID_TOPUP + JsString(referenceId), Success);
      var failure := AuditEntry(admin, VOID_TOPUP_ATTEMPT, Failed);
      && r.calls[0] == c
      && (r.outcome.Resolved? ==> r.outcome.value == answer.value && answer.value.status == SUCCESS &&
                                  r.calls == [c, Audit(success)])
      && (answer.Resolved? && answer.value.status != SUCCESS ==>
            r.calls == [c, Audit(failure)] &&
            (o.write(h + [c], Audit(failure)).Resolved? ==> r.outcome == Rejected(BadRequest(answer.value.status, NoData))))
      && AuditsOf(r.calls) in {[success], [failure], [success, failure]}
  {
    StatusRunSpec(o, h, VoidTopup(referenceId),
      AuditEntry(admin, VOID_TOPUP + JsString(referenceId), Success),
      AuditEntry(admin, VOID_TOPUP_ATTEMPT, Failed));
  }

  // ----------------------------------------------------- ChangeCPOAccountStatus

  function ChangeCpoAccountStatusRun(o: Oracle, h: seq<Call>, action: string, userId: Value, admin: Value): Run<string> {
    // the catch block's entry names DEACTIVATE whatever the action was
    var failure := AuditEntry(admin, CPO_ACCOUNT_ATTEMPT, Failed);
    if action !in [ACTIVATE_ACTION, DEACTIVATE_ACTION] then
      Caught(o, h, failure, BadRequest(INVALID_ACTION, MessageData(VALID_ACTIONS_MESSAGE)))
    else
      var c := if action == ACTIVATE_ACTION then ActivateCpo(userId) else DeactivateCpo(userId);
      After([c],
        match o.write(h, c)
        case Rejected(e) => Caught(o, h + [c], failure, e)
        case Resolved(result) =>
          if result.affectedRows != 0 then
            Audited(o, h + [c],
              AuditEntry(admin, (if action == ACTIVATE_ACTION then ACTIVATE else DEACTIVATE) +
                                CPO_ACCOUNT + JsString(userId), Success),
              SUCCESS, failure)
          else Run(Resolved(NO_CHANGES_APPLIED), []))
  }

  /** An unknown action is refused before the store is asked. */
  lemma ChangeCpoRejectsUnknownAction(o: Oracle, h: seq<Call>, action: string, userId: Value, admin: Value)
    requires action != ACTIVATE_ACTION && action != DEACTIVATE_ACTION
    ensures var r := ChangeCpoAccountStatusRun(o, h, action, userId, admin);
      var failure := AuditEntry(admin, CPO_ACCOUNT_ATTEMPT, Failed);
      && r.calls == [Audit(failure)]
      && (o.write(h, Audit(failure)).Resolved? ==>
            r.outcome == Rejected(BadRequest(INVALID_ACTION, MessageData(VALID_ACTIONS_MESSAGE))))
  {
  }

  /** "activate" activates and never deactivates, and "deactivate" the other
      way round; an update touching no row returns "NO_CHANGES_APPLIED" with
      no entry; one touching rows returns "SUCCESS" with one entry naming the
      action; a failure is audited as an attempt to DEACTIVATE either way. */
  lemma ChangeCpoSpec(o: Oracle, h: seq<Call>, action: string, userId: Value, admin: Value)
    requires action == ACTIVATE_ACTION || action == DEACTIVATE_ACTION
    ensures var r := ChangeCpoAccountStatusRun(o, h, action, userId, admin);
      var c := if action == ACTIVATE_ACTION then ActivateCpo(userId) else DeactivateCpo(userId);
      var answer := o.write(h, c);
      var success := AuditEntry(admin, (if action == ACTIVATE_ACTION then ACTIVATE else DEACTIVATE) +
                                       CPO_ACCOUNT + JsString(userId), Success);
      var failure := AuditEntry(admin, CPO_ACCOUNT_ATTEMPT, Failed);
      && r.calls[0] == c
      && (action == ACTIVATE_ACTION ==> forall i :: 0 <= i < |r.calls| ==> !r.calls[i].DeactivateCpo?)
      && (action == DEACTIVATE_ACTION ==> forall i :: 0 <= i < |r.calls| ==> !r.calls[i].ActivateCpo?)
      && (answer.Resolved? && answer.value.affectedRows == 0 ==> r == Run(Resolved(NO_CHANGES_APPLIED), [c]))
      && (answer.Resolved? && answer.value.affectedRows != 0 ==>
            r.calls[..2] == [c, Audit(success)] &&
            (o.write(h + [c], Audit(success)).Resolved? ==> r == Run(Resolved(SUCCESS), [c, Audit(success)])))
      && (answer.Rejected? ==>
            r.calls == [c, Audit(failure)] &&
            (o.write(h + [c], Audit(failure)).Resolved? ==> r.outcome == Rejected(answer.error)))
      && (r.outcome.Rejected? ==> r.calls[|r.calls| - 1] == Audit(failure))
  {
  }

  // ------------------------------------------------------------------- AddRFIDs

  /** The position of the first tag that already exists, or `|tags|`. */
  function FirstExisting(tags: seq<Value>, existing: seq<Value>): (k: nat)
    ensures k <= |tags|
    ensures forall j :: 0 <= j < k ==> tags[j] !in existing
    ensures k < |tags| ==> tags[k] in existing
    decreases |tags|
  {
    if tags == [] then 0
    else if tags[0] in existing then 0
    else 1 + FirstExisting(tags[1..], existing)
  }

  /** `rfidCardTags.map((rfid) => [rfid, cpoOwnerID, null, 0, 0, "PHYSICAL", "UNASSIGNED", ...])` */
  function RfidRows(tags: seq<Value>, cpoOwnerId: Value): (rows: seq<RfidRow>)
    ensures |rows| == |tags|
    ensures forall i :: 0 <= i < |tags| ==> rows[i] == RfidRow(tags[i], cpoOwnerId, Null, 0, 0, PHYSICAL, UNASSIGNED)
  {
    seq(|tags|, i requires 0 <= i < |tags| => RfidRow(tags[i], cpoOwnerId, Null, 0, 0, PHYSICAL, UNASSIGNED))
  }

  /** `AddRFIDs(cpoOwnerID, rfidCardTags)`: no try block and no audit. */
  function AddRfidsRun(o: Oracle, h: seq<Call>, cpoOwnerId: Value, tags: seq<Value>): Run<string> {
    match o.records(h, GetRfids)
    case Rejected(e) => Run(Rejected(e), [GetRfids])
    case Resolved(existing) =>
      var k := FirstExisting(tags, existing);
      if k < |tags| then Run(Rejected(BadRequest(RFID_EXISTS + JsString(tags[k]), NoData)), [GetRfids])
      else
        var c := AddRfids(RfidRows(tags, cpoOwnerId));
        match o.write(h + [GetRfids], c)
        case Rejected(e) => Run(Rejected(e), [GetRfids, c])
        case Resolved(_) => Run(Resolved(SUCCESS), [GetRfids, c])
  }

  /** A tag that already exists stops the call before anything is inserted,
      naming the first such tag in input order; otherwise every tag is
      inserted in one call, one row each, with the default columns. */
  lemma AddRfidsSpec(o: Oracle, h: seq<Call>, cpoOwnerId: Value, tags: seq<Value>)
    requires o.records(h, GetRfids).Resolved?
    ensures var r := AddRfidsRun(o, h, cpoOwnerId, tags);
      var existing := o.records(h, GetRfids).value;
      && r.calls[0] == GetRfids
      && AuditsOf(r.calls) == []
      && ((exists i :: 0 <= i < |tags| && tags[i] in existing) ==>
            exists k :: 0 <= k < |tags| && tags[k] in existing && (forall j :: 0 <= j < k ==> tags[j] !in existing) &&
                        r == Run(Rejected(BadRequest(RFID_EXISTS + JsString(tags[k]), NoData)), [GetRfids]))
      && ((forall i :: 0 <= i < |tags| ==> tags[i] !in existing) ==>
            r.calls == [GetRfids, AddRfids(RfidRows(tags, cpoOwnerId))] &&
            |r.calls[1].cards| == |tags| &&
            (r.outcome.Resolved? ==> r.outcome.value == SUCCESS) &&
            (var w := o.write(h + [GetRfids], AddRfids(RfidRows(tags, cpoOwnerId)));
             && (w.Resolved? ==> r.outcome == Resolved(SUCCESS))
             && (w.Rejected? ==> r.outcome == Rejected(w.error))))
  {
    var r := AddRfidsRun(o, h, cpoOwnerId, tags);
    assert AuditsOf(r.calls) == [] by {
      assert forall i :: 0 <= i < |r.calls| ==> !r.calls[i].Audit?;
      NoAudits(r.calls);
    }
  }

  /** A read of the RFID tags that rejects ends the call with its error:
      nothing is inserted. */
  lemma AddRfidsReadRejected(o: Oracle, h: seq<Call>, cpoOwnerId: Value, tags: seq<Value>)
    requires o.records(h, GetRfids).Rejected?
    ensures AddRfidsRun(o, h, cpoOwnerId, tags) == Run(Rejected(o.records(h, GetRfids).error), [GetRfids])
  {
  }

  // ----------------------------------------------------- company partner details

  /** `#GeneratePartyID`: the issued party ids are read, then the probe runs. */
  function GeneratePartyIdRun(o: Oracle, h: seq<Call>, companyName: string): (r: Run<string>)
    ensures r.calls == [GetPartnerDetails]
  {
    match o.records(h, GetPartnerDetails)
    case Rejected(e) => Run(Rejected(e), [GetPartnerDetails])
    case Resolved(rows) => Run(Resolved(PartyIdGenerator.PartyId(companyName, StringsOf(rows))), [GetPartnerDetails])
  }

  /** `{ party_id, message: "SUCCESS" }` */
  datatype PartnerCreated = PartnerCreated(partyId: string, message: string)

  function RegisterPartnerRun(o: Oracle, h: seq<Call>, companyName: string, address: string, admin: Value)
    : Run<Reply<PartnerCreated>>
  {
    var g := Geocode(address);
    After([g],
      match o.geocode(h, g)
      case Rejected(e) => Caught(o, h + [g], PartnerAttempt(admin), e)
      case Resolved(response) =>
        match AddressComponents(response)
        case None => Caught(o, h + [g], PartnerAttempt(admin), BadRequest(LOCATION_NOT_FOUND, NoData))
        case Some(components) => RegisterPartnerFound(o, h + [g], companyName, ShortNameOf(components, "country"), admin))
  }

  function PartnerAttempt(admin: Value): AuditEntry {
    AuditEntry(admin, CREATE_PARTNER_ATTEMPT, Failed)
  }

  /** `RegisterCompanyPartnerDetails` once the address is found: the party id
      is generated, then the partner is inserted and audited. */
  function RegisterPartnerFound(o: Oracle, h: seq<Call>, companyName: string, countryCode: Option<string>, admin: Value)
    : Run<Reply<PartnerCreated>>
  {
    var ids := GeneratePartyIdRun(o, h, companyName);
    After(ids.calls, RegisterPartnerWith(o, h + ids.calls, companyName, countryCode, admin, ids.outcome))
  }

  /** The insert and its audit, given how the generation of the party id
      settled. */
  function RegisterPartnerWith(o: Oracle, h: seq<Call>, companyName: string, countryCode: Option<string>, admin: Value,
                               partyId: Settled<string>): Run<Reply<PartnerCreated>>
  {
    var failure := PartnerAttempt(admin);
    match partyId
    case Rejected(e) => Caught(o, h, failure, e)
    case Resolved(id) =>
      var c := RegisterPartner(companyName, id, countryCode);
      After([c],
        match o.write(h, c)
        case Rejected(e) => Caught(o, h + [c], failure, e)
        case Resolved(result) =>
          if result.insertId != 0 then
            Audited(o, h + [c], AuditEntry(admin, CREATE_PARTNER, Success),
                    Confirmed(PartnerCreated(id, SUCCESS)), failure)
          else Audited(o, h + [c], failure, Unconfirmed(result), failure))
  }

  /** The issued party ids are read before anything else. */
  lemma RegisterPartnerGeneratesFirst(o: Oracle, h: seq<Call>, companyName: string, countryCode: Option<string>, admin: Value)
    ensures var r := RegisterPartnerFound(o, h, companyName, countryCode, admin);
      && r.calls[0] == GetPartnerDetails
      && r == After([GetPartnerDetails], RegisterPartnerWith(o, h + [GetPartnerDetails], companyName, countryCode, admin,
                                                             GeneratePartyIdRun(o, h, companyName).outcome))
  {
  }

  /** No address components: "LOCATION_NOT_FOUND" after one "failed" entry,
      and no party id is generated or registered. */
  lemma RegisterPartnerLocationNotFound(o: Oracle, h: seq<Call>, companyName: string, address: string, admin: Value)
    requires o.geocode(h, Geocode(address)).Resolved?
    requires AddressComponents(o.geocode(h, Geocode(address)).value).None?
    ensures var r := RegisterPartnerRun(o, h, companyName, address, admin);
      && r.calls == [Geocode(address), Audit(PartnerAttempt(admin))]
      && (o.write(h + [Geocode(address)], Audit(PartnerAttempt(admin))).Resolved? ==>
            r.outcome == Rejected(BadRequest(LOCATION_NOT_FOUND, NoData)))
  {
  }

  /** A found address goes on with the short name of its "country" component
      as the country code. */
  lemma RegisterPartnerLocated(o: Oracle, h: seq<Call>, companyName: string, address: string, admin: Value)
    requires o.geocode(h, Geocode(address)).Resolved?
    requires AddressComponents(o.geocode(h, Geocode(address)).value).Some?
    ensures var components := AddressComponents(o.geocode(h, Geocode(address)).value).value;
      var r := RegisterPartnerRun(o, h, companyName, address, admin);
      && r.calls[0] == Geocode(address)
      && r == After([Geocode(address)],
                    RegisterPartnerFound(o, h + [Geocode(address)], companyName, ShortNameOf(components, "country"), admin))
  {
  }

  /** The registered partner carries the party id generated from the company
      name and the issued ids. A non-zero insert id returns that party id with
      "SUCCESS" and one success entry; an insert id of 0 is not thrown: it
      appends one "failed" entry and returns the raw insert result. */
  lemma RegisterPartnerSpec(o: Oracle, h: seq<Call>, companyName: string, countryCode: Option<string>, admin: Value)
    requires o.records(h, GetPartnerDetails).Resolved?
    ensures var r := RegisterPartnerFound(o, h, companyName, countryCode, admin);
      var partyId := PartyIdGenerator.PartyId(companyName, StringsOf(o.records(h, GetPartnerDetails).value));
      var c := RegisterPartner(companyName, partyId, countryCode);
      var answer := o.write(h + [GetPartnerDetails], c);
      var h1 := h + [GetPartnerDetails] + [c];
      var success := AuditEntry(admin, CREATE_PARTNER, Success);
      && r.calls[..2] == [GetPartnerDetails, c]
      && (answer.Resolved? && answer.value.insertId != 0 && o.write(h1, Audit(success)).Resolved? ==>
            r == Run(Resolved(Confirmed(PartnerCreated(partyId, SUCCESS))), [GetPartnerDetails, c, Audit(success)]))
      && (answer.Resolved? && answer.value.insertId == 0 ==>
            r.calls[2] == Audit(PartnerAttempt(admin)) &&
            (o.write(h1, Audit(PartnerAttempt(admin))).Resolved? ==>
               r == Run(Resolved(Unconfirmed(answer.value)), [GetPartnerDetails, c, Audit(PartnerAttempt(admin))])))
  {
  }

  /** A read of the issued party ids that rejects goes to the catch block:
      one "failed" entry, no insert, and the error is rethrown. */
  lemma RegisterPartnerReadRejected(o: Oracle, h: seq<Call>, companyName: string, countryCode: Option<string>,
                                    admin: Value)
    requires o.records(h, GetPartnerDetails).Rejected?
    ensures var r := RegisterPartnerFound(o, h, companyName, countryCode, admin);
      && r.calls == [GetPartnerDetails, Audit(PartnerAttempt(admin))]
      && (o.write(h + [GetPartnerDetails], Audit(PartnerAttempt(admin))).Resolved? ==>
            r.outcome == Rejected(o.records(h, GetPartnerDetails).error))
  {
  }

  /** A geocoding request that rejects goes to the catch block: one "failed"
      entry, no party id and no insert, and the error is rethrown. */
  lemma RegisterPartnerGeocodeRejected(o: Oracle, h: seq<Call>, companyName: string, address: string, admin: Value)
    requires o.geocode(h, Geocode(address)).Rejected?
    ensures var r := RegisterPartnerRun(o, h, companyName, address, admin);
      && r.calls == [Geocode(address), Audit(PartnerAttempt(admin))]
      && (o.write(h + [Geocode(address)], Audit(PartnerAttempt(admin))).Resolved? ==>
            r.outcome == Rejected(o.geocode(h, Geocode(address)).error))
  {
  }

  function UpdatePartnerRun(o: Oracle, h: seq<Call>, address: string, id: Value, admin: Value): Run<Reply<string>> {
    var failure := AuditEntry(admin, UPDATE_PARTNER_ATTEMPT, Failed);
    var g := Geocode(address);
    After([g],
      match o.geocode(h, g)
      case Rejected(e) => Caught(o, h + [g], failure, e)
      case Resolved(response) =>
        match AddressComponents(response)
        case None => Caught(o, h + [g], failure, BadRequest(LOCATION_NOT_FOUND, NoData))
        case Some(components) =>
          var c := UpdatePartner(ShortNameOf(components, "country"), id);
          After([c],
            match o.write(h + [g], c)
            case Rejected(e) => Caught(o, h + [g] + [c], failure, e)
            case Resolved(result) =>
              if result.affectedRows != 0 then
                Audited(o, h + [g] + [c], AuditEntry(admin, UPDATE_PARTNER, Success), Confirmed(SUCCESS), failure)
              else Audited(o, h + [g] + [c], failure, Unconfirmed(result), failure)))
  }

  /** `UpdateCompanyPartnerDetails`: a geocoding request that rejects, or
      an address without components ("LOCATION_NOT_FOUND"), is thrown after
      one "failed" entry and without an update; otherwise the partner's
      country code is updated, and the call resolves with "SUCCESS" when rows
      were touched, or with the raw update result after one "failed" entry. */
  lemma UpdatePartnerSpec(o: Oracle, h: seq<Call>, address: string, id: Value, admin: Value)
    ensures var r := UpdatePartnerRun(o, h, address, id, admin);
      var g := Geocode(address);
      var geocoded := o.geocode(h, g);
      var failure := AuditEntry(admin, UPDATE_PARTNER_ATTEMPT, Failed);
      var success := AuditEntry(admin, UPDATE_PARTNER, Success);
      var failureLogged := o.write(h + [g], Audit(failure)).Resolved?;
      && r.calls[0] == g
      && (geocoded.Rejected? ==>
            r.calls == [g, Audit(failure)] &&
            (failureLogged ==> r.outcome == Rejected(geocoded.error)))
      && (geocoded.Resolved? ==>
            var components := AddressComponents(geocoded.value);
            && (components.None? ==>
                  r.calls == [g, Audit(failure)] &&
                  (failureLogged ==> r.outcome == Rejected(BadRequest(LOCATION_NOT_FOUND, NoData))))
            && (components.Some? ==>
                  var c := UpdatePartner(ShortNameOf(components.value, "country"), id);
                  var answer := o.write(h + [g], c);
                  && r.calls[..2] == [g, c]
                  && (r.outcome == Resolved(Confirmed(SUCCESS)) ==> r.calls == [g, c, Audit(success)])
                  && (answer.Resolved? && answer.value.affectedRows != 0 &&
                      o.write(h + [g] + [c], Audit(success)).Resolved? ==>
                        r == Run(Resolved(Confirmed(SUCCESS)), [g, c, Audit(success)]))
                  && (answer.Resolved? && answer.value.affectedRows == 0 &&
                      o.write(h + [g] + [c], Audit(failure)).Resolved? ==>
                        r == Run(Resolved(Unconfirmed(answer.value)), [g, c, Audit(failure)]))))
  {
  }

  // ------------------------------------------------------------------ the class

  /** The service, over its repository. The mailer and the geocoder it calls
      directly are part of the same store. */
  class MerchantService {
    const store: Store

    constructor(store: Store)
      ensures this.store == store
    {
      this.store := store;
    }

    method RegisterCpo(form: seq<(string, Value)>) returns (r: Settled<string>)
      modifies store
      ensures var run := RegisterCpoRun(store.oracle, old(store.trace), form);
        r == run.outcome && store.trace == old(store.trace) + run.calls
    {
      var admin := Lookup(form, "admin_id");
      var failure := AuditEntry(admin, REGISTER_CPO_ATTEMPT, Failed);
      var sent := store.Write(SendCredentials(Lookup(form, "contact_email"), Lookup(form, "username")));
      if sent.Rejected? {
        r := Catch(store, failure, sent.error);
        return;
      }
      var result := store.Status(Call.RegisterCpo(form));
      if result.Rejected? {
        r := Catch(store, failure, result.error);
        return;
      }
      var status := result.value.status;
      if status != SUCCESS {
        r := Catch(store, failure, BadRequest(BAD_REQUEST, Detail(status)));
        return;
      }
      r := AuditThen(store, AuditEntry(admin, REGISTER_CPO, Success), status, failure);
    }

    method CheckRegisterCpo(kind: string, value: Value, emailMatches: bool) returns (r: Settled<string>)
      modifies store
      ensures var run := CheckRegisterCpoRun(store.oracle, old(store.trace), kind, value, emailMatches);
        r == run.outcome && store.trace == old(store.trace) + run.calls
    {
      if kind == "username" && !IsUsername(JsString(value)) {
        return Rejected(BadRequest(INVALID_USERNAME, Detail(USERNAME_MESSAGE)));
      }
      if kind == "contact_number" && !IsContactNumber(JsString(value)) {
        return Rejected(BadRequest(INVALID_CONTACT_NUMBER,
          Detail(CONTACT_NUMBER_MESSAGE)));
      }
      if kind == "contact_email" && !emailMatches {
        return Rejected(BadRequest(INVALID_CONTACT_EMAIL, Detail(CONTACT_EMAIL_MESSAGE)));
      }
      var result := store.Status(Call.CheckRegisterCpo(kind, value));
      if result.Rejected? {
        return Rejected(result.error);
      }
      var status := result.value.status;
      if status != SUCCESS {
        return Rejected(BadRequest(status, NoData));
      }
      r := Resolved(status);
    }

    method UpdateCpoById(id: Value, data: seq<(string, Value)>, admin: Value) returns (r: Settled<string>)
      modifies store
      ensures var run := UpdateCpoByIdRun(store.oracle, old(store.trace), id, data, admin);
        r == run.outcome && store.trace == old(store.trace) + run.calls
    {
      if !HasValidKeys(data) {
        r := Catch(store, UpdateAttempt(admin), BadRequest(InvalidInputsMessage(), NoData));
        return;
      }
      if data == [] {
        r := AuditThen(store, AuditEntry(admin, UPDATE_CPO_NO_CHANGES, Success),
                       NO_CHANGES_APPLIED, UpdateAttempt(admin));
        return;
      }
      ghost var h := store.trace;
      r := CheckThenUpdate(id, data, admin, COLUMN_RULES);
      UpdateCpoRunsChecks(store.oracle, h, id, data, admin);
    }

    /** The existence checks, then the rest of the update; a check that
        rejects goes to the catch block. */
    method CheckThenUpdate(id: Value, data: seq<(string, Value)>, admin: Value, rules: seq<ColumnRule>)
      returns (r: Settled<string>)
      requires data != []
      modifies store
      ensures var run := CheckedUpdate(store.oracle, old(store.trace), id, data, admin, rules);
        r == run.outcome && store.trace == old(store.trace) + run.calls
    {
      ghost var h := store.trace;
      ghost var checks := ColumnChecks(store.oracle, h, data, rules, []);
      var errors := CheckColumns(data, rules);
      if errors.Rejected? {
        r := Catch(store, UpdateAttempt(admin), errors.error);
        Associative(h, checks.calls, Caught<string>(store.oracle, h + checks.calls, UpdateAttempt(admin), errors.error).calls);
        return;
      }
      r := UpdateChecked(id, data, admin, errors.value);
      Associative(h, checks.calls, UpdateCpoChecked(store.oracle, h + checks.calls, id, data, admin, errors.value).calls);
    }

    /** The existence checks of `UpdateCPOByID`, one after the other. */
    method CheckColumns(data: seq<(string, Value)>, rules: seq<ColumnRule>) returns (r: Settled<seq<(string, string)>>)
      modifies store
      ensures var run := ColumnChecks(store.oracle, old(store.trace), data, rules, []);
        r == run.outcome && store.trace == old(store.trace) + run.calls
    {
      ghost var h := store.trace;
      ghost var done: seq<Call> := [];
      var errors: seq<(string, string)> := [];
      for i := 0 to |rules|
        invariant store.trace == h + done
        invariant ColumnChecks(store.oracle, h, data, rules, []) ==
                  After(done, ColumnChecks(store.oracle, h + done, data, rules[i..], errors))
      {
        var rule := rules[i];
        var c := ColumnValueExists(rule.table, rule.column, Lookup(data, rule.column));
        ColumnCheckStep(store.oracle, h, done, data, rules[i..], errors);
        assert rules[i..][0] == rule && rules[i..][1..] == rules[i + 1..];
        var found := store.Count(c);
        if found.Rejected? {
          return Rejected(found.error);
        }
        if found.value > 0 {
          errors := errors + [(rule.errorKey, rule.code)];
        }
        done := done + [c];
      }
      assert rules[|rules|..] == [];
      r := Resolved(errors);
    }

    /** `UpdateCPOByID` after the existence checks. */
    method UpdateChecked(id: Value, data: seq<(string, Value)>, admin: Value, errors: seq<(string, string)>)
      returns (r: Settled<string>)
      requires data != []
      modifies store
      ensures var run := UpdateCpoChecked(store.oracle, old(store.trace), id, data, admin, errors);
        r == run.outcome && store.trace == old(store.trace) + run.calls
    {
      var failure := UpdateAttempt(admin);
      if errors != [] {
        r := Catch(store, failure, BadRequest(INVALID_REQUEST, FieldErrors(errors)));
        return;
      }
      var query := BuildSetClause(data);
      var updated := store.Write(UpdateCpo(id, query));
      if updated.Rejected? {
        r := Catch(store, failure, updated.error);
        return;
      }
      if updated.value.affectedRows > 0 {
        r := AuditThen(store, AuditEntry(admin, UPDATE_CPO + JsString(id), Success),
                       SUCCESS, failure);
        return;
      }
      r := Catch(store, failure, BadRequest(CPO_ID_DOES_NOT_EXISTS, NoData));
    }

    method AddRfid(cpoOwnerId: Value, tag: Value, admin: Value) returns (r: Settled<string>)
      modifies store
      ensures var run := AddRfidRun(store.oracle, old(store.trace), cpoOwnerId, tag, admin);
        r == StatusOf(run.outcome) && store.trace == old(store.trace) + run.calls
    {
      var result := StatusCall(store, Call.AddRfid(cpoOwnerId, tag),
        AuditEntry(admin, ADD_RFID + JsString(cpoOwnerId), Success),
        AuditEntry(admin, ADD_RFID_ATTEMPT, Failed));
      r := StatusOf(result);
    }

    method AddRfids(cpoOwnerId: Value, tags: seq<Value>) returns (r: Settled<string>)
      modifies store
      ensures var run := AddRfidsRun(store.oracle, old(store.trace), cpoOwnerId, tags);
        r == run.outcome && store.trace == old(store.trace) + run.calls
    {
      var existing := store.Records(GetRfids);
      if existing.Rejected? {
        return Rejected(existing.error);
      }
      for i := 0 to |tags|
        invariant forall j :: 0 <= j < i ==> tags[j] !in existing.value
      {
        if tags[i] in existing.value {
          return Rejected(BadRequest(RFID_EXISTS + JsString(tags[i]), NoData));
        }
      }
      var added := store.Write(Call.AddRfids(RfidRows(tags, cpoOwnerId)));
      if added.Rejected? {
        return Rejected(added.error);
      }
      r := Resolved(SUCCESS);
    }

    method Topup(cpoOwnerId: Value, amount: real, admin: Value) returns (r: Settled<TopupReceipt>)
      modifies store
      ensures var run := TopupRun(store.oracle, old(store.trace), cpoOwnerId, amount, admin);
        r == ReceiptOf(run.outcome) && store.trace == old(store.trace) + run.calls
    {
      var failure := AuditEntry(admin, TOPUP_ATTEMPT + JsString(cpoOwnerId), Failed);
      var result: Settled<StatusRow>;
      if amount <= 0.0 {
        result := Catch(store, failure, BadRequest(INVALID_AMOUNT, NoData));
      } else {
        result := StatusCall(store, Call.Topup(cpoOwnerId, amount),
          AuditEntry(admin, TOPUP + JsString(cpoOwnerId), Success), failure);
      }
      r := ReceiptOf(result);
    }

    method VoidTopup(referenceId: Value, admin: Value) returns (r: Settled<StatusRow>)
      modifies store
      ensures var run := VoidTopupRun(store.oracle, old(store.trace), referenceId, admin);
        r == run.outcome && store.trace == old(store.trace) + run.calls
    {
      r := StatusCall(store, Call.VoidTopup(referenceId),
        AuditEntry(admin, VOID_TOPUP + JsString(referenceId), Success),
        AuditEntry(admin, VOID_TOPUP_ATTEMPT, Failed));
    }

    method ChangeCpoAccountStatus(action: string, userId: Value, admin: Value) returns (r: Settled<string>)
      modifies store
      ensures var run := ChangeCpoAccountStatusRun(store.oracle, old(store.trace), action, userId, admin);
        r == run.outcome && store.trace == old(store.trace) + run.calls
    {
      var failure := AuditEntry(admin, CPO_ACCOUNT_ATTEMPT, Failed);
      if action !in [ACTIVATE_ACTION, DEACTIVATE_ACTION] {
        r := Catch(store, failure, BadRequest(INVALID_ACTION, MessageData(VALID_ACTIONS_MESSAGE)));
        return;
      }
      var result;
      if action == ACTIVATE_ACTION {
        result := store.Write(ActivateCpo(userId));
      } else {
        result := store.Write(DeactivateCpo(userId));
      }
      if result.Rejected? {
        r := Catch(store, failure, result.error);
        return;
      }
      if result.value.affectedRows != 0 {
        r := AuditThen(store,
          AuditEntry(admin, (if action == ACTIVATE_ACTION then ACTIVATE else DEACTIVATE) +
                            CPO_ACCOUNT + JsString(userId), Success),
          SUCCESS, failure);
        return;
      }
      r := Resolved(NO_CHANGES_APPLIED);
    }

    method GeneratePartyId(companyName: string) returns (r: Settled<string>)
      modifies store
      ensures var run := GeneratePartyIdRun(store.oracle, old(store.trace), companyName);
        r == run.outcome && store.trace == old(store.trace) + run.calls
    {
      var partyIds := store.Records(GetPartnerDetails);
      if partyIds.Rejected? {
        return Rejected(partyIds.error);
      }
      var partyId := PartyIdGenerator.GeneratePartyId(companyName, StringsOf(partyIds.value));
      r := Resolved(partyId);
    }

    method RegisterCompanyPartnerDetails(companyName: string, address: string, admin: Value)
      returns (r: Settled<Reply<PartnerCreated>>)
      modifies store
      ensures var run := RegisterPartnerRun(store.oracle, old(store.trace), companyName, address, admin);
        r == run.outcome && store.trace == old(store.trace) + run.calls
    {
      var geocoded := store.Geocode(Call.Geocode(address));
      if geocoded.Rejected? {
        r := Catch(store, PartnerAttempt(admin), geocoded.error);
        return;
      }
      var components := AddressComponents(geocoded.value);
      if components.None? {
        r := Catch(store, PartnerAttempt(admin), BadRequest(LOCATION_NOT_FOUND, NoData));
        return;
      }
      ghost var h := old(store.trace);
      r := RegisterFound(companyName, ShortNameOf(components.value, "country"), admin);
      RegisterPartnerLocated(store.oracle, h, companyName, address, admin);
    }

    /** `RegisterCompanyPartnerDetails` once the address is found. */
    method RegisterFound(companyName: string, countryCode: Option<string>, admin: Value)
      returns (r: Settled<Reply<PartnerCreated>>)
      modifies store
      ensures var run := RegisterPartnerFound(store.oracle, old(store.trace), companyName, countryCode, admin);
        r == run.outcome && store.trace == old(store.trace) + run.calls
    {
      ghost var h := store.trace;
      var partyId := GeneratePartyId(companyName);
      r := RegisterWith(companyName, countryCode, admin, partyId);
      RegisterPartnerGeneratesFirst(store.oracle, h, companyName, countryCode, admin);
    }

    /** The partner insert and its audit, given how the party id settled. */
    method RegisterWith(companyName: string, countryCode: Option<string>, admin: Value, partyId: Settled<string>)
      returns (r: Settled<Reply<PartnerCreated>>)
      modifies store
      ensures var run := RegisterPartnerWith(store.oracle, old(store.trace), companyName, countryCode, admin, partyId);
        r == run.outcome && store.trace == old(store.trace) + run.calls
    {
      var failure := PartnerAttempt(admin);
      if partyId.Rejected? {
        r := Catch(store, failure, partyId.error);
        return;
      }
      var result := store.Write(RegisterPartner(companyName, partyId.value, countryCode));
      if result.Rejected? {
        r := Catch(store, failure, result.error);
        return;
      }
      if result.value.insertId != 0 {
        r := AuditThen(store, AuditEntry(admin, CREATE_PARTNER, Success),
                       Confirmed(PartnerCreated(partyId.value, SUCCESS)), failure);
        return;
      }
      r := AuditThen(store, failure, Unconfirmed(result.value), failure);
    }

    method UpdateCompanyPartnerDetails(address: string, id: Value, admin: Value) returns (r: Settled<Reply<string>>)
      modifies store
      ensures var run := UpdatePartnerRun(store.oracle, old(store.trace), address, id, admin);
        r == run.outcome && store.trace == old(store.trace) + run.calls
    {
      ghost var h := store.trace;
      ghost var o := store.oracle;
      var failure := AuditEntry(admin, UPDATE_PARTNER_ATTEMPT, Failed);
      var g := Call.Geocode(address);
      var geocoded := store.Geocode(g);
      if geocoded.Rejected? {
        r := Catch(store, failure, geocoded.error);
        Associative(h, [g], Caught<Reply<string>>(o, h + [g], failure, geocoded.error).calls);
        return;
      }
      var components := AddressComponents(geocoded.value);
      if components.None? {
        r := Catch(store, failure, BadRequest(LOCATION_NOT_FOUND, NoData));
        Associative(h, [g], Caught<Reply<string>>(o, h + [g], failure, BadRequest(LOCATION_NOT_FOUND, NoData)).calls);
        return;
      }
      var c := UpdatePartner(ShortNameOf(components.value, "country"), id);
      var result := store.Write(c);
      ghost var rest: seq<Call>;
      if result.Rejected? {
        r := Catch(store, failure, result.error);
        rest := Caught<Reply<string>>(o, h + [g] + [c], failure, result.error).calls;
      } else if result.value.affectedRows != 0 {
        r := AuditThen(store, AuditEntry(admin, UPDATE_PARTNER, Success), Confirmed(SUCCESS), failure);
        rest := Audited<Reply<string>>(o, h + [g] + [c], AuditEntry(admin, UPDATE_PARTNER, Success), Confirmed(SUCCESS), failure).calls;
      } else {
        r := AuditThen(store, failure, Unconfirmed(result.value), failure);
        rest := Audited<Reply<string>>(o, h + [g] + [c], failure, Unconfirmed(result.value), failure).calls;
      }
      Associative(h + [g], [c], rest);
      Associative(h, [g], [c] + rest);
    }
  }
}
