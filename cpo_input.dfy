/** The pure input rules of `MerchantService`: the two regular expressions of
    `CheckRegisterCPO` that are modelled, and the key whitelist, existence
    checks and SET clause of `UpdateCPOByID`. */
module CpoInput {
  import opened Common

  predicate IsAsciiDigit(c: char) { '0' <= c <= '9' }

  /** `[a-zA-Z0-9_]`, the characters of `\w` in JavaScript. */
  predicate IsWordChar(c: char) {
    ('a' <= c <= 'z') || ('A' <= c <= 'Z') || IsAsciiDigit(c) || c == '_'
  }

  predicate AllDigits(s: string) {
    forall i :: 0 <= i < |s| ==> IsAsciiDigit(s[i])
  }

  /** `/^[a-zA-Z0-9_]+$/`: one or more word characters and nothing else. */
  predicate IsUsername(s: string) {
    |s| >= 1 && forall i :: 0 <= i < |s| ==> IsWordChar(s[i])
  }

  /** `/^(?:\+639|09)\d{9}$/`: "+639" or "09", then exactly nine digits. */
  predicate IsContactNumber(s: string) {
    || (|s| == 13 && s[..4] == "+639" && AllDigits(s[4..]))
    || (|s| == 11 && s[..2] == "09" && AllDigits(s[2..]))
  }

  /** The two examples the error message gives are accepted; a number without
      its prefix, or with a digit too many, is not. */
  lemma ContactNumberExamples()
    ensures IsContactNumber("+639112231123") && IsContactNumber("09112231123")
    ensures !IsContactNumber("9112231123") && !IsContactNumber("091122311234")
    ensures !IsContactNumber("+63911223112a")
  {
    assert "+639112231123"[..4] == "+639";
    assert "09112231123"[..2] == "09";
    assert "+63911223112a"[12] == 'a';
  }

  /** Both accepted forms name the same nine-digit subscriber number: a
      contact number is its prefix followed by nine digits. */
  lemma ContactNumberShape(s: string)
    requires IsContactNumber(s)
    ensures |s| >= 9 && AllDigits(s[|s| - 9..])
    ensures s[..|s| - 9] == "+639" || s[..|s| - 9] == "09"
  {
    if |s| == 13 && s[..4] == "+639" && AllDigits(s[4..]) {
      assert s[|s| - 9..] == s[4..];
      assert s[..|s| - 9] == s[..4];
    } else {
      assert s[|s| - 9..] == s[2..];
      assert s[..|s| - 9] == s[..2];
    }
  }

  /** A username never contains white space, a quote or a dot. */
  lemma UsernameExcludes(s: string)
    requires IsUsername(s)
    ensures forall i :: 0 <= i < |s| ==> s[i] != ' ' && s[i] != '\'' && s[i] != '.' && s[i] != '-'
  {
  }

  /** `VALID_INPUTS` of `UpdateCPOByID`. */
  const VALID_INPUTS: seq<string> := ["cpo_owner_name", "contact_name", "contact_number", "contact_email", "username"]

  /** `parts.join(sep)` */
  function Join(parts: seq<string>, sep: string): (s: string)
    ensures parts == [] ==> s == ""
    ensures |parts| == 1 ==> s == parts[0]
    decreases |parts|
  {
    if parts == [] then ""
    else if |parts| == 1 then parts[0]
    else parts[0] + sep + Join(parts[1..], sep)
  }

  lemma {:induction false} JoinSnoc(parts: seq<string>, p: string, sep: string)
    requires parts != []
    ensures Join(parts + [p], sep) == Join(parts, sep) + sep + p
    decreases |parts|
  {
    if |parts| == 1 {
      assert (parts + [p])[1..] == [p];
    } else {
      assert (parts + [p])[1..] == parts[1..] + [p];
      JoinSnoc(parts[1..], p, sep);
    }
  }

  /** The message of the whitelist error. */
  function InvalidInputsMessage(): string {
    "Valid inputs are: " + Join(VALID_INPUTS, ", ")
  }

  /** `Object.keys(data).every((value) => VALID_INPUTS.includes(value))` */
  predicate HasValidKeys(data: seq<(string, Value)>) {
    forall i :: 0 <= i < |data| ==> data[i].0 in VALID_INPUTS
  }

  /** One `CheckIfColumnValueExists` of `UpdateCPOByID`: the table and column
      probed with `newData[column]`, and the key and code recorded in
      `errors` on a hit. */
  datatype ColumnRule = ColumnRule(table: string, column: string, errorKey: string, code: string)

  const USERNAME_RULE := ColumnRule("users", "username", "username", "USERNAME_EXISTS")
  const CPO_OWNER_NAME_RULE := ColumnRule("cpo_owners", "cpo_owner_name", "cpo_owner_name", "CPO_OWNER_NAME_EXISTS")
  const CONTACT_NAME_RULE := ColumnRule("cpo_owners", "contact_name", "contact_name", "CONTACT_NAME_EXISTS")
  /** The contact-number error is recorded under the key "cotnact_number", as
      the service spells it. */
  const CONTACT_NUMBER_RULE := ColumnRule("cpo_owners", "contact_number", "cotnact_number", "CONTACT_NUMBER_EXISTS")
  const CONTACT_EMAIL_RULE := ColumnRule("cpo_owners", "contact_email", "contact_email", "CONTACT_EMAIL_EXISTS")

  /** The five checks, in the order they run. */
  const COLUMN_RULES: seq<ColumnRule> :=
    [USERNAME_RULE, CPO_OWNER_NAME_RULE, CONTACT_NAME_RULE, CONTACT_NUMBER_RULE, CONTACT_EMAIL_RULE]

  /** No two rules record the same code, so the errors name the rules that
      hit. */
  lemma ColumnRuleCodesDistinct(i: nat, j: nat)
    requires i < |COLUMN_RULES| && j < |COLUMN_RULES|
    requires COLUMN_RULES[i].code == COLUMN_RULES[j].code
    ensures i == j
  {
  }

  /** `` ` ${key} = '${value}'` `` */
  function Assignment(entry: (string, Value)): string {
    " " + entry.0 + " = '" + JsString(entry.1) + "'"
  }

  function Assignments(entries: seq<(string, Value)>): (parts: seq<string>)
    ensures |parts| == |entries|
    ensures forall i :: 0 <= i < |entries| ==> parts[i] == Assignment(entries[i])
  {
    seq(|entries|, i requires 0 <= i < |entries| => Assignment(entries[i]))
  }

  /** The query `UpdateCPOByID` hands to the repository: "SET" followed by the
      assignments, in insertion order and separated by commas. */
  function SetClause(entries: seq<(string, Value)>): string {
    "SET" + Join(Assignments(entries), ",")
  }

  /** The loop of `UpdateCPOByID` that appends `` ` ${key} = '${value}',` `` for
      every entry, and the `slice` that drops the last character. With no
      entries that character is the "T" of "SET"; the service never gets
      there with no entries. */
  method BuildSetClause(entries: seq<(string, Value)>) returns (query: string)
    ensures entries != [] ==> query == SetClause(entries)
    ensures entries == [] ==> query == "SE"
  {
    var q := "SET";
    for i := 0 to |entries|
      invariant i == 0 ==> q == "SET"
      invariant i > 0 ==> q == "SET" + Join(Assignments(entries[..i]), ",") + ","
    {
      var a := Assignment(entries[i]);
      assert Assignments(entries[..i + 1]) == Assignments(entries[..i]) + [a];
      if i > 0 {
        var j := Join(Assignments(entries[..i]), ",");
        JoinSnoc(Assignments(entries[..i]), a, ",");
        Associative("SET", j + ",", a);
        Associative("SET", j, ",");
      } else {
        assert entries[..1] == [entries[0]];
      }
      q := q + a + ",";
    }
    assert entries[..|entries|] == entries;
    query := q[..|q| - 1];
  }

  lemma {:induction false} JoinAppend(a: seq<string>, b: seq<string>, sep: string)
    requires a != [] && b != []
    ensures Join(a + b, sep) == Join(a, sep) + sep + Join(b, sep)
    decreases |a|
  {
    if |a| == 1 {
      assert (a + b)[1..] == b;
    } else {
      assert (a + b)[1..] == a[1..] + b;
      JoinAppend(a[1..], b, sep);
    }
  }

  /** Order: splitting the entries anywhere splits the clause there, so the
      assignments appear in insertion order. */
  lemma SetClauseSplit(entries: seq<(string, Value)>, k: nat)
    requires 0 < k < |entries|
    ensures SetClause(entries) == SetClause(entries[..k]) + "," + Join(Assignments(entries[k..]), ",")
  {
    assert Assignments(entries) == Assignments(entries[..k]) + Assignments(entries[k..]);
    JoinAppend(Assignments(entries[..k]), Assignments(entries[k..]), ",");
  }
}
