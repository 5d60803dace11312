/** `DataTransformer`: the field-rule table applied to a raw CSV row, the caregiver and carelog
    conversions built on it, and the first-seen-wins extraction of the Franchisor, Agency and
    Location entities a batch refers to. */
module Transformer {
  import opened Common
  import opened Records

  /** The behaviour of JavaScript built-ins the rules call and that this model does not define:
      `new Date(text)` (None for an invalid date), `String(date)`, `Number(text)` (None for NaN),
      and the placeholder address built from `Date.now()` and `Math.random()`. */
  datatype Env = Env(
    parseDate: string -> Option<int>,
    dateText: int -> string,
    parseNumber: string -> Option<int>,
    placeholderEmail: string)

  /** The five kinds of conversion the rule tables use. */
  datatype Conversion = Text | Email | Flag | DateOrNull | Count

  datatype Rule = Rule(field: string, conversion: Conversion, required: bool)

  /** The characters `String.prototype.trim` removes (WhiteSpace and LineTerminator). */
  predicate IsJsSpace(c: char) {
    c == ' ' || c == '\t' || c == '\n' || c == '\r' || c == '\U{000B}' || c == '\U{000C}'
    || c == '\U{00A0}' || c == '\U{1680}' || ('\U{2000}' <= c <= '\U{200A}')
    || c == '\U{2028}' || c == '\U{2029}' || c == '\U{202F}' || c == '\U{205F}'
    || c == '\U{3000}' || c == '\U{FEFF}'
  }

  /** `s.trim() === ''`. */
  predicate Blank(s: string) {
    forall i :: 0 <= i < |s| ==> IsJsSpace(s[i])
  }

  /** The boolean rule: a boolean passes, a string is compared case-insensitively with "true",
      anything else is false. */
  function ToFlag(v: Value): bool {
    match v
    case Bool(b) => b
    case Str(s) => ToLower(s) == "true"
    case _ => false
  }

  /** `new Date(v)` on a truthy value other than "None": its epoch milliseconds, or None for an
      invalid date. A number is a timestamp, valid within 8.64e15 ms of the epoch. */
  function NewDate(env: Env, v: Value): Option<int> {
    match v
    case Str(s) => env.parseDate(s)
    case Num(n) => if -8640000000000000 <= n <= 8640000000000000 then Some(n) else None
    case Bool(b) => Some(if b then 1 else 0)
    case Date(ms, _) => Some(ms)
    case _ => None
  }

  /** The date rule: null for a falsy value or "None", before any parsing; otherwise the parsed
      date, or null when it is invalid. */
  function ToDateOrNull(env: Env, v: Value): Value {
    if !Truthy(v) || v == Str("None") then Null
    else match NewDate(env, v)
      case Some(ms) => Date(ms, env.dateText(ms))
      case None => Null
  }

  /** The comment-count rule: `Number(v)`, with NaN replaced by 0. */
  function ToCount(env: Env, v: Value): int {
    match v
    case Str(s) => env.parseNumber(s).GetOr(0)
    case Num(n) => n
    case Bool(b) => if b then 1 else 0
    case Null => 0
    case Undefined => 0
    case Date(ms, _) => ms
  }

  /** The e-mail rule throws a TypeError when `value.trim` does not exist: the value is truthy
      and not a string. */
  predicate EmailThrows(v: Value) {
    Truthy(v) && !v.Str?
  }

  /** One rule's conversion of one value; `Err` is the exception it throws. */
  function Convert(env: Env, c: Conversion, v: Value): (r: Result<Value, string>)
    ensures r.Err? <==> c == Email && EmailThrows(v)
  {
    match c
    case Text => Ok(Str(ToText(v)))
    case Email =>
      if !Truthy(v) then Ok(Str(env.placeholderEmail))
      else if v.Str? then (if Blank(v.s) then Ok(Str(env.placeholderEmail)) else Ok(Str(v.s)))
      else Err("value.trim is not a function")
    case Flag => Ok(Bool(ToFlag(v)))
    case DateOrNull => Ok(ToDateOrNull(env, v))
    case Count => Ok(Num(ToCount(env, v)))
  }

  /** What each kind of rule gives: a text rule turns null, "", 0, false and undefined into ""
      and keeps a string; the boolean rule passes a boolean, compares a string case-insensitively
      with "true" and gives false for anything else; a date rule gives null for a falsy value or
      "None" without parsing it; the e-mail rule keeps a non-blank string and replaces a falsy or
      blank one with the placeholder address. */
  lemma RuleConversions(env: Env, v: Value)
    ensures !Truthy(v) ==> Convert(env, Text, v) == Ok(Str(""))
    ensures v.Str? ==> Convert(env, Text, v) == Ok(v)
    ensures v.Bool? ==> Convert(env, Flag, v) == Ok(v)
    ensures v.Str? ==> Convert(env, Flag, v) == Ok(Bool(ToLower(v.s) == "true"))
    ensures !v.Bool? && !v.Str? ==> Convert(env, Flag, v) == Ok(Bool(false))
    ensures !Truthy(v) || v == Str("None") ==> Convert(env, DateOrNull, v) == Ok(Null)
    ensures v.Str? && !Blank(v.s) ==> Convert(env, Email, v) == Ok(v)
    ensures !Truthy(v) || (v.Str? && Blank(v.s)) ==> Convert(env, Email, v) == Ok(Str(env.placeholderEmail))
  {
  }

  // ---------------------------------------------------------------------------
  // The rule tables

  function CaregiverRules(): seq<Rule> {
    [ Rule("franchisor_id", Text, true),
      Rule("agency_id", Text, true),
      Rule("profile_id", Text, true),
      Rule("caregiver_id", Text, true),
      Rule("external_id", Text, false),
      Rule("first_name", Text, true),
      Rule("last_name", Text, true),
      Rule("email", Email, false),
      Rule("phone_number", Text, false),
      Rule("gender", Text, false),
      Rule("applicant", Flag, true),
      Rule("birthday_date", DateOrNull, false),
      Rule("onboarding_date", DateOrNull, false),
      Rule("locations_id", Text, false),
      Rule("applicant_status", Text, true),
      Rule("status", Text, true) ]
  }

  function CarelogRules(): seq<Rule> {
    [ Rule("franchisor_id", Text, true),
      Rule("agency_id", Text, true),
      Rule("carelog_id", Text, true),
      Rule("caregiver_id", Text, true),
      Rule("parent_id", Text, false),
      Rule("start_datetime", DateOrNull, true),
      Rule("end_datetime", DateOrNull, true),
      Rule("clock_in_actual_datetime", DateOrNull, false),
      Rule("clock_out_actual_datetime", DateOrNull, false),
      Rule("clock_in_method", Text, false),
      Rule("clock_out_method", Text, false),
      Rule("status", Text, true),
      Rule("split", Flag, true),
      Rule("documentation", Text, false),
      Rule("general_comment_char_count", Count, false) ]
  }

  function Fields(rules: seq<Rule>): seq<string> {
    seq(|rules|, i requires 0 <= i < |rules| => rules[i].field)
  }

  /** The only rule of either table that can throw is the caregiver e-mail rule. */
  lemma RuleTablesConversions()
    ensures forall i :: 0 <= i < |CarelogRules()| ==> CarelogRules()[i].conversion != Email
    ensures forall i :: 0 <= i < |CaregiverRules()| ==>
      (CaregiverRules()[i].conversion == Email <==> i == 7)
    ensures CaregiverRules()[7].field == "email"
  {
  }

  // ---------------------------------------------------------------------------
  // transformData

  /** The state of `transformData` after some rules: the copied row as rewritten so far, the
      required fields reported missing so far, and the exception that stopped it, if any. */
  datatype TransformState = TransformState(row: Row, missing: seq<string>, thrown: Option<string>)

  /** One iteration of the rule loop. */
  function Step(env: Env, st: TransformState, rule: Rule): TransformState {
    if st.thrown.Some? then st
    else if Has(st.row, rule.field) then
      match Convert(env, rule.conversion, Get(st.row, rule.field))
      case Ok(v) => st.(row := Put(st.row, rule.field, v))
      case Err(e) => st.(thrown := Some(e))
    else if rule.required then st.(missing := st.missing + [rule.field])
    else st
  }

  /** `transformData(data, rules)` as a fold of `Step` over the rules, in order. */
  function Transform(env: Env, data: Row, rules: seq<Rule>): TransformState
    decreases |rules|, data
  {
    if rules == [] then TransformState(data, [], None)
    else Step(env, Transform(env, data, rules[..|rules| - 1]), rules[|rules| - 1])
  }

  /** The copied row is overwritten rule by rule; a missing required field is only reported. */
  method TransformData(env: Env, data: Row, rules: seq<Rule>)
    returns (r: Result<Row, string>, missing: seq<string>)
    ensures r.Ok? <==> Transform(env, data, rules).thrown.None?
    ensures r.Ok? ==> r.value == Transform(env, data, rules).row
    ensures r.Err? ==> r.error == Transform(env, data, rules).thrown.value
    ensures missing == Transform(env, data, rules).missing
  {
    var row := data;
    missing := [];
    for i := 0 to |rules|
      invariant Transform(env, data, rules[..i]) == TransformState(row, missing, None)
    {
      assert rules[..i + 1][..i] == rules[..i];
      var rule := rules[i];
      if Has(row, rule.field) {
        var c := Convert(env, rule.conversion, Get(row, rule.field));
        if c.Err? {
          TransformAfterThrow(env, data, rules, i + 1);
          return Err(c.error), missing;
        }
        row := Put(row, rule.field, c.value);
      } else if rule.required {
        missing := missing + [rule.field];
      }
    }
    assert rules[..|rules|] == rules;
    r := Ok(row);
  }

  /** Once a rule has thrown, later rules change nothing. */
  lemma {:induction false} TransformAfterThrow(env: Env, data: Row, rules: seq<Rule>, i: nat)
    requires i <= |rules|
    requires Transform(env, data, rules[..i]).thrown.Some?
    ensures Transform(env, data, rules) == Transform(env, data, rules[..i])
    decreases |rules| - i
  {
    if i < |rules| {
      assert rules[..i + 1][..i] == rules[..i];
      TransformAfterThrow(env, data, rules, i + 1);
    } else {
      assert rules[..i] == rules;
    }
  }

  /** `transformData` returns the same keys, in the same order, as its input. */
  lemma {:induction false} TransformKeepsKeys(env: Env, data: Row, rules: seq<Rule>)
    ensures Keys(Transform(env, data, rules).row) == Keys(data)
    decreases |rules|
  {
    if rules != [] {
      TransformKeepsKeys(env, data, rules[..|rules| - 1]);
    }
  }

  lemma FieldsSnoc(init: seq<Rule>, last: Rule)
    ensures Fields(init + [last]) == Fields(init) + [last.field]
  {
  }

  predicate DistinctFields(rules: seq<Rule>) {
    forall i, j :: 0 <= i < j < |rules| ==> rules[i].field != rules[j].field
  }

  /** With one rule per field, the last rule's field is named by no earlier rule. */
  lemma LastFieldFresh(rules: seq<Rule>)
    requires rules != [] && DistinctFields(rules)
    ensures rules[|rules| - 1].field !in Fields(rules[..|rules| - 1])
    ensures DistinctFields(rules[..|rules| - 1])
  {
    var n := |rules| - 1;
    forall i | 0 <= i < n ensures Fields(rules[..n])[i] != rules[n].field {
      assert rules[..n][i] == rules[i];
    }
  }

  /** The fields reported missing are exactly the required fields the row lacks, each reported
      once per rule naming it, never more than there are rules. */
  lemma {:induction false} TransformMissing(env: Env, data: Row, rules: seq<Rule>)
    requires Transform(env, data, rules).thrown.None?
    ensures |Transform(env, data, rules).missing| <= |rules|
    ensures forall f :: f in Transform(env, data, rules).missing <==>
      exists j :: 0 <= j < |rules| && rules[j].field == f && rules[j].required && !Has(data, rules[j].field)
    decreases |rules|
  {
    if rules != [] {
      var n := |rules| - 1;
      var init := rules[..n];
      var last := rules[n];
      var prev := Transform(env, data, init);
      assert prev.thrown.None?;
      TransformMissing(env, data, init);
      TransformKeepsKeys(env, data, init);
      assert Has(prev.row, last.field) == Has(data, last.field);
      assert forall j :: 0 <= j < n ==> init[j] == rules[j];
    }
  }

  /** A key no rule names keeps its original value. */
  lemma {:induction false} TransformOthers(env: Env, data: Row, rules: seq<Rule>)
    requires Transform(env, data, rules).thrown.None?
    ensures forall k :: k !in Fields(rules) ==> Get(Transform(env, data, rules).row, k) == Get(data, k)
    decreases |rules|
  {
    if rules != [] {
      var n := |rules| - 1;
      var init := rules[..n];
      var last := rules[n];
      var prev := Transform(env, data, init);
      assert prev.thrown.None?;
      TransformOthers(env, data, init);
      assert rules == init + [last];
      FieldsSnoc(init, last);
      forall k | k !in Fields(rules) ensures Get(Transform(env, data, rules).row, k) == Get(data, k) {
        assert k !in Fields(init) && k != last.field;
        if Has(prev.row, last.field) {
          GetPutOther(prev.row, last.field, Convert(env, last.conversion, Get(prev.row, last.field)).value, k);
        }
      }
    }
  }

  /** The last rule's field, present in the row, ends up as that rule's conversion of the
      original value (with one rule per field). */
  lemma LastRuleValue(env: Env, data: Row, rules: seq<Rule>)
    requires rules != [] && DistinctFields(rules)
    requires Transform(env, data, rules).thrown.None?
    requires Has(data, rules[|rules| - 1].field)
    ensures Convert(env, rules[|rules| - 1].conversion, Get(data, rules[|rules| - 1].field)) ==
      Ok(Get(Transform(env, data, rules).row, rules[|rules| - 1].field))
  {
    var n := |rules| - 1;
    var init := rules[..n];
    var last := rules[n];
    var prev := Transform(env, data, init);
    assert prev.thrown.None?;
    LastFieldFresh(rules);
    TransformOthers(env, data, init);
    TransformKeepsKeys(env, data, init);
    assert Has(prev.row, last.field);
    assert Get(prev.row, last.field) == Get(data, last.field);
    GetPutSame(prev.row, last.field, Convert(env, last.conversion, Get(prev.row, last.field)).value);
  }

  /** Rule `j`'s field, present in the row, ends up as that rule's conversion of the original
      value (with one rule per field). */
  lemma {:induction false} RuleValue(env: Env, data: Row, rules: seq<Rule>, j: nat)
    requires j < |rules| && DistinctFields(rules)
    requires Transform(env, data, rules).thrown.None?
    requires Has(data, rules[j].field)
    ensures Convert(env, rules[j].conversion, Get(data, rules[j].field)) ==
      Ok(Get(Transform(env, data, rules).row, rules[j].field))
    decreases |rules|
  {
    var n := |rules| - 1;
    if j == n {
      LastRuleValue(env, data, rules);
    } else {
      var init := rules[..n];
      var last := rules[n];
      var prev := Transform(env, data, init);
      assert prev.thrown.None?;
      LastFieldFresh(rules);
      assert init[j] == rules[j];
      RuleValue(env, data, init, j);
      assert rules[j].field != last.field;
      if Has(prev.row, last.field) {
        GetPutOther(prev.row, last.field, Convert(env, last.conversion, Get(prev.row, last.field)).value, rules[j].field);
      }
    }
  }

  /** With one rule per field: a present field named by rule `j` ends up as that rule's
      conversion of the original value, and every other key keeps its original value. */
  lemma TransformValues(env: Env, data: Row, rules: seq<Rule>)
    requires DistinctFields(rules)
    requires Transform(env, data, rules).thrown.None?
    ensures forall j :: 0 <= j < |rules| && Has(data, rules[j].field) ==>
      Convert(env, rules[j].conversion, Get(data, rules[j].field)) ==
      Ok(Get(Transform(env, data, rules).row, rules[j].field))
    ensures forall k :: k !in Fields(rules) ==> Get(Transform(env, data, rules).row, k) == Get(data, k)
  {
    TransformOthers(env, data, rules);
    forall j | 0 <= j < |rules| && Has(data, rules[j].field)
      ensures Convert(env, rules[j].conversion, Get(data, rules[j].field)) ==
        Ok(Get(Transform(env, data, rules).row, rules[j].field))
    {
      RuleValue(env, data, rules, j);
    }
  }

  /** `transformData` throws exactly when an e-mail rule meets a present, truthy, non-string
      value (with one rule per field). */
  lemma {:induction false} TransformThrows(env: Env, data: Row, rules: seq<Rule>)
    requires DistinctFields(rules)
    ensures Transform(env, data, rules).thrown.Some? <==>
      exists j :: 0 <= j < |rules| && rules[j].conversion == Email && Has(data, rules[j].field)
        && EmailThrows(Get(data, rules[j].field))
    decreases |rules|
  {
    if rules != [] {
      var n := |rules| - 1;
      var init := rules[..n];
      var last := rules[n];
      var prev := Transform(env, data, init);
      LastFieldFresh(rules);
      TransformThrows(env, data, init);
      TransformKeepsKeys(env, data, init);
      assert Has(prev.row, last.field) == Has(data, last.field);
      if prev.thrown.None? {
        TransformOthers(env, data, init);
        assert Get(prev.row, last.field) == Get(data, last.field);
      }
      assert forall j :: 0 <= j < n ==> init[j] == rules[j];
    }
  }

  /** `transformDataset`: `transformData` on every row; the first throw aborts the whole map. */
  function TransformDataset(env: Env, data: seq<Row>, rules: seq<Rule>): (r: Result<seq<Row>, string>)
    ensures r.Ok? ==> |r.value| == |data|
    ensures r.Ok? ==> forall i :: 0 <= i < |data| ==> r.value[i] == Transform(env, data[i], rules).row
    ensures r.Err? <==> exists i :: 0 <= i < |data| && Transform(env, data[i], rules).thrown.Some?
    decreases |data|
  {
    if data == [] then Ok([])
    else
      var first := Transform(env, data[0], rules);
      if first.thrown.Some? then Err(first.thrown.value)
      else match TransformDataset(env, data[1..], rules)
        case Ok(rest) => Ok([first.row] + rest)
        case Err(e) => Err(e)
  }

  // ---------------------------------------------------------------------------
  // Caregivers and carelogs

  function CaregiverOf(t: Row): Caregiver {
    Caregiver(
      Get(t, "caregiver_id"), Get(t, "external_id"), Get(t, "profile_id"),
      Get(t, "franchisor_id"), Get(t, "agency_id"), Get(t, "locations_id"),
      Get(t, "first_name"), Get(t, "last_name"), Get(t, "email"),
      Get(t, "phone_number"), Get(t, "gender"), Get(t, "applicant"),
      Get(t, "birthday_date"), Get(t, "onboarding_date"),
      Get(t, "applicant_status"), Get(t, "status"))
  }

  function CarelogOf(t: Row): Carelog {
    Carelog(
      Get(t, "carelog_id"), Get(t, "caregiver_id"), Get(t, "franchisor_id"),
      Get(t, "agency_id"), Get(t, "parent_id"), Get(t, "start_datetime"),
      Get(t, "end_datetime"), Get(t, "clock_in_actual_datetime"),
      Get(t, "clock_out_actual_datetime"), Get(t, "clock_in_method"),
      Get(t, "clock_out_method"), Get(t, "status"), Get(t, "split"),
      Get(t, "documentation"), Get(t, "general_comment_char_count"))
  }

  /** `toCaregiverData`: the caregiver rules, then the record; `Err` when a rule threw. */
  function ToCaregiver(env: Env, row: Row): Result<Caregiver, string> {
    var st := Transform(env, row, CaregiverRules());
    if st.thrown.Some? then Err(st.thrown.value) else Ok(CaregiverOf(st.row))
  }

  /** `toCarelogData`. */
  function ToCarelog(env: Env, row: Row): Carelog {
    CarelogOf(Transform(env, row, CarelogRules()).row)
  }

  lemma CaregiverRulesDistinct()
    ensures DistinctFields(CaregiverRules())
  {
    var rules := CaregiverRules();
    var f := Fields(rules);
    assert f == ["franchisor_id", "agency_id", "profile_id", "caregiver_id", "external_id",
      "first_name", "last_name", "email", "phone_number", "gender", "applicant",
      "birthday_date", "onboarding_date", "locations_id", "applicant_status", "status"];
    forall i, j | 0 <= i < j < |rules| ensures rules[i].field != rules[j].field {
      DistinctLiteral(f, i, j);
      assert f[i] == rules[i].field && f[j] == rules[j].field;
    }
  }

  lemma CarelogRulesDistinct()
    ensures DistinctFields(CarelogRules())
  {
    var rules := CarelogRules();
    var f := Fields(rules);
    assert f == ["franchisor_id", "agency_id", "carelog_id", "caregiver_id", "parent_id",
      "start_datetime", "end_datetime", "clock_in_actual_datetime", "clock_out_actual_datetime",
      "clock_in_method", "clock_out_method", "status", "split", "documentation",
      "general_comment_char_count"];
    forall i, j | 0 <= i < j < |rules| ensures rules[i].field != rules[j].field {
      DistinctLiteral(f, i, j);
      assert f[i] == rules[i].field && f[j] == rules[j].field;
    }
  }

  lemma DistinctLiteral(f: seq<string>, i: int, j: int)
    requires 0 <= i < j < |f|
    requires f == ["franchisor_id", "agency_id", "profile_id", "caregiver_id", "external_id",
      "first_name", "last_name", "email", "phone_number", "gender", "applicant",
      "birthday_date", "onboarding_date", "locations_id", "applicant_status", "status"]
      || f == ["franchisor_id", "agency_id", "carelog_id", "caregiver_id", "parent_id",
      "start_datetime", "end_datetime", "clock_in_actual_datetime", "clock_out_actual_datetime",
      "clock_in_method", "clock_out_method", "status", "split", "documentation",
      "general_comment_char_count"]
    ensures f[i] != f[j]
  {
  }

  /** A caregiver row is rejected exactly when it has an `email` property holding a truthy
      non-string: the only rule that can throw. */
  lemma CaregiverRejected(env: Env, row: Row)
    ensures ToCaregiver(env, row).Err? <==> Has(row, "email") && EmailThrows(Get(row, "email"))
  {
    CaregiverRulesDistinct();
    RuleTablesConversions();
    TransformThrows(env, row, CaregiverRules());
    if Has(row, "email") && EmailThrows(Get(row, "email")) {
      assert CaregiverRules()[7].conversion == Email;
    }
  }

  /** No carelog rule throws, so `toCarelogData` never fails. */
  lemma CarelogNeverThrows(env: Env, row: Row)
    ensures Transform(env, row, CarelogRules()).thrown.None?
  {
    CarelogRulesDistinct();
    RuleTablesConversions();
    TransformThrows(env, row, CarelogRules());
  }

  /** The caregivers built from the rows that did not throw, in row order. */
  function Converted(env: Env, data: seq<Row>): seq<Caregiver>
    decreases |data|
  {
    if data == [] then []
    else
      var init := Converted(env, data[..|data| - 1]);
      match ToCaregiver(env, data[|data| - 1])
      case Ok(c) => init + [c]
      case Err(_) => init
  }

  /** `transformCaregivers`: each row is converted; a row whose conversion throws goes to the
      invalid list with its index and is left out of the result. */
  method TransformCaregivers(env: Env, data: seq<Row>)
    returns (results: seq<Caregiver>, invalid: seq<(nat, string)>)
    ensures results == Converted(env, data)
    ensures |results| + |invalid| == |data|
    ensures forall k :: 0 <= k < |invalid| ==>
      invalid[k].0 < |data| && ToCaregiver(env, data[invalid[k].0]) == Err(invalid[k].1)
    ensures forall k, l :: 0 <= k < l < |invalid| ==> invalid[k].0 < invalid[l].0
  {
    results, invalid := [], [];
    for i := 0 to |data|
      invariant results == Converted(env, data[..i])
      invariant |results| + |invalid| == i
      invariant forall k :: 0 <= k < |invalid| ==>
        invalid[k].0 < i && ToCaregiver(env, data[invalid[k].0]) == Err(invalid[k].1)
      invariant forall k, l :: 0 <= k < l < |invalid| ==> invalid[k].0 < invalid[l].0
    {
      assert data[..i + 1][..i] == data[..i];
      assert data[..i + 1][i] == data[i];
      var c := ToCaregiver(env, data[i]);
      if c.Ok? {
        results := results + [c.value];
      } else {
        invalid := invalid + [(i, c.error)];
      }
    }
    assert data[..|data|] == data;
  }

  /** `transformCarelogs`: one carelog per row, in order. */
  function TransformCarelogs(env: Env, data: seq<Row>): (r: seq<Carelog>)
    ensures |r| == |data|
  {
    seq(|data|, i requires 0 <= i < |data| => ToCarelog(env, data[i]))
  }

  /** At most one caregiver per row, so a batch never grows under conversion. */
  lemma {:induction false} ConvertedBound(env: Env, data: seq<Row>)
    ensures |Converted(env, data)| <= |data|
    ensures (forall i :: 0 <= i < |data| ==> ToCaregiver(env, data[i]).Ok?) ==> |Converted(env, data)| == |data|
    decreases |data|
  {
    if data != [] {
      var n := |data| - 1;
      ConvertedBound(env, data[..n]);
      assert forall i :: 0 <= i < n ==> data[..n][i] == data[i];
    }
  }

  // ---------------------------------------------------------------------------
  // First-seen-wins extraction

  function KeysOf<E>(entries: seq<(string, E)>): seq<string> {
    seq(|entries|, i requires 0 <= i < |entries| => entries[i].0)
  }

  /** The entries of a `Map` filled by `forEach` that sets a key only when it is absent, in
      insertion order: `key` says which key a row registers (None: the row is skipped), `make`
      builds the entry from the first row with that key. */
  function FirstSeen<E>(rows: seq<Row>, key: Row -> Option<string>, make: Row -> E): seq<(string, E)>
    decreases |rows|
  {
    if rows == [] then []
    else
      var acc := FirstSeen(rows[..|rows| - 1], key, make);
      var row := rows[|rows| - 1];
      match key(row)
      case None => acc
      case Some(k) => if k in KeysOf(acc) then acc else acc + [(k, make(row))]
  }

  /** Row `i` is the first row that registers key `k`. */
  predicate FirstAt(rows: seq<Row>, key: Row -> Option<string>, k: string, i: int) {
    0 <= i < |rows| && key(rows[i]) == Some(k) &&
    forall i' :: 0 <= i' < i ==> key(rows[i']) != Some(k)
  }

  /** Some row registers key `k`. */
  predicate Registers(rows: seq<Row>, key: Row -> Option<string>, k: string) {
    exists i :: 0 <= i < |rows| && key(rows[i]) == Some(k)
  }

  /** The extraction keeps each key some row registers, and only those, exactly once. */
  lemma {:induction false} FirstSeenKeys<E>(rows: seq<Row>, key: Row -> Option<string>, make: Row -> E)
    ensures Distinct(KeysOf(FirstSeen(rows, key, make)))
    ensures forall k :: k in KeysOf(FirstSeen(rows, key, make)) <==> Registers(rows, key, k)
    decreases |rows|
  {
    if rows != [] {
      var n := |rows| - 1;
      var init := rows[..n];
      var acc := FirstSeen(init, key, make);
      FirstSeenKeys(init, key, make);
      assert forall i :: 0 <= i < n ==> init[i] == rows[i];
      forall k ensures Registers(rows, key, k) <==> Registers(init, key, k) || key(rows[n]) == Some(k) {
        if Registers(rows, key, k) {
          var i :| 0 <= i < |rows| && key(rows[i]) == Some(k);
          if i < n {
            assert key(init[i]) == Some(k);
          }
        }
        if Registers(init, key, k) {
          var i :| 0 <= i < |init| && key(init[i]) == Some(k);
          assert key(rows[i]) == Some(k);
        }
      }
      match key(rows[n])
      case None =>
      case Some(k) =>
        if k !in KeysOf(acc) {
          assert KeysOf(acc + [(k, make(rows[n]))]) == KeysOf(acc) + [k];
        }
    }
  }

  /** A key no row of the prefix registers is first registered by the last row, if at all. */
  lemma FirstAtPrefix(rows: seq<Row>, key: Row -> Option<string>, k: string, i: int)
    requires rows != []
    requires FirstAt(rows, key, k, i)
    ensures Registers(rows[..|rows| - 1], key, k) ==> i < |rows| - 1 && FirstAt(rows[..|rows| - 1], key, k, i)
    ensures !Registers(rows[..|rows| - 1], key, k) ==> i == |rows| - 1
  {
    var n := |rows| - 1;
    assert forall j :: 0 <= j < n ==> rows[..n][j] == rows[j];
    if i < n {
      assert rows[..n][i] == rows[i];
    }
    if Registers(rows[..n], key, k) {
      var w :| 0 <= w < n && key(rows[..n][w]) == Some(k);
      assert key(rows[w]) == Some(k);
    }
  }

  /** Each entry was built from the first row that registers its key. */
  lemma {:induction false} FirstSeenOrigin<E>(rows: seq<Row>, key: Row -> Option<string>, make: Row -> E)
    ensures forall j :: 0 <= j < |FirstSeen(rows, key, make)| ==>
      exists i :: FirstAt(rows, key, FirstSeen(rows, key, make)[j].0, i) &&
        FirstSeen(rows, key, make)[j].1 == make(rows[i])
    decreases |rows|
  {
    if rows != [] {
      var n := |rows| - 1;
      var init := rows[..n];
      var acc := FirstSeen(init, key, make);
      var r := FirstSeen(rows, key, make);
      FirstSeenOrigin(init, key, make);
      FirstSeenKeys(init, key, make);
      assert forall i :: 0 <= i < n ==> init[i] == rows[i];
      assert |acc| <= |r| && forall j :: 0 <= j < |acc| ==> r[j] == acc[j];
      forall j | 0 <= j < |r|
        ensures exists i :: FirstAt(rows, key, r[j].0, i) && r[j].1 == make(rows[i])
      {
        if j < |acc| {
          var i :| FirstAt(init, key, acc[j].0, i) && acc[j].1 == make(init[i]);
          assert FirstAt(rows, key, r[j].0, i) && r[j].1 == make(rows[i]);
        } else {
          assert key(rows[n]).Some? && key(rows[n]).value !in KeysOf(acc);
          var k := key(rows[n]).value;
          assert r == acc + [(k, make(rows[n]))];
          assert r[j] == (k, make(rows[n]));
          assert !Registers(init, key, k);
          forall i' | 0 <= i' < n ensures key(rows[i']) != Some(k) {
            assert key(init[i']) == key(rows[i']);
          }
          assert FirstAt(rows, key, r[j].0, n) && r[j].1 == make(rows[n]);
        }
      }
      assert r == FirstSeen(rows, key, make);
    } else {
      assert FirstSeen(rows, key, make) == [];
    }
  }

  /** Entries come in the order their first rows do. */
  lemma {:induction false} FirstSeenOrder<E>(rows: seq<Row>, key: Row -> Option<string>, make: Row -> E)
    ensures forall j1, j2, i1, i2 ::
      (0 <= j1 < j2 < |FirstSeen(rows, key, make)| &&
       FirstAt(rows, key, FirstSeen(rows, key, make)[j1].0, i1) &&
       FirstAt(rows, key, FirstSeen(rows, key, make)[j2].0, i2)) ==> i1 < i2
    decreases |rows|
  {
    if rows != [] {
      var n := |rows| - 1;
      var init := rows[..n];
      var acc := FirstSeen(init, key, make);
      var r := FirstSeen(rows, key, make);
      FirstSeenOrder(init, key, make);
      FirstSeenKeys(init, key, make);
      assert |acc| <= |r| && forall j :: 0 <= j < |acc| ==> r[j] == acc[j];
      assert |r| == |acc| || (key(rows[n]).Some? && r == acc + [(key(rows[n]).value, make(rows[n]))]);
      forall j1, j2, i1, i2 |
        0 <= j1 < j2 < |r| && FirstAt(rows, key, r[j1].0, i1) && FirstAt(rows, key, r[j2].0, i2)
        ensures i1 < i2
      {
        assert KeysOf(acc)[j1] == r[j1].0;
        FirstAtPrefix(rows, key, r[j1].0, i1);
        FirstAtPrefix(rows, key, r[j2].0, i2);
        if j2 >= |acc| {
          assert r[j2].0 !in KeysOf(acc);
        } else {
          assert KeysOf(acc)[j2] == r[j2].0;
        }
      }
    }
  }

  /** The imperative form of every `extract*`: a `forEach` over the rows that fills a map and
      remembers the insertion order; `Array.from(map.values())` reads it back. */
  method ExtractFirstSeen<E>(rows: seq<Row>, key: Row -> Option<string>, make: Row -> E)
    returns (entries: seq<E>)
    ensures |entries| == |FirstSeen(rows, key, make)|
    ensures forall j :: 0 <= j < |entries| ==> entries[j] == FirstSeen(rows, key, make)[j].1
  {
    var order: seq<string> := [];
    var m: map<string, E> := map[];
    for i := 0 to |rows|
      invariant order == KeysOf(FirstSeen(rows[..i], key, make))
      invariant m.Keys == set k | k in order
      invariant forall j :: 0 <= j < |order| ==> m[order[j]] == FirstSeen(rows[..i], key, make)[j].1
    {
      assert rows[..i + 1][..i] == rows[..i];
      assert rows[..i + 1][i] == rows[i];
      match key(rows[i])
      case None =>
      case Some(k) =>
        if k !in m {
          order := order + [k];
          m := m[k := make(rows[i])];
        }
    }
    assert rows[..|rows|] == rows;
    entries := seq(|order|, j requires 0 <= j < |order| => m[order[j]]);
  }

  function FranchisorKey(row: Row): Option<string> {
    var id := ToText(Get(row, "franchisor_id"));
    if id != "" then Some(id) else None
  }

  function MakeFranchisor(row: Row): Franchisor {
    Franchisor(ToText(Get(row, "franchisor_id")), ToText(Get(row, "franchisor_name")))
  }

  /** An agency registers under the string `agencyId + "-" + franchisorId`, and only when both
      ids are non-empty. */
  function AgencyKey(row: Row): Option<string> {
    var agencyId := ToText(Get(row, "agency_id"));
    var franchisorId := ToText(Get(row, "franchisor_id"));
    if agencyId != "" && franchisorId != "" then Some(agencyId + "-" + franchisorId) else None
  }

  function MakeAgency(row: Row): Agency {
    Agency(ToText(Get(row, "agency_id")), ToText(Get(row, "agency_name")),
      ToText(Get(row, "franchisor_id")), ToText(Get(row, "subdomain")))
  }

  /** A location registers only from a row whose id and name are both non-empty. */
  function LocationKey(row: Row): Option<string> {
    var id := ToText(Get(row, "locations_id"));
    var name := ToText(Get(row, "location_name"));
    if id != "" && name != "" then Some(id) else None
  }

  function MakeLocation(row: Row): Location {
    Location(ToText(Get(row, "locations_id")), ToText(Get(row, "location_name")))
  }

  function Values<E>(entries: seq<(string, E)>): seq<E> {
    seq(|entries|, i requires 0 <= i < |entries| => entries[i].1)
  }

  function Franchisors(rows: seq<Row>): seq<Franchisor> {
    Values(FirstSeen(rows, FranchisorKey, MakeFranchisor))
  }

  function Agencies(rows: seq<Row>): seq<Agency> {
    Values(FirstSeen(rows, AgencyKey, MakeAgency))
  }

  function Locations(rows: seq<Row>): seq<Location> {
    Values(FirstSeen(rows, LocationKey, MakeLocation))
  }

  method ExtractFranchisors(rows: seq<Row>) returns (r: seq<Franchisor>)
    ensures r == Franchisors(rows)
  {
    r := ExtractFirstSeen(rows, FranchisorKey, MakeFranchisor);
  }

  method ExtractAgencies(rows: seq<Row>) returns (r: seq<Agency>)
    ensures r == Agencies(rows)
  {
    r := ExtractFirstSeen(rows, AgencyKey, MakeAgency);
  }

  method ExtractLocations(rows: seq<Row>) returns (r: seq<Location>)
    ensures r == Locations(rows)
  {
    r := ExtractFirstSeen(rows, LocationKey, MakeLocation);
  }

  /** Entry `j` of the extraction was built from the first row registering its key. */
  lemma FirstSeenEntry<E>(rows: seq<Row>, key: Row -> Option<string>, make: Row -> E, j: int)
    requires 0 <= j < |FirstSeen(rows, key, make)|
    ensures exists i :: FirstAt(rows, key, FirstSeen(rows, key, make)[j].0, i) && FirstSeen(rows, key, make)[j].1 == make(rows[i])
  {
    FirstSeenOrigin(rows, key, make);
  }

  /** `extractFranchisors`: one franchisor per distinct non-empty `franchisor_id`, taken from the
      first row carrying it, in first-occurrence order. */
  lemma FranchisorsSpec(rows: seq<Row>)
    ensures var fs := Franchisors(rows);
      (forall j1, j2 :: 0 <= j1 < j2 < |fs| ==> fs[j1].franchisorId != fs[j2].franchisorId) &&
      (forall i :: 0 <= i < |rows| && ToText(Get(rows[i], "franchisor_id")) != "" ==>
        exists j :: 0 <= j < |fs| && fs[j].franchisorId == ToText(Get(rows[i], "franchisor_id"))) &&
      (forall j :: 0 <= j < |fs| ==>
        exists i :: FirstAt(rows, FranchisorKey, fs[j].franchisorId, i) && fs[j] == MakeFranchisor(rows[i]))
  {
    var es := FirstSeen(rows, FranchisorKey, MakeFranchisor);
    var xs := Franchisors(rows);
    forall j | 0 <= j < |es|
      ensures xs[j] == es[j].1 && xs[j].franchisorId == es[j].0 && KeysOf(es)[j] == es[j].0
      ensures exists i :: FirstAt(rows, FranchisorKey, xs[j].franchisorId, i) && xs[j] == MakeFranchisor(rows[i])
    {
      FirstSeenEntry(rows, FranchisorKey, MakeFranchisor, j);
      var i :| FirstAt(rows, FranchisorKey, es[j].0, i) && es[j].1 == MakeFranchisor(rows[i]);
    }
    FirstSeenKeys(rows, FranchisorKey, MakeFranchisor);
    forall i | 0 <= i < |rows| && ToText(Get(rows[i], "franchisor_id")) != ""
      ensures exists j :: 0 <= j < |xs| && xs[j].franchisorId == ToText(Get(rows[i], "franchisor_id"))
    {
      assert Registers(rows, FranchisorKey, ToText(Get(rows[i], "franchisor_id")));
      var j :| 0 <= j < |es| && KeysOf(es)[j] == ToText(Get(rows[i], "franchisor_id"));
    }
  }

  /** `extractAgencies`: one agency per distinct `agencyId-franchisorId` string among the rows
      whose two ids are non-empty, taken from the first such row. */
  lemma AgenciesSpec(rows: seq<Row>)
    ensures var ags := Agencies(rows);
      (forall j1, j2 :: 0 <= j1 < j2 < |ags| ==>
        ags[j1].agencyId + "-" + ags[j1].franchisorId != ags[j2].agencyId + "-" + ags[j2].franchisorId) &&
      (forall i :: 0 <= i < |rows| && AgencyKey(rows[i]).Some? ==>
        exists j :: 0 <= j < |ags| && ags[j].agencyId + "-" + ags[j].franchisorId == AgencyKey(rows[i]).value) &&
      (forall j :: 0 <= j < |ags| ==>
        exists i :: FirstAt(rows, AgencyKey, ags[j].agencyId + "-" + ags[j].franchisorId, i) && ags[j] == MakeAgency(rows[i]))
  {
    var es := FirstSeen(rows, AgencyKey, MakeAgency);
    var xs := Agencies(rows);
    forall j | 0 <= j < |es|
      ensures xs[j] == es[j].1 && xs[j].agencyId + "-" + xs[j].franchisorId == es[j].0 && KeysOf(es)[j] == es[j].0
      ensures exists i :: FirstAt(rows, AgencyKey, xs[j].agencyId + "-" + xs[j].franchisorId, i) && xs[j] == MakeAgency(rows[i])
    {
      FirstSeenEntry(rows, AgencyKey, MakeAgency, j);
      var i :| FirstAt(rows, AgencyKey, es[j].0, i) && es[j].1 == MakeAgency(rows[i]);
    }
    FirstSeenKeys(rows, AgencyKey, MakeAgency);
    forall i | 0 <= i < |rows| && AgencyKey(rows[i]).Some?
      ensures exists j :: 0 <= j < |xs| && xs[j].agencyId + "-" + xs[j].franchisorId == AgencyKey(rows[i]).value
    {
      assert Registers(rows, AgencyKey, AgencyKey(rows[i]).value);
      var j :| 0 <= j < |es| && KeysOf(es)[j] == AgencyKey(rows[i]).value;
    }
  }

  /** `extractLocations`: one location per distinct `locations_id` among the rows whose id and
      `location_name` are both non-empty, taken from the first such row. */
  lemma LocationsSpec(rows: seq<Row>)
    ensures var ls := Locations(rows);
      (forall j1, j2 :: 0 <= j1 < j2 < |ls| ==> ls[j1].locationId != ls[j2].locationId) &&
      (forall i :: 0 <= i < |rows| && LocationKey(rows[i]).Some? ==>
        exists j :: 0 <= j < |ls| && ls[j].locationId == LocationKey(rows[i]).value) &&
      (forall j :: 0 <= j < |ls| ==>
        exists i :: FirstAt(rows, LocationKey, ls[j].locationId, i) && ls[j] == MakeLocation(rows[i]))
  {
    var es := FirstSeen(rows, LocationKey, MakeLocation);
    var xs := Locations(rows);
    forall j | 0 <= j < |es|
      ensures xs[j] == es[j].1 && xs[j].locationId == es[j].0 && KeysOf(es)[j] == es[j].0
      ensures exists i :: FirstAt(rows, LocationKey, xs[j].locationId, i) && xs[j] == MakeLocation(rows[i])
    {
      FirstSeenEntry(rows, LocationKey, MakeLocation, j);
      var i :| FirstAt(rows, LocationKey, es[j].0, i) && es[j].1 == MakeLocation(rows[i]);
    }
    FirstSeenKeys(rows, LocationKey, MakeLocation);
    forall i | 0 <= i < |rows| && LocationKey(rows[i]).Some?
      ensures exists j :: 0 <= j < |xs| && xs[j].locationId == LocationKey(rows[i]).value
    {
      assert Registers(rows, LocationKey, LocationKey(rows[i]).value);
      var j :| 0 <= j < |es| && KeysOf(es)[j] == LocationKey(rows[i]).value;
    }
  }

  /** Two different agencies whose ids and franchisor ids join to the same dashed string:
      only the first is extracted, so the second is never upserted. */
  lemma AgencyKeyCollision()
    ensures
      var a := [Field("agency_id", Str("a-b")), Field("franchisor_id", Str("c"))];
      var b := [Field("agency_id", Str("a")), Field("franchisor_id", Str("b-c"))];
      MakeAgency(a) != MakeAgency(b) && Agencies([a, b]) == [MakeAgency(a)]
  {
    var a := [Field("agency_id", Str("a-b")), Field("franchisor_id", Str("c"))];
    var b := [Field("agency_id", Str("a")), Field("franchisor_id", Str("b-c"))];
    assert Get(a, "agency_id") == Str("a-b");
    assert Get(a[1..], "franchisor_id") == Str("c");
    assert Get(a, "franchisor_id") == Str("c");
    assert Get(b, "agency_id") == Str("a");
    assert Get(b[1..], "franchisor_id") == Str("b-c");
    assert Get(b, "franchisor_id") == Str("b-c");
    assert "a-b" + "-" + "c" == "a-b-c";
    assert "a" + "-" + "b-c" == "a-b-c";
    assert AgencyKey(a) == Some("a-b-c");
    assert AgencyKey(b) == Some("a-b-c");
    var both: seq<Row> := [a, b];
    var one: seq<Row> := [a];
    assert both[..1] == one;
    assert one[..0] == [];
    assert FirstSeen(one, AgencyKey, MakeAgency) == [("a-b-c", MakeAgency(a))];
    assert KeysOf(FirstSeen(one, AgencyKey, MakeAgency))[0] == "a-b-c";
    assert FirstSeen(both, AgencyKey, MakeAgency) == [("a-b-c", MakeAgency(a))];
    assert Values(FirstSeen(both, AgencyKey, MakeAgency)) == [MakeAgency(a)];
    assert MakeAgency(a).agencyId == "a-b";
    assert MakeAgency(b).agencyId == "a";
  }
}
