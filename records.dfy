/** The values a parsed CSV row holds, the row itself (a JavaScript object with its keys in
    insertion order), and the typed records of the pipeline: Franchisor, Agency, Location,
    Caregiver and Carelog. */
module Records {
  import opened Common

  /** A field value. CSV parsing yields strings; the field rules turn some of them into
      booleans, numbers, dates or null. A missing property reads as `Undefined`. A date
      carries its epoch milliseconds and the text `String(date)` gives for it. JavaScript
      numbers are modelled as integers. */
  datatype Value =
    | Str(s: string)
    | Num(n: int)
    | Bool(b: bool)
    | Null
    | Undefined
    | Date(ms: int, text: string)

  /** JavaScript truthiness (`!!value`). */
  predicate Truthy(v: Value) {
    match v
    case Str(s) => s != ""
    case Num(n) => n != 0
    case Bool(b) => b
    case Null => false
    case Undefined => false
    case Date(_, _) => true
  }

  function DigitChar(d: nat): char
    requires d < 10
  {
    "0123456789"[d]
  }

  function NatToString(n: nat): string
    decreases n
  {
    if n < 10 then [DigitChar(n)] else NatToString(n / 10) + [DigitChar(n % 10)]
  }

  /** `String(v)`. */
  function Stringify(v: Value): string {
    match v
    case Str(s) => s
    case Num(n) => if n < 0 then "-" + NatToString(-n) else NatToString(n)
    case Bool(b) => if b then "true" else "false"
    case Null => "null"
    case Undefined => "undefined"
    case Date(_, text) => text
  }

  /** `String(v || "")`, the coercion used by every text rule and by the entity extraction. */
  function ToText(v: Value): (r: string)
    ensures !Truthy(v) ==> r == ""
    ensures v.Str? ==> r == v.s
  {
    Stringify(if Truthy(v) then v else Str(""))
  }

  datatype Field = Field(name: string, value: Value)

  /** A CSV row: its properties in insertion order. */
  type Row = seq<Field>

  /** `Object.keys(row)`. */
  function Keys(row: Row): (ks: seq<string>)
    ensures |ks| == |row|
    ensures forall i :: 0 <= i < |row| ==> ks[i] == row[i].name
  {
    seq(|row|, i requires 0 <= i < |row| => row[i].name)
  }

  /** A JavaScript object never has two properties of the same name. */
  predicate WellFormed(row: Row) {
    Distinct(Keys(row))
  }

  /** `row.hasOwnProperty(k)`. */
  predicate Has(row: Row, k: string) {
    k in Keys(row)
  }

  /** `row[k]`: the value of the property named `k`, or `Undefined`. */
  function Get(row: Row, k: string): Value
    decreases |row|
  {
    if row == [] then Undefined
    else if row[0].name == k then row[0].value
    else Get(row[1..], k)
  }

  /** `row[k] = v` on a property the row already has. */
  function Put(row: Row, k: string, v: Value): (r: Row)
    ensures Keys(r) == Keys(row)
  {
    seq(|row|, i requires 0 <= i < |row| => if row[i].name == k then Field(k, v) else row[i])
  }

  lemma {:induction false} GetPutSame(row: Row, k: string, v: Value)
    requires Has(row, k)
    ensures Get(Put(row, k, v), k) == v
    decreases |row|
  {
    if row[0].name != k {
      assert Put(row, k, v)[1..] == Put(row[1..], k, v);
      assert k in Keys(row[1..]) by {
        var i :| 0 <= i < |row| && Keys(row)[i] == k;
        assert i > 0 && Keys(row[1..])[i - 1] == k;
      }
      GetPutSame(row[1..], k, v);
    }
  }

  lemma {:induction false} GetPutOther(row: Row, k: string, v: Value, other: string)
    requires other != k
    ensures Get(Put(row, k, v), other) == Get(row, other)
    decreases |row|
  {
    if row != [] && row[0].name != other {
      assert Put(row, k, v)[1..] == Put(row[1..], k, v);
      GetPutOther(row[1..], k, v, other);
    }
  }

  /** A row reads `Undefined` at every key it does not have. */
  lemma {:induction false} GetMissing(row: Row, k: string)
    requires !Has(row, k)
    ensures Get(row, k) == Undefined
    decreases |row|
  {
    if row != [] {
      assert Keys(row[1..]) == Keys(row)[1..];
      GetMissing(row[1..], k);
    }
  }

  // ---------------------------------------------------------------------------
  // Typed records

  datatype Franchisor = Franchisor(franchisorId: string, name: string)

  datatype Agency = Agency(agencyId: string, name: string, franchisorId: string, subdomain: string)

  datatype Location = Location(locationId: string, locationName: string)

  /** A caregiver as `toCaregiverData` builds it. Its fields are the transformed row's
      properties taken with an unchecked cast, so each one is a `Value`. */
  datatype Caregiver = Caregiver(
    caregiverId: Value,
    externalId: Value,
    profileId: Value,
    franchisorId: Value,
    agencyId: Value,
    locationId: Value,
    firstName: Value,
    lastName: Value,
    email: Value,
    phoneNumber: Value,
    gender: Value,
    applicant: Value,
    birthdayDate: Value,
    onboardingDate: Value,
    applicantStatus: Value,
    status: Value)

  /** A carelog as `toCarelogData` builds it. */
  datatype Carelog = Carelog(
    carelogId: Value,
    caregiverId: Value,
    franchisorId: Value,
    agencyId: Value,
    parentId: Value,
    startDatetime: Value,
    endDatetime: Value,
    clockInActualDatetime: Value,
    clockOutActualDatetime: Value,
    clockInMethod: Value,
    clockOutMethod: Value,
    status: Value,
    split: Value,
    documentation: Value,
    generalCommentCharCount: Value)
}
