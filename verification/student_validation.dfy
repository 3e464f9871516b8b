/**
 * The student form's validators: eight members are required, and three phone
 * or postcode members must be all digits whenever they are filled in. Dynamic
 * and master-data members are not validated.
 */
module StudentValidation {
  import opened Wrappers
  import opened Strings
  import opened Json

  const REQUIRED := "Required"
  const NOT_NUMERIC := "Must be numeric"

  const REQUIRED_KEYS: seq<string> :=
    ["firstName", "lastName", "enrollmentNo", "departmentId", "classId", "sectionId", "mobile", "gender"]

  const NUMERIC_KEYS: seq<string> := ["fatherMobile", "motherMobile", "currentPincode"]

  /**
   * `/^\d+$/.test(v)`, which first turns `v` into a string: a string must be
   * all digits, a number must be non-negative, a one-element list is its element,
   * and anything else (`true`, `null`, a date, other lists) never matches.
   */
  predicate LooksNumeric(v: Value) {
    match v
    case Str(s) => AllDigits(s)
    case Num(n) => n >= 0
    case StrList(items) => |items| == 1 && AllDigits(items[0])
    case _ => false
  }

  /** The message for one member, if it fails. */
  function MemberError(values: map<string, Value>, key: string): Option<string> {
    if key in REQUIRED_KEYS then
      (if !TruthyAt(values, key) then Some(REQUIRED) else None)
    else if key in NUMERIC_KEYS then
      (if TruthyAt(values, key) && !LooksNumeric(values[key]) then Some(NOT_NUMERIC) else None)
    else None
  }

  /** All messages, by member. */
  function Errors(values: map<string, Value>): map<string, string> {
    map key | key in REQUIRED_KEYS + NUMERIC_KEYS && MemberError(values, key).Some? :: MemberError(values, key).value
  }

  predicate Passes(values: map<string, Value>) {
    Errors(values) == map[]
  }

  /**
   * The form passes exactly when every required member is truthy and every
   * numeric member is either empty or all digits.
   */
  lemma PassesIff(values: map<string, Value>)
    ensures Passes(values)
            <==> (forall key :: key in REQUIRED_KEYS ==> TruthyAt(values, key))
                 && (forall key :: key in NUMERIC_KEYS && TruthyAt(values, key) ==> LooksNumeric(values[key]))
  {
    if Passes(values) {
      forall key | key in REQUIRED_KEYS
        ensures TruthyAt(values, key)
      {
        assert key !in Errors(values);
      }
      forall key | key in NUMERIC_KEYS && TruthyAt(values, key)
        ensures LooksNumeric(values[key])
      {
        assert key !in Errors(values);
        assert key !in REQUIRED_KEYS;
      }
    }
  }

  /** Messages appear only on the eleven validated members; a digit-only phone passes, a letter does not. */
  lemma ErrorsOnlyOnValidatedMembers(values: map<string, Value>, key: string)
    ensures key in Errors(values) ==> key in REQUIRED_KEYS || key in NUMERIC_KEYS
    ensures key in REQUIRED_KEYS && !TruthyAt(values, key) ==> Errors(values)[key] == REQUIRED
    ensures key in NUMERIC_KEYS && TruthyAt(values, key) && !LooksNumeric(values[key])
            ==> Errors(values)[key] == NOT_NUMERIC
    ensures LooksNumeric(Str("9876543210")) && !LooksNumeric(Str("98765x")) && !LooksNumeric(Str("+91"))
  {
    assert !IsDigit("98765x"[5]);
    assert !IsDigit("+91"[0]);
  }
}
