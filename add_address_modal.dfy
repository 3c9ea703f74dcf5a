/** The shipping-address form of AddAddressModal.tsx: per-keystroke validation of the phone
    and PIN code, and the submit guard that checks formats and then every field for blanks. */
module AddAddressModal {
  import opened Optional
  import opened Types
  import opened Strings

  const PhoneError: string := "Must be a valid 10-digit Indian mobile number."
  const PinCodeError: string := "Must be a valid 6-digit Indian PIN code."

  /** `/^[6-9]\d{9}$/`: ten ASCII digits, the first of them 6 to 9. */
  predicate IsValidPhone(s: string)
    ensures IsValidPhone(s) <==> MatchesAnchored(PhonePattern, s)
  {
    PhoneDigitsArePattern(s);
    PhoneDigits(s)
  }

  predicate PhoneDigits(s: string)
  {
    |s| == 10 && '6' <= s[0] <= '9' && forall i :: 1 <= i < |s| ==> IsAsciiDigit(s[i])
  }

  /** `/^\d{6}$/`: exactly six ASCII digits. */
  predicate IsValidPinCode(s: string)
    ensures IsValidPinCode(s) <==> MatchesAnchored(PinCodePattern, s)
  {
    |s| == 6 && forall i :: 0 <= i < |s| ==> IsAsciiDigit(s[i])
  }

  // An independent reading of the two regular expressions: an anchored pattern made of
  // single-character classes, one class per position.

  datatype CharClass = Digit | Between(lo: char, hi: char)

  predicate InClass(c: char, k: CharClass)
  {
    match k
    case Digit => IsAsciiDigit(c)
    case Between(lo, hi) => lo <= c <= hi
  }

  predicate MatchesAnchored(pattern: seq<CharClass>, s: string)
  {
    |s| == |pattern| && forall i :: 0 <= i < |s| ==> InClass(s[i], pattern[i])
  }

  function Repeat(k: CharClass, n: nat): (r: seq<CharClass>)
    ensures |r| == n && forall i :: 0 <= i < n ==> r[i] == k
  {
    seq(n, _ => k)
  }

  /** `[6-9]\d{9}` */
  const PhonePattern: seq<CharClass> := [Between('6', '9')] + Repeat(Digit, 9)

  /** `\d{6}` */
  const PinCodePattern: seq<CharClass> := Repeat(Digit, 6)

  lemma PhoneDigitsArePattern(s: string)
    ensures PhoneDigits(s) <==> MatchesAnchored(PhonePattern, s)
  {
    if MatchesAnchored(PhonePattern, s) {
      assert InClass(s[0], PhonePattern[0]);
      forall i | 1 <= i < |s| ensures IsAsciiDigit(s[i]) {
        assert InClass(s[i], PhonePattern[i]);
      }
    }
  }

  lemma ValidatorExamples()
    ensures IsValidPhone("9876543210")
    ensures !IsValidPhone("1234567890") && !IsValidPhone("98765432")
    ensures IsValidPinCode("560001")
    ensures !IsValidPinCode("5600") && !IsValidPinCode("56000A")
  {
    assert !IsAsciiDigit("56000A"[5]);
  }

  /** `validateField`: an error message for a malformed phone or PIN code, and the empty
      string for everything else. */
  function ValidateField(fieldName: string, value: string): (error: string)
    ensures fieldName != "phone" && fieldName != "pinCode" ==> error == ""
    ensures fieldName == "phone" ==> (error == "" <==> IsValidPhone(value))
    ensures fieldName == "phone" && error != "" ==> error == PhoneError
    ensures fieldName == "pinCode" ==> (error == "" <==> IsValidPinCode(value))
    ensures fieldName == "pinCode" && error != "" ==> error == PinCodeError
  {
    var phoneError := if fieldName == "phone" && !IsValidPhone(value) then PhoneError else "";
    if fieldName == "pinCode" && !IsValidPinCode(value) then PinCodeError else phoneError
  }

  // ---------------------------------------------------------------------------
  // Fields

  datatype Field = Name | Phone | HouseNo | Area | City | PinCode | State

  /** The keys of `{ name, ...address }`, in the order `for...in` visits them. */
  const FieldOrder: seq<Field> := [Name, Phone, HouseNo, Area, City, PinCode, State]

  lemma FieldOrderCoversAll(f: Field)
    ensures f in FieldOrder
  {
  }

  function Key(f: Field): string
  {
    match f
    case Name => "name"
    case Phone => "phone"
    case HouseNo => "houseNo"
    case Area => "area"
    case City => "city"
    case PinCode => "pinCode"
    case State => "state"
  }

  function Value(a: Address, f: Field): string
  {
    match f
    case Name => a.name
    case Phone => a.phone
    case HouseNo => a.houseNo
    case Area => a.area
    case City => a.city
    case PinCode => a.pinCode
    case State => a.state
  }

  /** `{ ...prev, [key]: value }` */
  function WithValue(a: Address, f: Field, v: string): (r: Address)
    ensures Value(r, f) == v
    ensures forall g :: g != f ==> Value(r, g) == Value(a, g)
  {
    match f
    case Name => a.(name := v)
    case Phone => a.(phone := v)
    case HouseNo => a.(houseNo := v)
    case Area => a.(area := v)
    case City => a.(city := v)
    case PinCode => a.(pinCode := v)
    case State => a.(state := v)
  }

  const EmptyAddress: Address := Address("", "", "", "", "", "", "")

  // ---------------------------------------------------------------------------
  // The field name shown in the alert

  /** `key.replace(/([A-Z])/g, ' $1').toLowerCase()` */
  function Humanize(key: string): (r: string)
    ensures |key| <= |r| <= 2 * |key|
    ensures forall i :: 0 <= i < |r| ==> !IsAsciiUpper(r[i])
    decreases |key|
  {
    if key == [] then []
    else
      (if IsAsciiUpper(key[0]) then [' ', ToLowerChar(key[0])] else [ToLowerChar(key[0])])
      + Humanize(key[1..])
  }

  function RemoveSpaces(s: string): string
    decreases |s|
  {
    if s == [] then [] else (if s[0] == ' ' then [] else [s[0]]) + RemoveSpaces(s[1..])
  }

  /** Dropping the inserted spaces gives back the lower-cased key (for keys without spaces of
      their own). */
  lemma {:induction false} HumanizeInverse(key: string)
    requires forall i :: 0 <= i < |key| ==> key[i] != ' '
    ensures RemoveSpaces(Humanize(key)) == ToLower(key)
    decreases |key|
  {
    if key != [] {
      HumanizeInverse(key[1..]);
      var head := if IsAsciiUpper(key[0]) then [' ', ToLowerChar(key[0])] else [ToLowerChar(key[0])];
      RemoveSpacesAppend(head, Humanize(key[1..]));
      assert RemoveSpaces(head) == [ToLowerChar(key[0])];
      assert ToLower(key) == [ToLowerChar(key[0])] + ToLower(key[1..]);
    }
  }

  lemma {:induction false} RemoveSpacesAppend(a: string, b: string)
    ensures RemoveSpaces(a + b) == RemoveSpaces(a) + RemoveSpaces(b)
    decreases |a|
  {
    if a == [] {
      assert a + b == b;
    } else {
      assert (a + b)[1..] == a[1..] + b;
      RemoveSpacesAppend(a[1..], b);
    }
  }

  /** A key made of lower-case letters only is shown as it is. */
  lemma {:induction false} HumanizeLowercase(key: string)
    requires forall i :: 0 <= i < |key| ==> 'a' <= key[i] <= 'z'
    ensures Humanize(key) == key
    decreases |key|
  {
    if key != [] {
      HumanizeLowercase(key[1..]);
    }
  }

  lemma HumanizePinCode()
    ensures Humanize("pinCode") == "pin code"
  {
    var key := "pinCode";
    assert Humanize(key[6..]) == "e";
    assert Humanize(key[5..]) == "de";
    assert Humanize(key[4..]) == "ode";
    assert Humanize(key[3..]) == " code";
    assert Humanize(key[2..]) == "n code";
    assert Humanize(key[1..]) == "in code";
  }

  lemma HumanizeHouseNo()
    ensures Humanize("houseNo") == "house no"
  {
    var key := "houseNo";
    assert Humanize(key[6..]) == "o";
    assert Humanize(key[5..]) == " no";
    assert Humanize(key[4..]) == "e no";
    assert Humanize(key[3..]) == "se no";
    assert Humanize(key[2..]) == "use no";
    assert Humanize(key[1..]) == "ouse no";
  }

  function BlankFieldMessage(f: Field): string
  {
    "Please fill out the " + Humanize(Key(f)) + " field."
  }

  // ---------------------------------------------------------------------------
  // Submit

  /** Position `i` of FieldOrder holds the first blank field of `a`. */
  predicate FirstBlankAt(a: Address, i: nat)
  {
    i < |FieldOrder| && IsBlank(Value(a, FieldOrder[i]))
    && forall k :: 0 <= k < i ==> !IsBlank(Value(a, FieldOrder[k]))
  }

  /** The position in FieldOrder of the first blank field, as the `for...in` loop finds it. */
  method FindBlankField(a: Address) returns (blank: Option<nat>)
    ensures blank.Some? ==> FirstBlankAt(a, blank.value)
    ensures blank.None? <==> forall f :: !IsBlank(Value(a, f))
  {
    var i := 0;
    while i < |FieldOrder|
      invariant 0 <= i <= |FieldOrder|
      invariant forall k :: 0 <= k < i ==> !IsBlank(Value(a, FieldOrder[k]))
    {
      if IsBlank(Value(a, FieldOrder[i])) {
        return Some(i);
      }
      i := i + 1;
    }
    forall f ensures !IsBlank(Value(a, f)) {
      FieldOrderCoversAll(f);
    }
    return None;
  }

  /** What a submission does: show the format errors, alert about a blank field, or hand the
      address to `onSave`. */
  datatype SubmitOutcome = FormatErrors | Alert(message: string) | Saved(address: Address)

  class AddressForm {
    /** The `name` state together with the `address` state. */
    var draft: Address
    /** The `errors` state: field key to message ("" once a field is corrected). */
    var errors: map<string, string>

    constructor ()
      ensures draft == EmptyAddress && errors == map[]
    {
      draft := EmptyAddress;
      errors := map[];
    }

    /** The reset effect when the form closes. */
    method Close()
      modifies this
      ensures draft == EmptyAddress && errors == map[]
    {
      draft := EmptyAddress;
      errors := map[];
    }

    /** `handleInputChange`: the name field only updates the name; any other field updates
        itself and its error entry. */
    method InputChange(f: Field, value: string)
      modifies this
      ensures draft == WithValue(old(draft), f, value)
      ensures f == Name ==> errors == old(errors)
      ensures f != Name ==> errors == old(errors)[Key(f) := ValidateField(Key(f), value)]
    {
      draft := WithValue(draft, f, value);
      if f != Name {
        errors := errors[Key(f) := ValidateField(Key(f), value)];
      }
    }

    /** `handleSubmit` */
    method Submit() returns (outcome: SubmitOutcome)
      modifies this`errors
      ensures !IsValidPhone(draft.phone) || !IsValidPinCode(draft.pinCode) ==>
        && outcome == FormatErrors
        && errors == map["phone" := ValidateField("phone", draft.phone),
                         "pinCode" := ValidateField("pinCode", draft.pinCode)]
      ensures IsValidPhone(draft.phone) && IsValidPinCode(draft.pinCode) ==> errors == old(errors)
      ensures outcome.FormatErrors? <==> !IsValidPhone(draft.phone) || !IsValidPinCode(draft.pinCode)
      ensures outcome.Alert? <==>
        IsValidPhone(draft.phone) && IsValidPinCode(draft.pinCode) && exists f :: IsBlank(Value(draft, f))
      ensures outcome.Saved? <==>
        IsValidPhone(draft.phone) && IsValidPinCode(draft.pinCode) && forall f :: !IsBlank(Value(draft, f))
      ensures outcome.Saved? ==> outcome.address == draft
      ensures outcome.Alert? ==>
        exists i: nat :: FirstBlankAt(draft, i) && outcome.message == BlankFieldMessage(FieldOrder[i])
    {
      var phoneError := ValidateField("phone", draft.phone);
      var pinCodeError := ValidateField("pinCode", draft.pinCode);
      if phoneError != "" || pinCodeError != "" {
        errors := map["phone" := phoneError, "pinCode" := pinCodeError];
        return FormatErrors;
      }
      var blank := FindBlankField(draft);
      if blank.Some? {
        return Alert(BlankFieldMessage(FieldOrder[blank.value]));
      }
      return Saved(draft);
    }
  }
}
