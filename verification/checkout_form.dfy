/**
 * The checkout page's shipping form: its seven text fields, the change
 * handler that overwrites one of them, and `validateForm`, an ordered chain
 * of checks in which the first failing check decides the message.
 */
module CheckoutForm {
  import opened Wrappers
  import opened Text

  /** The form state of the checkout page; every field starts out empty. */
  datatype ShippingForm = ShippingForm(
    name: string,
    phone: string,
    email: string,
    address: string,
    city: string,
    state: string,
    pincode: string)

  const EmptyForm: ShippingForm := ShippingForm("", "", "", "", "", "", "")

  /** The `name` attribute of the input or select that reported a change. */
  datatype Field = Name | Phone | Email | Address | City | State | Pincode

  function Get(f: ShippingForm, field: Field): string {
    match field
    case Name => f.name
    case Phone => f.phone
    case Email => f.email
    case Address => f.address
    case City => f.city
    case State => f.state
    case Pincode => f.pincode
  }

  /** The form after one field has been given a new value: that field reads back the value, the other six are kept. */
  function WithField(f: ShippingForm, field: Field, value: string): (g: ShippingForm)
    ensures Get(g, field) == value
    ensures forall other: Field | other != field :: Get(g, other) == Get(f, other)
  {
    match field
    case Name => f.(name := value)
    case Phone => f.(phone := value)
    case Email => f.(email := value)
    case Address => f.(address := value)
    case City => f.(city := value)
    case State => f.(state := value)
    case Pincode => f.(pincode := value)
  }

  const MinPhoneLength: nat := 10
  const MinPincodeLength: nat := 6

  const NameMessage: string := "Please enter your name"
  const PhoneMessage: string := "Please enter a valid phone number"
  const AddressMessage: string := "Please enter your address"
  const CityMessage: string := "Please enter your city"
  const StateMessage: string := "Please select your state"
  const PincodeMessage: string := "Please enter a valid pincode"

  /** The messages of the six checks, in the order the checks run. */
  const Messages: seq<string> :=
    [NameMessage, PhoneMessage, AddressMessage, CityMessage, StateMessage, PincodeMessage]

  /**
   * Whether each of the six checks passes, in the order they run. This is
   * the reference reading of the rules: blankness is stated with IsBlank
   * rather than by trimming, and the two length rules look at the raw,
   * untrimmed string, measured as JavaScript does, in UTF-16 code units.
   */
  function Checks(f: ShippingForm): seq<bool> {
    [ !IsBlank(f.name),
      !IsBlank(f.phone) && Utf16Length(f.phone) >= MinPhoneLength,
      !IsBlank(f.address),
      !IsBlank(f.city),
      !IsBlank(f.state),
      !IsBlank(f.pincode) && Utf16Length(f.pincode) >= MinPincodeLength ]
  }

  /**
   * `validateForm`: None (JavaScript's null) when the form may be submitted,
   * otherwise the message of the first check that fails. The form passes
   * exactly when the name, address, city and state are not blank, the
   * phone is not blank and at least ten characters long, and the pincode is
   * not blank and at least six characters long, those lengths counting any
   * surrounding whitespace and counting in UTF-16 code units, as `.length`
   * does. The email is never looked at.
   */
  function ValidateForm(f: ShippingForm): (r: Option<string>)
    ensures r == None <==>
      && !IsBlank(f.name)
      && !IsBlank(f.phone) && Utf16Length(f.phone) >= MinPhoneLength
      && !IsBlank(f.address)
      && !IsBlank(f.city)
      && !IsBlank(f.state)
      && !IsBlank(f.pincode) && Utf16Length(f.pincode) >= MinPincodeLength
    ensures IsBlank(f.name) ==> r == Some(NameMessage)
    ensures r == None || r.value in Messages
  {
    if Trim(f.name) == [] then Some(NameMessage)
    else if Trim(f.phone) == [] || Utf16Length(f.phone) < MinPhoneLength then Some(PhoneMessage)
    else if Trim(f.address) == [] then Some(AddressMessage)
    else if Trim(f.city) == [] then Some(CityMessage)
    else if Trim(f.state) == [] then Some(StateMessage)
    else if Trim(f.pincode) == [] || Utf16Length(f.pincode) < MinPincodeLength then Some(PincodeMessage)
    else None
  }

  /**
   * The checks run in order and the first failure wins: the validator
   * reports the i-th message exactly when the i-th check fails and every
   * earlier check passes.
   */
  lemma FirstFailureWins(f: ShippingForm, i: nat)
    requires i < |Messages|
    ensures ValidateForm(f) == Some(Messages[i]) <==>
      !Checks(f)[i] && forall j | 0 <= j < i :: Checks(f)[j]
  {
    var c := Checks(f);
    var r := ValidateForm(f);
    MessagesDistinct();
    if !c[0] {
      assert r == Some(Messages[0]);
    } else if !c[1] {
      assert r == Some(Messages[1]);
    } else if !c[2] {
      assert r == Some(Messages[2]);
    } else if !c[3] {
      assert r == Some(Messages[3]);
    } else if !c[4] {
      assert r == Some(Messages[4]);
    } else if !c[5] {
      assert r == Some(Messages[5]);
    } else {
      assert r == None;
    }
  }

  /** No two checks share a message, so the message identifies the failing check. */
  lemma MessagesDistinct()
    ensures forall j, k | 0 <= j < k < |Messages| :: Messages[j] != Messages[k]
  {
    assert |Messages[0]| == 22 && |Messages[1]| == 33 && |Messages[2]| == 25;
    assert |Messages[3]| == 22 && |Messages[4]| == 24 && |Messages[5]| == 28;
    assert Messages[0][18] == 'n' && Messages[3][18] == 'c';
  }

  /** The email field, which is optional, never makes validation fail or changes its message. */
  lemma EmailNeverBlocks(f: ShippingForm, email: string)
    ensures ValidateForm(f.(email := email)) == ValidateForm(f)
  {
  }

  /** A five-character phone number is rejected with the phone message once the name is filled in. */
  lemma ShortPhoneRejected(f: ShippingForm)
    requires !IsBlank(f.name) && f.phone == "12345"
    ensures ValidateForm(f) == Some(PhoneMessage)
  {
    BmpLength(f.phone);
  }

  /**
   * Length is counted in UTF-16 code units: five telephone-receiver emoji
   * (U+1F4DE, each a surrogate pair) make a phone number of length ten,
   * which the phone rule accepts although it has only five characters.
   */
  lemma AstralPhoneAccepted(f: ShippingForm)
    requires !IsBlank(f.name)
    requires f.phone == "\U{1F4DE}\U{1F4DE}\U{1F4DE}\U{1F4DE}\U{1F4DE}"
    ensures |f.phone| == 5 && Utf16Length(f.phone) == 10
    ensures ValidateForm(f) != Some(PhoneMessage)
  {
    var p := f.phone;
    assert !IsWhitespace(p[0]);
    assert Utf16Length(p[4..]) == 2;
    assert p[3..][1..] == p[4..];
    assert Utf16Length(p[3..]) == 4;
    assert p[2..][1..] == p[3..];
    assert Utf16Length(p[2..]) == 6;
    assert p[1..][1..] == p[2..];
    assert Utf16Length(p[1..]) == 8;
  }

  /**
   * The length rules count whitespace: with the other required fields
   * filled in, a phone number with five digits and five trailing spaces and
   * a pincode with four digits and two trailing spaces pass, although their
   * trimmed forms are shorter than the minimum.
   */
  lemma PaddingCountsTowardsLength(f: ShippingForm)
    requires !IsBlank(f.name) && !IsBlank(f.address) && !IsBlank(f.city) && !IsBlank(f.state)
    requires f.phone == "98765     " && f.pincode == "4110  "
    ensures ValidateForm(f) == None
    ensures |Trim(f.phone)| == 5 < MinPhoneLength
    ensures |Trim(f.pincode)| == 4 < MinPincodeLength
  {
    assert !IsBlank(f.phone) && |Trim(f.phone)| == 5 by { PaddedPhoneTrim(); }
    assert !IsBlank(f.pincode) && |Trim(f.pincode)| == 4 by { PaddedPincodeTrim(); }
    assert Utf16Length(f.phone) == 10 by { PaddedLength(f.phone); }
    assert Utf16Length(f.pincode) == 6 by { PaddedLength(f.pincode); }
  }

  /** Trimming the padded phone number leaves its five digits. */
  lemma PaddedPhoneTrim()
    ensures var p := "98765     "; !IsBlank(p) && |Trim(p)| == 5
  {
    var p := "98765     ";
    assert !IsWhitespace(p[0]) && !IsWhitespace(p[4]);
    assert SkipLeading(p, 0) == 0;
    assert SkipTrailing(p, 0, 5) == 5;
    assert SkipTrailing(p, 0, 6) == 5;
    assert SkipTrailing(p, 0, 7) == 5;
    assert SkipTrailing(p, 0, 8) == 5;
    assert SkipTrailing(p, 0, 9) == 5;
    assert SkipTrailing(p, 0, 10) == 5;
  }

  /** Trimming the padded pincode leaves its four digits. */
  lemma PaddedPincodeTrim()
    ensures var p := "4110  "; !IsBlank(p) && |Trim(p)| == 4
  {
    var p := "4110  ";
    assert !IsWhitespace(p[0]) && !IsWhitespace(p[3]);
    assert SkipLeading(p, 0) == 0;
    assert SkipTrailing(p, 0, 4) == 4;
    assert SkipTrailing(p, 0, 5) == 4;
    assert SkipTrailing(p, 0, 6) == 4;
  }

  /** A string of digits and spaces has one UTF-16 code unit per character. */
  lemma PaddedLength(p: string)
    requires forall i | 0 <= i < |p| :: p[i] == ' ' || '0' <= p[i] <= '9'
    ensures Utf16Length(p) == |p|
  {
    BmpLength(p);
  }
}
