/** The checkout page script (petshop/static/js/checkout.js): the phone field
    kept in the `+7…` shape, the phone taken over from the profile, and the
    phone check that gates the order request. */
module CheckoutJs {
  import opened Text
  import opened Wrappers
  import Forms
  import ProfileJs

  /** The request's phone gate: an empty or short value blocks the request. */
  predicate PhoneAccepted(phoneValue: string)
  {
    phoneValue != "" && |phoneValue| >= 12
  }

  /** The normalised phone's digits: a '7' in front unless they start with one. */
  function SevenDigits(value: string): (r: string)
    ensures r != [] && r[0] == '7' && IsDigits(r)
    ensures StartsWith(DigitsOf(value), "7") ==> r == DigitsOf(value)
  {
    var numbers := DigitsOf(value);
    if StartsWith(numbers, "7") then numbers else "7" + numbers
  }

  /** The gate opens exactly when there are at least eleven digits once the
      leading '7' is in place. */
  lemma GateNeedsElevenDigits(value: string)
    ensures PhoneAccepted(ProfileJs.NormalizePhone(value)) <==> |SevenDigits(value)| >= 11
  {
  }

  /** A normalised phone passes the gate exactly when it has the shape of the
      pattern `^\+7\d{10}$`: "+7" and ten digits. */
  lemma GateIsPhoneShape(value: string)
    ensures var v := ProfileJs.NormalizePhone(value);
            PhoneAccepted(v) <==> Forms.IsPhone(v)
  {
    var v := ProfileJs.NormalizePhone(value);
    if PhoneAccepted(v) {
      assert v[..2] == "+7";
      assert v[2..] == v[1..][1..];
    }
  }

  /** A phone of the shape `^\+7\d{10}$` is left as it is by the normaliser. */
  lemma NormalizeKeepsValidPhone(v: string)
    requires Forms.IsPhone(v)
    ensures ProfileJs.NormalizePhone(v) == v
  {
    assert v == "+" + v[1..];
    assert v[1..] == "7" + v[2..];
    DigitsOfConcat("+", v[1..]);
    DigitsOfNone("+");
    DigitsOfDigits(v[1..]);
  }

  /** The profile's phone as shown: a '+' is put in front of one that starts
      with '7' (and so not with "+7"). */
  function ProfilePhonePrefixed(phone: string): (r: string)
    ensures StartsWith(phone, "7") ==> r == "+" + phone
    ensures !StartsWith(phone, "7") ==> r == phone
    ensures StartsWith(phone, "7") || StartsWith(phone, "+7") ==> StartsWith(r, "+7")
  {
    assert StartsWith(phone, "7") ==> phone[0] == phone[..1][0] == '7';
    assert StartsWith(phone, "+7") ==> phone[0] == phone[..2][0] == '+';
    if !StartsWith(phone, "+7") && StartsWith(phone, "7") then "+" + phone else phone
  }

  /** The checkout phone field. */
  class CheckoutPhoneInput {
    var value: string

    /** Page load: an empty field becomes "+7". */
    constructor (initial: string)
      ensures value == ProfileJs.EnsurePlus7(initial)
    {
      value := ProfileJs.EnsurePlus7(initial);
    }

    method EnsurePlus7()
      modifies this
      ensures value == (if old(value) == "" then "+7" else old(value))
    {
      if value == "" {
        value := "+7";
      }
    }

    /** `validatePhone`, the `input` handler. */
    method ValidatePhone()
      modifies this
      ensures value == ProfileJs.NormalizePhone(old(value))
      ensures 2 <= |value| <= 12 && value[..2] == "+7" && IsDigits(value[1..])
    {
      value := ProfileJs.NormalizePhone(value);
      assert value[..2] == [value[0], value[1]];
    }

    /** The profile is loaded: a non-empty stored phone replaces the field,
        prefixed with '+' when it starts with '7'. */
    method LoadProfilePhone(phone: string)
      modifies this
      ensures value == (if phone != "" then ProfilePhonePrefixed(phone) else old(value))
    {
      if phone != "" {
        value := ProfilePhonePrefixed(phone);
        EnsurePlus7();
      }
    }

    /** The submit handler's phone step: the field is normalised, and the
        phone is sent only when it passes the gate; then it has the shape of
        the pattern `^\+7\d{10}$`. */
    method Submit() returns (sent: Option<string>)
      modifies this
      ensures value == ProfileJs.NormalizePhone(old(value))
      ensures sent.Some? <==> PhoneAccepted(value)
      ensures sent.Some? ==> sent.value == value && Forms.IsPhone(value)
    {
      ValidatePhone();
      if value == "" || |value| < 12 {
        sent := None;
      } else {
        GateIsPhoneShape(old(value));
        sent := Some(value);
      }
    }
  }
}
