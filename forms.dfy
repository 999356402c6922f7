/** The server-side validation of the HTML forms (petshop/forms.py): Django's
    field cleaning (strip, required, length bounds) followed by each form's
    own `clean_*` methods. A form answers either its cleaned data or the map
    from each failing field to its error. */
module Forms {
  import opened Wrappers
  import opened Text
  import opened PyValue
  import Models

  datatype FieldError =
    | Required
    | TooShort(min: int)
    | TooLong(max: int)
    | NotLetters
    | BadPhone
    | BadEmail
    | EmailTaken
    | DateNotPast
    | DateInFuture
    | PasswordMismatch
    | OutOfRange
    | ProductInactive
    | ExceedsStock(available: int)
    | InvalidChoice

  datatype Field =
    | FirstName | LastName | MiddleName | Email | Phone | Password | PasswordConfirm
    | DateOfBirth | ProductChoice | Quantity | PickupPoint | Rating | Text | NonField

  /** The failing fields with their errors, in the form's field order: a model
      form lists its `Meta.fields` first and then the declared fields that list
      leaves out, in declaration order. */
  type Errors = seq<(Field, FieldError)>

  function ErrorOf<T>(f: Field, r: Result<T, FieldError>): (e: Errors)
    ensures |e| == if r.Err? then 1 else 0
  {
    if r.Err? then [(f, r.error)] else []
  }

  /** A value the field treats as empty: absent, or whitespace only. */
  predicate Blank(raw: Option<string>) {
    raw.None? || forall i :: 0 <= i < |raw.value| ==> IsSpace(raw.value[i])
  }

  /** What a stripping field sees of the submitted value. */
  function Submitted(raw: Option<string>): (v: string)
    ensures v == "" <==> Blank(raw)
    ensures v != "" ==> !IsSpace(v[0]) && !IsSpace(v[|v| - 1])
  {
    if raw.None? then "" else StripEmptyIff(raw.value); Strip(raw.value)
  }

  /** Django `forms.CharField.clean`: strip; an empty value is an error only when
      the field is required and otherwise skips the length validators. */
  function CleanChar(raw: Option<string>, required: bool, minLength: nat, maxLength: Option<nat>): (r: Result<string, FieldError>)
    ensures r == Err(Required) <==> required && Blank(raw)
    ensures r.Ok? <==> ((Blank(raw) ==> !required)
                      && (!Blank(raw) ==> minLength <= |Submitted(raw)| && (maxLength.Some? ==> |Submitted(raw)| <= maxLength.value)))
    ensures r.Ok? ==> r.value == Submitted(raw)
  {
    var v := Submitted(raw);
    if v == "" then (if required then Err(Required) else Ok(""))
    else if |v| < minLength then Err(TooShort(minLength))
    else if maxLength.Some? && |v| > maxLength.value then Err(TooLong(maxLength.value))
    else Ok(v)
  }

  /** Django `forms.EmailField.clean`; the address syntax check is the parameter `emailValid`. */
  function CleanEmailField(raw: Option<string>, maxLength: Option<nat>, emailValid: string -> bool): (r: Result<string, FieldError>)
    ensures r.Ok? <==> CleanChar(raw, true, 0, maxLength).Ok? && emailValid(Submitted(raw))
    ensures r.Ok? ==> r.value == Submitted(raw) && r.value != ""
  {
    var c := CleanChar(raw, true, 0, maxLength);
    if c.Err? then c
    else if !emailValid(c.value) then Err(BadEmail)
    else c
  }

  /** The pattern `^\+7\d{10}$`: "+7" and exactly ten digits. */
  predicate IsPhone(s: string) {
    |s| == 12 && s[..2] == "+7" && IsDigits(s[2..])
  }

  // ---------------------------------------------------------------- registration

  datatype RegistrationData = RegistrationData(
    firstName: Option<string>, lastName: Option<string>, middleName: Option<string>,
    email: Option<string>, phone: Option<string>, password: Option<string>,
    passwordConfirm: Option<string>, dateOfBirth: Option<Date>)

  datatype Registration = Registration(
    firstName: string, lastName: string, middleName: string, email: string,
    phone: string, password: string, dateOfBirth: Date)

  /** `UserRegistrationForm.clean_phone`, after the field's own cleaning (max 16 characters). */
  function RegistrationPhone(raw: Option<string>): (r: Result<string, FieldError>)
    ensures r.Ok? <==> !Blank(raw) && IsPhone(Submitted(raw))
    ensures r.Ok? ==> r.value == Submitted(raw)
  {
    var c := CleanChar(raw, true, 0, Some(16));
    if c.Err? then c else if IsPhone(c.value) then c else Err(BadPhone)
  }

  /** `UserRegistrationForm.clean_date_of_birth`: the birth date must lie strictly before today. */
  function RegistrationBirthDate(dob: Option<Date>, today: Date): (r: Result<Date, FieldError>)
    ensures r.Ok? <==> dob.Some? && Before(dob.value, today)
    ensures r.Ok? ==> r.value == dob.value
  {
    if dob.None? then Err(Required)
    else if !Before(dob.value, today) then Err(DateNotPast)
    else Ok(dob.value)
  }

  function Cleaned<T>(r: Result<T, FieldError>): Option<T> {
    if r.Ok? then Some(r.value) else None
  }

  /** `UserRegistrationForm`: its fields, the `clean_*` methods and the password confirmation check of `clean`. */
  function CleanRegistration(d: RegistrationData, today: Date, emailValid: string -> bool, takenEmails: set<string>): (r: Result<Registration, Errors>)
    ensures r.Ok? ==> IsPhone(r.value.phone) && Before(r.value.dateOfBirth, today)
    ensures r.Ok? ==> r.value.password == Submitted(d.password) == Submitted(d.passwordConfirm) && |r.value.password| >= 6
    ensures r.Ok? ==> r.value.email == Submitted(d.email) && r.value.email !in takenEmails
    ensures r.Ok? ==> 0 < |r.value.firstName| <= 50 && 0 < |r.value.lastName| <= 50 && |r.value.middleName| <= 50
    ensures r.Err? ==> r.error != []
    ensures d.dateOfBirth.Some? && !Before(d.dateOfBirth.value, today) ==> r.Err? && (DateOfBirth, DateNotPast) in r.error
  {
    var first := CleanChar(d.firstName, true, 0, Some(50));
    var last := CleanChar(d.lastName, true, 0, Some(50));
    var middle := CleanChar(d.middleName, false, 0, Some(50));
    var emailField := CleanEmailField(d.email, None, emailValid);
    var email := if emailField.Ok? && emailField.value in takenEmails then Err(EmailTaken) else emailField;
    var phone := RegistrationPhone(d.phone);
    var password := CleanChar(d.password, true, 6, None);
    var confirm := CleanChar(d.passwordConfirm, true, 0, None);
    var dob := RegistrationBirthDate(d.dateOfBirth, today);
    Assemble(first, last, middle, email, phone, password, confirm, dob)
  }

  /** `is_valid()` over the cleaned registration fields: the registration when
      every field cleaned and the passwords agree; otherwise the field errors
      in field order (the `Meta.fields` list, then `password_confirm`, the one
      declared field that list leaves out), then the mismatch error of `clean`. */
  function Assemble(first: Result<string, FieldError>, last: Result<string, FieldError>,
                    middle: Result<string, FieldError>, email: Result<string, FieldError>,
                    phone: Result<string, FieldError>, password: Result<string, FieldError>,
                    confirm: Result<string, FieldError>, dob: Result<Date, FieldError>): (r: Result<Registration, Errors>)
    ensures r.Ok? <==> first.Ok? && last.Ok? && middle.Ok? && email.Ok? && phone.Ok?
                       && password.Ok? && confirm.Ok? && dob.Ok? && password.value == confirm.value
    ensures r.Ok? ==> r.value == Registration(first.value, last.value, middle.value, email.value,
                                              phone.value, password.value, dob.value)
    ensures r.Err? ==> r.error != []
    ensures dob.Err? ==> r.Err? && (DateOfBirth, dob.error) in r.error
  {
    var mismatch := if Cleaned(password) != Cleaned(confirm) then [(NonField, PasswordMismatch)] else [];
    var head := ErrorOf(FirstName, first) + ErrorOf(LastName, last) + ErrorOf(MiddleName, middle)
      + ErrorOf(Email, email) + ErrorOf(Phone, phone) + ErrorOf(Password, password);
    var errors := head + ErrorOf(DateOfBirth, dob) + ErrorOf(PasswordConfirm, confirm) + mismatch;
    assert dob.Err? ==> errors[|head|] == (DateOfBirth, dob.error);
    if first.Ok? && last.Ok? && middle.Ok? && email.Ok? && phone.Ok? && password.Ok? && confirm.Ok? && dob.Ok? && mismatch == [] then
      Ok(Registration(first.value, last.value, middle.value, email.value, phone.value, password.value, dob.value))
    else Err(errors)
  }

  // ---------------------------------------------------------------- login

  /** `UserLoginForm.clean_email`: at most 254 characters after stripping. */
  function LoginEmail(raw: Option<string>, emailValid: string -> bool): (r: Result<string, FieldError>)
    ensures r.Ok? <==> !Blank(raw) && |Submitted(raw)| <= 254 && emailValid(Submitted(raw))
    ensures r.Ok? ==> r.value == Submitted(raw)
  {
    var c := CleanEmailField(raw, Some(254), emailValid);
    if c.Err? then c
    else
      var email := Strip(c.value);
      StripIdempotent(raw.value);
      if email == "" then Err(Required)
      else if |email| > 254 then Err(TooLong(254))
      else Ok(email)
  }

  /** `UserLoginForm.clean_password`: 6 to 128 characters after stripping. */
  function LoginPassword(raw: Option<string>): (r: Result<string, FieldError>)
    ensures r.Ok? <==> 6 <= |Submitted(raw)| <= 128
    ensures r.Ok? ==> r.value == Submitted(raw)
  {
    var c := CleanChar(raw, true, 6, None);
    if c.Err? then c
    else
      var password := Strip(c.value);
      StripIdempotent(raw.value);
      if password == "" then Err(Required)
      else if |password| < 6 then Err(TooShort(6))
      else if |password| > 128 then Err(TooLong(128))
      else Ok(password)
  }

  // ---------------------------------------------------------------- profile

  datatype ProfileData = ProfileData(
    firstName: Option<string>, lastName: Option<string>, middleName: Option<string>,
    email: Option<string>, phone: Option<string>, dateOfBirth: Option<Date>)

  datatype Profile = Profile(
    firstName: string, lastName: string, middleName: string, email: string,
    phone: string, dateOfBirth: Option<Date>)

  /** A required name of letters only (`UserProfileForm.clean_first_name` / `clean_last_name`). */
  function ProfileName(raw: Option<string>): (r: Result<string, FieldError>)
    ensures r.Ok? <==> IsAlpha(Submitted(raw)) && |Submitted(raw)| <= 50
    ensures r.Ok? ==> r.value == Submitted(raw)
  {
    var c := CleanChar(raw, true, 0, Some(50));
    if c.Err? then c else if IsAlpha(c.value) then c else Err(NotLetters)
  }

  /** `UserProfileForm.clean_middle_name`: optional, letters only when given. */
  function ProfileMiddleName(raw: Option<string>): (r: Result<string, FieldError>)
    ensures r.Ok? <==> |Submitted(raw)| <= 50 && (Submitted(raw) == "" || IsAlpha(Submitted(raw)))
  {
    var c := CleanChar(raw, false, 0, Some(50));
    if c.Err? then c else if c.value == "" || IsAlpha(c.value) then c else Err(NotLetters)
  }

  /** `UserProfileForm.clean_phone`: optional, the full pattern when given. */
  function ProfilePhone(raw: Option<string>): (r: Result<string, FieldError>)
    ensures r.Ok? <==> Submitted(raw) == "" || IsPhone(Submitted(raw))
    ensures r.Ok? ==> r.value == Submitted(raw)
  {
    var c := CleanChar(raw, false, 0, Some(20));
    if c.Err? then c else if c.value == "" || IsPhone(c.value) then c else Err(BadPhone)
  }

  /** `UserProfileForm.clean_date_of_birth`: optional, and not after today. */
  function ProfileBirthDate(dob: Option<Date>, today: Date): (r: Result<Option<Date>, FieldError>)
    ensures r.Ok? <==> dob.None? || !Before(today, dob.value)
    ensures r.Ok? ==> r.value == dob
  {
    if dob.Some? && Before(today, dob.value) then Err(DateInFuture) else Ok(dob)
  }

  /** `UserProfileForm`; `otherEmails` are the addresses of every other user.
      Errors come in field order: `date_of_birth` (listed in `Meta.fields`)
      before the declared name, email and phone fields. */
  function CleanProfile(d: ProfileData, today: Date, emailValid: string -> bool, otherEmails: set<string>): (r: Result<Profile, Errors>)
    ensures r.Ok? <==> (ProfileName(d.firstName).Ok? && ProfileName(d.lastName).Ok? && ProfileMiddleName(d.middleName).Ok?
                      && CleanEmailField(d.email, None, emailValid).Ok? && Submitted(d.email) !in otherEmails
                      && ProfilePhone(d.phone).Ok? && ProfileBirthDate(d.dateOfBirth, today).Ok?)
    ensures r.Ok? ==> r.value.dateOfBirth == d.dateOfBirth && r.value.email == Submitted(d.email)
  {
    var first := ProfileName(d.firstName);
    var last := ProfileName(d.lastName);
    var middle := ProfileMiddleName(d.middleName);
    var emailField := CleanEmailField(d.email, None, emailValid);
    var email := if emailField.Ok? && emailField.value in otherEmails then Err(EmailTaken) else emailField;
    var phone := ProfilePhone(d.phone);
    var dob := ProfileBirthDate(d.dateOfBirth, today);
    var errors := ErrorOf(DateOfBirth, dob) + ErrorOf(FirstName, first) + ErrorOf(LastName, last)
      + ErrorOf(MiddleName, middle) + ErrorOf(Email, email) + ErrorOf(Phone, phone);
    if first.Ok? && last.Ok? && middle.Ok? && email.Ok? && phone.Ok? && dob.Ok? then
      Ok(Profile(first.value, last.value, middle.value, email.value, phone.value, dob.value))
    else Err(errors)
  }

  /** Registration is the stricter of the two birth-date rules: today itself is
      accepted by the profile form and refused at registration. */
  lemma BirthDateRules(dob: Date, today: Date)
    ensures RegistrationBirthDate(Some(dob), today).Ok? ==> ProfileBirthDate(Some(dob), today).Ok?
    ensures ProfileBirthDate(Some(today), today).Ok? && RegistrationBirthDate(Some(today), today).Err?
  {
  }

  // ---------------------------------------------------------------- cart, order, review

  /** `CartAddForm`: the product must exist and be active, the quantity must be
      at least 1 and at most the product's stock summed over all points (the
      line already in the cart is not counted). */
  function CleanCartAdd(product: Option<Models.ProductId>, quantity: Option<int>,
                        products: map<Models.ProductId, Models.Product>, stock: Models.Stock,
                        points: seq<Models.PointId>): (r: Result<(Models.ProductId, int), Errors>)
    ensures r.Ok? <==> (product.Some? && product.value in products && products[product.value].active
                      && quantity.Some? && 1 <= quantity.value <= Models.TotalStock(stock, points, product.value))
    ensures r.Ok? ==> r.value == (product.value, quantity.value)
    ensures product.Some? && product.value in products && !products[product.value].active ==>
              r.Err? && (ProductChoice, ProductInactive) in r.error
  {
    var p: Result<Models.ProductId, FieldError> :=
      if product.None? then Err(Required)
      else if product.value !in products then Err(InvalidChoice)
      else if !products[product.value].active then Err(ProductInactive)
      else Ok(product.value);
    var q: Result<int, FieldError> :=
      if quantity.None? then Err(Required)
      else if quantity.value < 1 then Err(OutOfRange)
      else if p.Ok? && quantity.value > Models.TotalStock(stock, points, p.value) then
        Err(ExceedsStock(Models.TotalStock(stock, points, p.value)))
      else Ok(quantity.value);
    var errors := ErrorOf(ProductChoice, p) + ErrorOf(Quantity, q);
    if p.Ok? && q.Ok? then Ok((p.value, q.value))
    else Err(errors)
  }

  datatype OrderFormData = OrderFormData(
    firstName: Option<string>, lastName: Option<string>, email: Option<string>,
    phone: Option<string>, pickupPoint: Option<Models.PointId>)

  datatype OrderFormClean = OrderFormClean(
    firstName: string, lastName: string, email: string, phone: string, pickupPoint: Models.PointId)

  /** `OrderForm.clean_first_name` / `clean_last_name` after the field's own cleaning (max 50). */
  function OrderName(raw: Option<string>): (r: Result<string, FieldError>)
    ensures r.Ok? <==> IsAlpha(Submitted(raw)) && |Submitted(raw)| <= 50
    ensures r.Ok? ==> r.value == Submitted(raw)
  {
    var c := CleanChar(raw, true, 0, Some(50));
    if c.Err? then c
    else
      var name := Strip(c.value);
      StripIdempotent(raw.value);
      if IsAlpha(name) then Ok(name) else Err(NotLetters)
  }

  /** `forms.RegexField` on `^\+7\d{10}$` as `RegexValidator` applies it: the
      value is not stripped, and `search` lets `$` match just before a final
      newline. */
  predicate MatchesPhonePattern(s: string) {
    IsPhone(s) || (|s| == 13 && IsPhone(s[..12]) && s[12] == '\n')
  }

  /** The order form's `phone`: a `RegexField`, which keeps the submitted text
      as it is; only an absent or empty value is `Required`. */
  function OrderPhone(raw: Option<string>): (r: Result<string, FieldError>)
    ensures r == Err(Required) <==> raw.None? || raw.value == ""
    ensures r.Ok? <==> raw.Some? && MatchesPhonePattern(raw.value)
    ensures r.Ok? ==> r.value == raw.value
  {
    if raw.None? || raw.value == "" then Err(Required)
    else if MatchesPhonePattern(raw.value) then Ok(raw.value)
    else Err(BadPhone)
  }

  /** The order form's phone is checked as typed: leading blanks are refused,
      and a final newline is accepted and kept. */
  lemma OrderPhoneUnstripped()
    ensures OrderPhone(Some(" +79991234567")) == Err(BadPhone)
    ensures OrderPhone(Some("+79991234567\n")) == Ok("+79991234567\n")
  {
    assert " +79991234567"[12] == '7';
    assert IsPhone("+79991234567");
    assert ("+79991234567\n")[..12] == "+79991234567";
  }

  /** `OrderForm`: the pickup point must be one of the active points. */
  function CleanOrderForm(d: OrderFormData, activePoints: set<Models.PointId>, emailValid: string -> bool): (r: Result<OrderFormClean, Errors>)
    ensures r.Ok? <==> (OrderName(d.firstName).Ok? && OrderName(d.lastName).Ok?
                      && CleanEmailField(d.email, None, emailValid).Ok?
                      && OrderPhone(d.phone).Ok?
                      && d.pickupPoint.Some? && d.pickupPoint.value in activePoints)
    ensures r.Ok? ==> IsAlpha(r.value.firstName) && |r.value.firstName| <= 50
    ensures r.Ok? ==> IsAlpha(r.value.lastName) && |r.value.lastName| <= 50
    ensures r.Ok? ==> r.value.phone == d.phone.value && MatchesPhonePattern(r.value.phone)
    ensures r.Ok? ==> r.value.email != "" && r.value.pickupPoint in activePoints
  {
    var first := OrderName(d.firstName);
    var last := OrderName(d.lastName);
    var emailField := CleanEmailField(d.email, None, emailValid);
    var email := if emailField.Ok? then (StripIdempotent(d.email.value); Ok(Strip(emailField.value))) else emailField;
    var phone := OrderPhone(d.phone);
    var point: Result<Models.PointId, FieldError> :=
      if d.pickupPoint.None? then Err(Required)
      else if d.pickupPoint.value !in activePoints then Err(InvalidChoice)
      else Ok(d.pickupPoint.value);
    var errors := ErrorOf(FirstName, first) + ErrorOf(LastName, last) + ErrorOf(Email, email)
      + ErrorOf(Phone, phone) + ErrorOf(PickupPoint, point);
    if first.Ok? && last.Ok? && email.Ok? && phone.Ok? && point.Ok? then
      Ok(OrderFormClean(first.value, last.value, email.value, phone.value, point.value))
    else Err(errors)
  }

  /** `ReviewForm`: a rating in 1..5 and a text that is non-empty after stripping. */
  function CleanReviewForm(rating: Option<int>, text: Option<string>): (r: Result<(int, string), Errors>)
    ensures r.Ok? <==> rating.Some? && 1 <= rating.value <= 5 && !Blank(text)
    ensures r.Ok? ==> r.value == (rating.value, Submitted(text))
  {
    var rt: Result<int, FieldError> :=
      if rating.None? then Err(Required)
      else if rating.value < 1 || rating.value > 5 then Err(OutOfRange)
      else Ok(rating.value);
    var c := CleanChar(text, false, 0, None);
    var tx: Result<string, FieldError> :=
      if c.Err? then c
      else
        var t := Strip(c.value);
        if c.value != "" then StripIdempotent(text.value); if t == "" then Err(Required) else Ok(t)
        else Err(Required);
    if rt.Ok? && tx.Ok? then Ok((rt.value, tx.value))
    else Err(ErrorOf(Rating, rt) + ErrorOf(Text, tx))
  }
}
