/** The REST serializers' validation rules and computed fields
    (api_shop/serializers.py). The REST framework's `CharField` trims
    whitespace and refuses blank values before any `validate_*` method runs. */
module Serializers {
  import opened Wrappers
  import opened Text
  import opened Models

  // ---------------------------------------------------------------- Russian names

  /** A separator of the name pattern: `-` or whitespace (`[-\s]`). */
  predicate IsNameSeparator(c: char) {
    c == '-' || IsSpace(c)
  }

  /** The pattern `^[а-яёА-ЯЁ]+([-\s][а-яёА-ЯЁ]+)*$`, read the way the regular
      expression engine reads it: a run of letters, then any number of one
      separator followed by a run of letters. */
  predicate MatchesNamePattern(s: string)
    decreases |s|
  {
    |s| > 0 && IsRussianLetter(s[0])
    && (|s| == 1
        || (IsRussianLetter(s[1]) && MatchesNamePattern(s[1..]))
        || (|s| >= 3 && IsNameSeparator(s[1]) && MatchesNamePattern(s[2..])))
  }

  /** The same language described character by character: Russian letters and
      separators only, a letter at both ends, and every separator followed by a letter. */
  predicate WellFormedName(s: string) {
    |s| > 0 && IsRussianLetter(s[0]) && IsRussianLetter(s[|s| - 1])
    && (forall i :: 0 <= i < |s| ==> IsRussianLetter(s[i]) || IsNameSeparator(s[i]))
    && (forall i :: 0 <= i < |s| - 1 ==> IsNameSeparator(s[i]) ==> IsRussianLetter(s[i + 1]))
  }

  lemma {:induction false} NamePatternIsWellFormed(s: string)
    ensures MatchesNamePattern(s) <==> WellFormedName(s)
    decreases |s|
  {
    if |s| >= 2 {
      NamePatternIsWellFormed(s[1..]);
      if |s| >= 3 {
        NamePatternIsWellFormed(s[2..]);
      }
      if WellFormedName(s) {
        assert IsRussianLetter(s[0]);
        if IsRussianLetter(s[1]) {
          var t := s[1..];
          assert forall i :: 0 <= i < |t| ==> t[i] == s[i + 1];
          assert WellFormedName(t);
        } else {
          assert IsNameSeparator(s[1]);
          assert IsRussianLetter(s[2]);
          var t := s[2..];
          assert forall i :: 0 <= i < |t| ==> t[i] == s[i + 2];
          assert WellFormedName(t);
        }
      }
      if MatchesNamePattern(s) {
        if IsRussianLetter(s[1]) && MatchesNamePattern(s[1..]) {
          var t := s[1..];
          assert forall i :: 0 <= i < |t| ==> t[i] == s[i + 1];
          assert forall i :: 1 <= i < |s| ==> s[i] == t[i - 1];
        } else {
          var t := s[2..];
          assert forall i :: 0 <= i < |t| ==> t[i] == s[i + 2];
          assert forall i :: 2 <= i < |s| ==> s[i] == t[i - 2];
        }
      }
    }
  }

  datatype NameError = NameRequired | NameBadCharacters | NameTooShort | NameTooLong

  /** `ProfileSerializer._validate_russian_name`: a required name must be
      non-empty; a non-empty one is stripped, must match the pattern and be
      2 to 50 characters long, and the stripped value is the result. */
  function ValidateRussianName(value: string, required: bool): (r: Result<string, NameError>)
    ensures r == Err(NameRequired) <==> required && value == ""
    ensures r.Ok? <==> (value == "" && !required)
                       || (value != "" && WellFormedName(Strip(value)) && 2 <= |Strip(value)| <= 50)
    ensures r.Ok? ==> r.value == Strip(value)
  {
    if required && value == "" then Err(NameRequired)
    else if value != "" then
      var v := Strip(value);
      NamePatternIsWellFormed(v);
      if !MatchesNamePattern(v) then Err(NameBadCharacters)
      else if |v| < 2 then Err(NameTooShort)
      else if |v| > 50 then Err(NameTooLong)
      else Ok(v)
    else
      assert Strip(value) == "";
      Ok(value)
  }

  // ---------------------------------------------------------------- field bounds

  datatype FieldError = Missing | Blank | BelowMin(min: int) | AboveMax(max: int)

  /** `AddToCartSerializer`: the quantity is required and at least 1. */
  function ValidateCartQuantity(quantity: Option<int>): (r: Result<int, FieldError>)
    ensures r.Ok? <==> quantity.Some? && quantity.value >= 1
    ensures r.Ok? ==> r.value == quantity.value
  {
    match quantity
    case None => Err(Missing)
    case Some(q) => if q < 1 then Err(BelowMin(1)) else Ok(q)
  }

  /** `ReviewCreateSerializer`: a rating in 1..5 and a non-blank text, stored trimmed. */
  function ValidateReview(rating: Option<int>, text: Option<string>): (r: Result<(int, string), seq<FieldError>>)
    ensures r.Ok? <==> rating.Some? && 1 <= rating.value <= 5 && text.Some? && Strip(text.value) != ""
    ensures r.Ok? ==> r.value.0 == rating.value && r.value.1 == Strip(text.value) && r.value.1 != ""
    ensures r.Err? ==> |r.error| > 0
  {
    var ratingErrors :=
      if rating.None? then [Missing]
      else if rating.value < 1 then [BelowMin(1)]
      else if rating.value > 5 then [AboveMax(5)]
      else [];
    var textErrors :=
      if text.None? then [Missing]
      else if Strip(text.value) == "" then [Blank]
      else [];
    if ratingErrors == [] && textErrors == [] then Ok((rating.value, Strip(text.value)))
    else Err(ratingErrors + textErrors)
  }

  /** `RegisterSerializer.password`: required, at least 8 characters once trimmed. */
  function ValidateRegisterPassword(password: Option<string>): (r: Result<string, FieldError>)
    ensures r.Ok? <==> password.Some? && |Strip(password.value)| >= 8
    ensures r.Ok? ==> r.value == Strip(password.value)
  {
    match password
    case None => Err(Missing)
    case Some(p) =>
      var v := Strip(p);
      if v == "" then Err(Blank) else if |v| < 8 then Err(BelowMin(8)) else Ok(v)
  }

  // ---------------------------------------------------------------- computed fields

  /** `CartItemSerializer.get_total`: the line's price times its quantity. */
  function CartItemTotal(line: CartLine, products: map<ProductId, Product>): (t: int)
    requires line.product in products
    ensures t == products[line.product].price * line.quantity
    ensures t == CartTotal([line], products)
  {
    LineTotal(products[line.product].price, line.quantity)
  }

  /** `ProductDetailSerializer.get_can_review`: how many more reviews the user may
      write for the product; 0 for an anonymous visitor (`user` is None). */
  function CanReview(orders: seq<Order>, reviews: seq<Review>, user: Option<UserId>, product: ProductId): (n: nat)
    ensures n > 0 <==> user.Some? && ReviewCount(reviews, user.value, product) < ReceivedItemCount(orders, user.value, product)
    ensures user.Some? ==> ReviewCount(reviews, user.value, product) + n >= ReceivedItemCount(orders, user.value, product)
    ensures user.Some? ==>
              var received := ReceivedItemCount(orders, user.value, product);
              var written := ReviewCount(reviews, user.value, product);
              n == if received > written then received - written else 0
  {
    match user
    case None => 0
    case Some(u) =>
      var remaining := ReceivedItemCount(orders, u, product) - ReviewCount(reviews, u, product);
      if remaining > 0 then remaining else 0
  }
}
