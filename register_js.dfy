/** register.js: the phone mask of the registration form, the clean phone
    sent to the server, and the cookie lookup used for the CSRF token. */
module RegisterJs {
  import opened Wrappers
  import opened Text

  // ---------------------------------------------------------------------------
  // formatPhoneNumber
  // ---------------------------------------------------------------------------

  /** The national digits kept by the mask: every digit of the input, one
      leading 7 or 8 dropped, at most ten kept. */
  function NationalDigits(raw: string): (d: string)
    ensures |d| <= 10 && IsDigits(d)
    ensures var all := DigitsOf(raw);
            (all != [] && (all[0] == '7' || all[0] == '8') ==> d == Substring(all, 1, 11))
            && (all == [] || (all[0] != '7' && all[0] != '8') ==> d == Substring(all, 0, 10))
  {
    var all := DigitsOf(raw);
    var v := if all != [] && (all[0] == '7' || all[0] == '8') then all[1..] else all;
    Substring(v, 0, 10)
  }

  /** The mask of the registration phone field, `(ddd) ddd-dd-dd`, where
      each `d` is a digit slot; built from its groups. */
  const Mask: string := ("(" + Slots3) + Rest2
  const Slots3: string := "ddd"
  const Slots2: string := "dd"
  /** The mask after its first group, and after its second. */
  const Rest2: string := (") " + Slots3) + Rest3
  const Rest3: string := ("-" + Slots2) + ("-" + Slots2)

  /** The number of digit slots in a mask. */
  function Slots(m: string): nat {
    if m == [] then 0 else (if m[0] == 'd' then 1 else 0) + Slots(m[1..])
  }

  /** Text without digit slots, and text of slots only. */
  predicate NoSlotChars(t: string) {
    forall i :: 0 <= i < |t| ==> t[i] != 'd'
  }

  predicate AllSlotChars(t: string) {
    forall i :: 0 <= i < |t| ==> t[i] == 'd'
  }

  /** The separator runs and slot runs the mask is made of. */
  lemma MaskPieces()
    ensures NoSlotChars("(") && NoSlotChars(") ") && NoSlotChars("-")
    ensures AllSlotChars(Slots3) && AllSlotChars(Slots2)
  {
  }

  /** A mask whose separators are not digits. */
  predicate SeparatorsNotDigits(m: string) {
    forall i :: 0 <= i < |m| ==> m[i] == 'd' || !IsDigit(m[i])
  }

  /** The digits written into the mask from the left; the text ends with the
      last digit, so a separator appears only once a digit follows it. */
  function Fill(d: string, m: string): string
    decreases |m|
  {
    if d == [] || m == [] then []
    else if m[0] == 'd' then [d[0]] + Fill(d[1..], m[1..])
    else [m[0]] + Fill(d, m[1..])
  }

  /** Filling a mask with enough slots keeps exactly the given digits. */
  lemma {:induction false} FillDigits(d: string, m: string)
    requires IsDigits(d) && SeparatorsNotDigits(m) && |d| <= Slots(m)
    ensures DigitsOf(Fill(d, m)) == d
    decreases |m|
  {
    if d != [] && m != [] {
      assert SeparatorsNotDigits(m[1..]) by {
        forall i | 0 <= i < |m[1..]| ensures m[1..][i] == 'd' || !IsDigit(m[1..][i]) {
          assert m[1..][i] == m[i + 1];
        }
      }
      var r := Fill(d, m);
      if m[0] == 'd' {
        FillDigits(d[1..], m[1..]);
        assert r[1..] == Fill(d[1..], m[1..]);
        assert r[0] == d[0];
        assert [d[0]] + d[1..] == d;
      } else {
        FillDigits(d, m[1..]);
        assert r[1..] == Fill(d, m[1..]);
        assert r[0] == m[0] && !IsDigit(m[0]);
      }
    }
  }

  /** The filled text follows the mask position by position: digits in the
      slots, the mask's own characters elsewhere, and it ends in a slot. */
  lemma {:induction false} FillShape(d: string, m: string)
    requires IsDigits(d) && |d| <= Slots(m)
    ensures var r := Fill(d, m);
            |r| <= |m|
            && (forall i :: 0 <= i < |r| ==> (if m[i] == 'd' then IsDigit(r[i]) else r[i] == m[i]))
            && (r != [] ==> m[|r| - 1] == 'd')
            && (r == [] <==> d == [])
    decreases |m|
  {
    if d != [] && m != [] {
      var r := Fill(d, m);
      if m[0] == 'd' {
        FillShape(d[1..], m[1..]);
        var t := Fill(d[1..], m[1..]);
        assert r == [d[0]] + t;
        assert forall i :: 1 <= i < |r| ==> r[i] == t[i - 1] && m[i] == m[1..][i - 1];
      } else {
        FillShape(d, m[1..]);
        var t := Fill(d, m[1..]);
        assert r == [m[0]] + t;
        assert forall i :: 1 <= i < |r| ==> r[i] == t[i - 1] && m[i] == m[1..][i - 1];
      }
    }
  }

  /** Digits that exactly fill a mask ending in a slot leave the rest of the
      digits for the rest of the mask. */
  lemma {:induction false} FillAppend(a: string, b: string, g: string, m: string)
    requires |a| == Slots(g) && (g == [] || g[|g| - 1] == 'd')
    ensures Fill(a + b, g + m) == Fill(a, g) + Fill(b, m)
    decreases |g|
  {
    if g == [] {
      assert a == [];
      assert a + b == b && g + m == m;
    } else {
      assert (g + m)[0] == g[0] && (g + m)[1..] == g[1..] + m;
      if g[0] == 'd' {
        assert a != [];
        assert (a + b)[0] == a[0] && (a + b)[1..] == a[1..] + b;
        FillAppend(a[1..], b, g[1..], m);
      } else {
        if a == [] {
          assert Slots(g) == 0;
          SlotsOfLast(g);
        }
        FillAppend(a, b, g[1..], m);
      }
    }
  }

  lemma {:induction false} SlotsOfLast(g: string)
    requires g != [] && g[|g| - 1] == 'd'
    ensures Slots(g) >= 1
    decreases |g|
  {
    if g[0] != 'd' {
      SlotsOfLast(g[1..]);
    }
  }

  /** Digits that do not reach past a mask's slots never reach its continuation. */
  lemma {:induction false} FillWithin(a: string, g: string, m: string)
    requires |a| <= Slots(g)
    ensures Fill(a, g + m) == Fill(a, g)
    decreases |g|
  {
    if a != [] && g != [] {
      assert (g + m)[0] == g[0] && (g + m)[1..] == g[1..] + m;
      if g[0] == 'd' {
        FillWithin(a[1..], g[1..], m);
      } else {
        FillWithin(a, g[1..], m);
      }
    }
  }

  /** One mask group: its separators, then its slots. */
  lemma {:induction false} FillGroup(x: string, sep: string, slots: string)
    requires x != [] && |x| <= |slots|
    requires NoSlotChars(sep)
    requires AllSlotChars(slots)
    ensures Fill(x, sep + slots) == sep + x
    decreases |sep| + |slots|
  {
    if sep != [] {
      assert (sep + slots)[0] == sep[0] && (sep + slots)[1..] == sep[1..] + slots;
      FillGroup(x, sep[1..], slots);
      assert sep == [sep[0]] + sep[1..];
    } else {
      assert sep + slots == slots;
      if |x| > 1 {
        FillGroup(x[1..], sep, slots[1..]);
        assert sep + slots[1..] == slots[1..];
      } else {
        assert x[1..] == [];
      }
      assert x == [x[0]] + x[1..];
    }
  }

  const Group1: string := "(" + Slots3
  const Group2: string := ") " + Slots3
  const Group3: string := "-" + Slots2

  lemma {:induction false} SlotsAllSlots(t: string)
    requires AllSlotChars(t)
    ensures Slots(t) == |t|
    decreases |t|
  {
    if t != [] {
      SlotsAllSlots(t[1..]);
    }
  }

  lemma {:induction false} SlotsNoSlots(t: string)
    requires NoSlotChars(t)
    ensures Slots(t) == 0
    decreases |t|
  {
    if t != [] {
      SlotsNoSlots(t[1..]);
    }
  }

  /** The mask is its four groups; each ends in a slot. */
  lemma GroupFacts()
    ensures Mask == Group1 + (Group2 + (Group3 + Group3))
    ensures Slots(Group1) == 3 && Slots(Group2) == 3 && Slots(Group3) == 2
    ensures Group1[|Group1| - 1] == 'd' && Group2[|Group2| - 1] == 'd' && Group3[|Group3| - 1] == 'd'
  {
    MaskPieces();
    SlotsConcat("(", Slots3);
    SlotsNoSlots("(");
    SlotsAllSlots(Slots3);
    SlotsConcat(") ", Slots3);
    SlotsNoSlots(") ");
    SlotsConcat("-", Slots2);
    SlotsNoSlots("-");
    SlotsAllSlots(Slots2);
  }

  /** A separator run before slots, all of them filled, then the rest. */
  lemma FillLead(v: string, sep: string, slots: string, rest: string)
    requires |v| > |slots| > 0
    requires NoSlotChars(sep)
    requires AllSlotChars(slots)
    ensures Fill(v, (sep + slots) + rest) == sep + v[..|slots|] + Fill(v[|slots|..], rest)
  {
    var g := sep + slots;
    assert g[|g| - 1] == slots[|slots| - 1];
    SlotsConcat(sep, slots);
    SlotsNoSlots(sep);
    SlotsAllSlots(slots);
    assert v == v[..|slots|] + v[|slots|..];
    FillAppend(v[..|slots|], v[|slots|..], g, rest);
    FillGroup(v[..|slots|], sep, slots);
  }

  /** A separator run before slots that the digits do not exceed. */
  lemma FillLast(v: string, sep: string, slots: string, rest: string)
    requires 0 < |v| <= |slots|
    requires NoSlotChars(sep)
    requires AllSlotChars(slots)
    ensures Fill(v, (sep + slots) + rest) == sep + v
  {
    SlotsConcat(sep, slots);
    SlotsNoSlots(sep);
    SlotsAllSlots(slots);
    FillWithin(v, sep + slots, rest);
    FillGroup(v, sep, slots);
  }

  lemma ConcatAssoc(a: string, b: string, c: string)
    ensures (a + b) + c == a + (b + c)
  {
  }

  /** Up to three digits: the opening parenthesis and the digits. */
  lemma MaskFirstGroup(v: string)
    requires 0 < |v| <= 3
    ensures Fill(v, Mask) == "(" + v
  {
    MaskPieces();
    FillLast(v, "(", Slots3, Rest2);
  }

  /** More than three digits: the first group, then the rest of the mask. */
  lemma MaskAfterFirstGroup(v: string)
    requires 3 < |v|
    ensures Fill(v, Mask) == "(" + (v[..3] + Fill(v[3..], Rest2))
  {
    MaskPieces();
    FillLead(v, "(", Slots3, Rest2);
    ConcatAssoc("(", v[..3], Fill(v[3..], Rest2));
  }

  lemma MaskSecondGroup(w: string)
    requires 0 < |w| <= 3
    ensures Fill(w, Rest2) == ") " + w
  {
    MaskPieces();
    FillLast(w, ") ", Slots3, Rest3);
  }

  lemma MaskAfterSecondGroup(w: string)
    requires 3 < |w|
    ensures Fill(w, Rest2) == ") " + (w[..3] + Fill(w[3..], Rest3))
  {
    MaskPieces();
    FillLead(w, ") ", Slots3, Rest3);
    ConcatAssoc(") ", w[..3], Fill(w[3..], Rest3));
  }

  lemma MaskThirdGroup(w: string)
    requires 0 < |w| <= 2
    ensures Fill(w, Rest3) == "-" + w
  {
    MaskPieces();
    FillLast(w, "-", Slots2, "-" + Slots2);
  }

  lemma MaskLastGroups(w: string)
    requires 2 < |w| <= 4
    ensures Fill(w, Rest3) == "-" + (w[..2] + ("-" + w[2..]))
  {
    MaskPieces();
    FillLead(w, "-", Slots2, "-" + Slots2);
    FillLast(w[2..], "-", Slots2, []);
    assert ("-" + Slots2) + [] == "-" + Slots2;
    ConcatAssoc("-", w[..2], Fill(w[2..], "-" + Slots2));
  }

  /** `formatPhoneNumber`'s group-by-group text, in slices of the digits. */
  function GroupedText(value: string): string {
    (if |value| > 0 then "(" + Substring(value, 0, 3) else "")
    + (if |value| > 3 then ") " + Substring(value, 3, 6) else "")
    + (if |value| > 6 then "-" + Substring(value, 6, 8) else "")
    + (if |value| > 8 then "-" + Substring(value, 8, 10) else "")
  }

  /** The group texts appended one by one, empty where the digits end. */
  lemma GroupedSteps(v: string)
    ensures var a := if |v| > 0 then "(" + Substring(v, 0, 3) else "";
            var b := if |v| > 3 then a + (") " + Substring(v, 3, 6)) else a;
            var c := if |v| > 6 then b + ("-" + Substring(v, 6, 8)) else b;
            var d := if |v| > 8 then c + ("-" + Substring(v, 8, 10)) else c;
            d == GroupedText(v)
  {
  }

  lemma GroupedOne(v: string)
    requires 0 < |v| <= 3
    ensures GroupedText(v) == "(" + v
  {
    assert Substring(v, 0, 3) == v;
    assert GroupedText(v) == ("(" + v) + "" + "" + "";
  }

  lemma GroupedTwo(v: string)
    requires 3 < |v| <= 6
    ensures GroupedText(v) == "(" + (v[..3] + (") " + v[3..]))
  {
    assert Substring(v, 0, 3) == v[..3] && Substring(v, 3, 6) == v[3..];
  }

  lemma GroupedThree(v: string)
    requires 6 < |v| <= 8
    ensures GroupedText(v) == "(" + (v[..3] + (") " + (v[3..6] + ("-" + v[6..]))))
  {
    assert Substring(v, 0, 3) == v[..3] && Substring(v, 3, 6) == v[3..6] && Substring(v, 6, 8) == v[6..];
    var a, b, c := "(" + v[..3], ") " + v[3..6], "-" + v[6..];
    assert GroupedText(v) == a + b + c;
  }

  lemma GroupedFour(v: string)
    requires 8 < |v| <= 10
    ensures GroupedText(v) == "(" + (v[..3] + (") " + (v[3..6] + ("-" + (v[6..8] + ("-" + v[8..]))))))
  {
    assert Substring(v, 0, 3) == v[..3] && Substring(v, 3, 6) == v[3..6];
    assert Substring(v, 6, 8) == v[6..8] && Substring(v, 8, 10) == v[8..];
    var a, b, c, d := "(" + v[..3], ") " + v[3..6], "-" + v[6..8], "-" + v[8..];
    assert GroupedText(v) == a + b + c + d;
  }

  lemma MaskTwoGroups(v: string)
    requires 3 < |v| <= 6
    ensures Fill(v, Mask) == GroupedText(v)
  {
    MaskAfterFirstGroup(v);
    MaskSecondGroup(v[3..]);
    GroupedTwo(v);
  }

  lemma MaskThreeGroups(v: string)
    requires 6 < |v| <= 8
    ensures Fill(v, Mask) == GroupedText(v)
  {
    var w1 := v[3..];
    MaskAfterFirstGroup(v);
    MaskAfterSecondGroup(w1);
    assert w1[..3] == v[3..6] && w1[3..] == v[6..];
    MaskThirdGroup(v[6..]);
    GroupedThree(v);
  }

  /** Gluing the four group equations; the filled texts are plain strings here. */
  lemma FourGroupsJoin(v: string, x: string, y: string, z: string)
    requires 8 < |v| <= 10
    requires x == "(" + (v[..3] + y)
    requires y == ") " + (v[3..6] + z)
    requires z == "-" + (v[6..8] + ("-" + v[8..]))
    ensures x == GroupedText(v)
  {
    GroupedFour(v);
  }

  lemma MaskFourGroups(v: string)
    requires 8 < |v| <= 10
    ensures Fill(v, Mask) == GroupedText(v)
  {
    var w1 := v[3..];
    var w2 := v[6..];
    assert w1[..3] == v[3..6] && w1[3..] == w2;
    assert w2[..2] == v[6..8] && w2[2..] == v[8..];
    MaskAfterFirstGroup(v);
    MaskAfterSecondGroup(w1);
    MaskLastGroups(w2);
    FourGroupsJoin(v, Fill(v, Mask), Fill(w1, Rest2), Fill(w2, Rest3));
  }

  /** The phone mask filled group by group, as `formatPhoneNumber` builds it. */
  lemma MaskByGroups(v: string)
    requires |v| <= 10
    ensures Fill(v, Mask) == GroupedText(v)
  {
    if 0 < |v| <= 3 {
      MaskFirstGroup(v);
      GroupedOne(v);
    } else if 3 < |v| <= 6 {
      MaskTwoGroups(v);
    } else if 6 < |v| <= 8 {
      MaskThreeGroups(v);
    } else if 8 < |v| {
      MaskFourGroups(v);
    }
  }

  /** The mask has ten slots and no digit among its separators. */
  lemma MaskFacts()
    ensures Slots(Mask) == 10 && SeparatorsNotDigits(Mask)
  {
    GroupFacts();
    assert SeparatorsNotDigits(Group1) && SeparatorsNotDigits(Group2) && SeparatorsNotDigits(Group3);
    SeparatorsConcat(Group3, Group3);
    SeparatorsConcat(Group2, Group3 + Group3);
    SeparatorsConcat(Group1, Group2 + (Group3 + Group3));
    SlotsConcat(Group1, Group2 + (Group3 + Group3));
    SlotsConcat(Group2, Group3 + Group3);
    SlotsConcat(Group3, Group3);
  }

  lemma SeparatorsConcat(a: string, b: string)
    requires SeparatorsNotDigits(a) && SeparatorsNotDigits(b)
    ensures SeparatorsNotDigits(a + b)
  {
    forall i | 0 <= i < |a + b|
      ensures (a + b)[i] == 'd' || !IsDigit((a + b)[i])
    {
      if i < |a| { assert (a + b)[i] == a[i]; } else { assert (a + b)[i] == b[i - |a|]; }
    }
  }

  lemma {:induction false} SlotsConcat(a: string, b: string)
    ensures Slots(a + b) == Slots(a) + Slots(b)
    decreases |a|
  {
    if a == [] {
      assert a + b == b;
    } else {
      assert (a + b)[1..] == a[1..] + b;
      SlotsConcat(a[1..], b);
    }
  }

  /** The masked national digits carry exactly those digits and follow the mask. */
  lemma MaskShape(raw: string)
    ensures DigitsOf(Fill(NationalDigits(raw), Mask)) == NationalDigits(raw)
    ensures Fill(NationalDigits(raw), Mask) == [] <==> DigitsOf(raw) == [] || DigitsOf(raw) == "7" || DigitsOf(raw) == "8"
    ensures var r := Fill(NationalDigits(raw), Mask);
            |r| <= |Mask|
            && (forall i :: 0 <= i < |r| ==> (if Mask[i] == 'd' then IsDigit(r[i]) else r[i] == Mask[i]))
            && (r != [] ==> Mask[|r| - 1] == 'd')
  {
    MaskFacts();
    FillDigits(NationalDigits(raw), Mask);
    FillShape(NationalDigits(raw), Mask);
    NationalDigitsEmpty(raw);
  }

  /** No national digit is left exactly for no digits or a lone 7 or 8. */
  lemma NationalDigitsEmpty(raw: string)
    ensures NationalDigits(raw) == [] <==> DigitsOf(raw) == [] || DigitsOf(raw) == "7" || DigitsOf(raw) == "8"
  {
    var all := DigitsOf(raw);
    if all != [] && (all[0] == '7' || all[0] == '8') && |all| == 1 {
      assert all == [all[0]];
    }
  }

  /** `formatPhoneNumber`'s computation of the new field text, step by step. */
  method FormatPhoneValue(raw: string) returns (formatted: string)
    ensures formatted == Fill(NationalDigits(raw), Mask)
  {
    var value := DigitsOf(raw);
    if |value| > 0 && (value[0] == '7' || value[0] == '8') {
      value := value[1..];
    }
    value := Substring(value, 0, 10);
    assert value == NationalDigits(raw);
    formatted := "";
    if |value| > 0 {
      formatted := "(" + Substring(value, 0, 3);
    }
    if |value| > 3 {
      formatted := formatted + (") " + Substring(value, 3, 6));
    }
    if |value| > 6 {
      formatted := formatted + ("-" + Substring(value, 6, 8));
    }
    if |value| > 8 {
      formatted := formatted + ("-" + Substring(value, 8, 10));
    }
    assert formatted == GroupedText(value) by {
      GroupedSteps(value);
    }
    MaskByGroups(value);
  }

  /** `getCleanPhoneNumber`: `+7` and every digit of the text. */
  function CleanPhoneNumber(formatted: string): (r: string)
    ensures |r| >= 2 && r[..2] == "+7"
    ensures IsDigits(r[2..]) && r[2..] == DigitsOf(formatted)
  {
    var r := "+7" + DigitsOf(formatted);
    assert r[2..] == DigitsOf(formatted);
    r
  }

  /** What the form submits for a masked field: `+7` and the national digits. */
  lemma CleanAfterFormat(raw: string)
    ensures CleanPhoneNumber(Fill(NationalDigits(raw), Mask)) == "+7" + NationalDigits(raw)
    ensures |CleanPhoneNumber(Fill(NationalDigits(raw), Mask))| <= 12
  {
    MaskShape(raw);
  }

  /** The phone input of the registration page. */
  class PhoneInput {
    var value: string

    constructor ()
      ensures value == ""
    {
      value := "";
    }

    /** The `input` handler: the field text is replaced by its mask. */
    method OnInput()
      modifies this
      ensures value == Fill(NationalDigits(old(value)), Mask)
    {
      value := FormatPhoneValue(value);
    }

    /** The `paste` handler: the pasted text replaces the field, then is masked. */
    method OnPaste(pasted: string)
      modifies this
      ensures value == Fill(NationalDigits(pasted), Mask)
    {
      value := pasted;
      OnInput();
    }
  }

  /** The `keydown` filter: editing and navigation keys and the Ctrl+A/C/V/X
      shortcuts pass, and of the rest only the digit keys of the main row and
      of the keypad. */
  function KeyAllowed(keyCode: int, ctrl: bool): (ok: bool)
    ensures ok <==> keyCode in {8, 9, 13, 27, 46} || 35 <= keyCode <= 39 || 48 <= keyCode <= 57 || 96 <= keyCode <= 105
                    || (ctrl && keyCode in {65, 67, 86, 88})
    ensures (65 <= keyCode <= 90 && !ctrl) ==> !ok
  {
    if keyCode in {8, 46, 9, 27, 13} || (keyCode == 65 && ctrl) || (keyCode == 67 && ctrl)
       || (keyCode == 86 && ctrl) || (keyCode == 88 && ctrl) || (35 <= keyCode <= 39) then true
    else !((keyCode < 48 || keyCode > 57) && (keyCode < 96 || keyCode > 105))
  }

  // ---------------------------------------------------------------------------
  // The mask is not stable under re-masking
  // ---------------------------------------------------------------------------

  /** A full number with the trunk prefix 8 and a national part that
      starts with 8, as typed or pasted. */
  const TollFreeTyped := "88005553535"

  /** Whenever the national digits themselves start with 7 or 8, the next
      input event strips that digit from the masked text as if it were a
      prefix, so the field changes although nothing was typed. */
  lemma RemaskDropsDigit(raw: string)
    requires var d := NationalDigits(raw); d != [] && (d[0] == '7' || d[0] == '8')
    ensures var once := Fill(NationalDigits(raw), Mask);
            once != [] && NationalDigits(once) == NationalDigits(raw)[1..]
            && Fill(NationalDigits(once), Mask) != once
  {
    var d := NationalDigits(raw);
    MaskFacts();
    FillDigits(d, Mask);
    FillShape(d, Mask);
    var once := Fill(d, Mask);
    assert DigitsOf(once) == d;
    assert NationalDigits(once) == d[1..];
    FillDigits(d[1..], Mask);
    assert DigitsOf(Fill(d[1..], Mask)) != DigitsOf(once);
  }

  /** Masking a number whose digits are the typed toll-free number gives the
      masked toll-free number; the next input event masks that text again
      and loses the national 8. */
  lemma MaskNotIdempotent(raw: string)
    requires DigitsOf(raw) == TollFreeTyped
    ensures var once := Fill(NationalDigits(raw), Mask);
            once != [] && Fill(NationalDigits(once), Mask) != once
  {
    assert NationalDigits(raw) == TollFreeTyped[1..];
    RemaskDropsDigit(raw);
  }

  /** The national digits with the leading 7 or 8 taken as the trunk or
      country prefix only when it comes on top of ten national digits. */
  function NationalDigitsFixed(raw: string): (d: string)
    ensures |d| <= 10 && IsDigits(d)
    ensures |DigitsOf(raw)| <= 10 ==> d == DigitsOf(raw)
  {
    var all := DigitsOf(raw);
    var v := if |all| > 10 && (all[0] == '7' || all[0] == '8') then all[1..] else all;
    Substring(v, 0, 10)
  }

  /** With the fix, masking is idempotent: the handler may run on every
      input event without changing a masked number. */
  lemma FixedMaskIdempotent(raw: string)
    ensures var once := Fill(NationalDigitsFixed(raw), Mask);
            Fill(NationalDigitsFixed(once), Mask) == once
  {
    var d := NationalDigitsFixed(raw);
    MaskFacts();
    FillDigits(d, Mask);
  }

  /** The fix changes nothing for an eleven-digit number with its 7 or 8
      prefix, nor for digits that do not start with 7 or 8. */
  lemma FixedAgreesOnFullNumbers(raw: string)
    requires var all := DigitsOf(raw);
             |all| == 11 || (all != [] && all[0] != '7' && all[0] != '8')
    ensures NationalDigitsFixed(raw) == NationalDigits(raw)
  {
  }

  // ---------------------------------------------------------------------------
  // getCookie
  // ---------------------------------------------------------------------------

  datatype CookieLookup = NoCookie | Found(value: string) | DecodeFailure

  /** A raw value decoded by `decodeURIComponent`, which throws on a
      malformed escape. */
  function Decoded(r: Option<string>): CookieLookup {
    if r.Some? then Found(r.value) else DecodeFailure
  }

  /** A `;`-separated piece that, trimmed, starts with `name=`. */
  predicate PieceMatches(piece: string, name: string)
  {
    StartsWith(Strip(piece), name + "=")
  }

  /** The `i`-th piece of the cookie string matches. */
  predicate Matches(cookie: string, name: string, i: int)
    requires 0 <= i < |Split(cookie, ';')|
  {
    PieceMatches(Split(cookie, ';')[i], name)
  }

  /** Every piece trimmed. */
  function StripAll(pieces: seq<string>): (r: seq<string>)
    ensures |r| == |pieces| && forall i :: 0 <= i < |r| ==> r[i] == Strip(pieces[i])
  {
    seq(|pieces|, i requires 0 <= i < |pieces| => Strip(pieces[i]))
  }

  /** The first of the trimmed pieces at or after `k` that starts with `prefix`. */
  function FirstMatch(trimmed: seq<string>, prefix: string, k: nat): (r: Option<nat>)
    requires k <= |trimmed|
    ensures r.Some? ==> k <= r.value < |trimmed| && StartsWith(trimmed[r.value], prefix)
    decreases |trimmed| - k
  {
    if k == |trimmed| then None
    else if StartsWith(trimmed[k], prefix) then Some(k)
    else FirstMatch(trimmed, prefix, k + 1)
  }

  /** The piece found starts with the prefix and none before it does; when
      none is found, no piece from `k` on does. */
  lemma {:induction false} FirstMatchSpec(trimmed: seq<string>, prefix: string, k: nat)
    requires k <= |trimmed|
    ensures var r := FirstMatch(trimmed, prefix, k);
            (r.Some? ==> forall j :: k <= j < r.value ==> !StartsWith(trimmed[j], prefix))
            && (r.None? ==> forall j :: k <= j < |trimmed| ==> !StartsWith(trimmed[j], prefix))
    decreases |trimmed| - k
  {
    if k < |trimmed| && !StartsWith(trimmed[k], prefix) {
      FirstMatchSpec(trimmed, prefix, k + 1);
    }
  }

  /** What `getCookie` answers: the decoded value after `name=` of the first
      matching piece; none when no piece matches (or the cookie string is
      empty); a failure when the value does not decode. */
  function CookieValue(cookie: string, name: string, decode: string -> Option<string>): CookieLookup
  {
    if cookie == "" then NoCookie
    else
      var trimmed := StripAll(Split(cookie, ';'));
      match FirstMatch(trimmed, name + "=", 0)
      case None => NoCookie
      case Some(i) => Decoded(decode(trimmed[i][|name| + 1..]))
  }

  /** The lookup finds nothing exactly when no piece matches; otherwise it
      decodes the value of the first piece that does. */
  lemma CookieValueSpec(cookie: string, name: string, decode: string -> Option<string>)
    ensures CookieValue(cookie, name, decode).NoCookie?
            <==> forall i :: 0 <= i < |Split(cookie, ';')| ==> !Matches(cookie, name, i)
    ensures !CookieValue(cookie, name, decode).NoCookie? ==>
      exists i :: 0 <= i < |Split(cookie, ';')| && Matches(cookie, name, i)
        && (forall j :: 0 <= j < i ==> !Matches(cookie, name, j))
        && CookieValue(cookie, name, decode) == Decoded(decode(Strip(Split(cookie, ';')[i])[|name| + 1..]))
  {
    var pieces := Split(cookie, ';');
    if cookie == "" {
      assert pieces == [""];
      assert !PieceMatches("", name);
    } else {
      var trimmed := StripAll(pieces);
      var m := FirstMatch(trimmed, name + "=", 0);
      FirstMatchSpec(trimmed, name + "=", 0);
      if m.Some? {
        var i := m.value;
        assert Matches(cookie, name, i) by {
          assert trimmed[i] == Strip(pieces[i]);
        }
        forall j | 0 <= j < i
          ensures !Matches(cookie, name, j)
        {
          assert trimmed[j] == Strip(pieces[j]);
        }
        assert CookieValue(cookie, name, decode) == Decoded(decode(trimmed[i][|name| + 1..]));
      } else {
        forall j | 0 <= j < |pieces|
          ensures !Matches(cookie, name, j)
        {
          assert trimmed[j] == Strip(pieces[j]);
        }
      }
    }
  }

  /** `getCookie`: the loop over the pieces that stops at the first match. */
  method GetCookie(cookie: string, name: string, decode: string -> Option<string>) returns (r: CookieLookup)
    ensures r == CookieValue(cookie, name, decode)
  {
    r := NoCookie;
    if cookie == "" {
      return;
    }
    var cookies := Split(cookie, ';');
    ghost var trimmed := StripAll(cookies);
    var k := 0;
    while k < |cookies|
      invariant 0 <= k <= |cookies|
      invariant FirstMatch(trimmed, name + "=", 0) == FirstMatch(trimmed, name + "=", k)
    {
      var c := Strip(cookies[k]);
      assert c == trimmed[k];
      if StartsWith(c, name + "=") {
        r := Decoded(decode(c[|name| + 1..]));
        return;
      }
      k := k + 1;
    }
  }

  /** A cookie pair of the RFC 6265 `cookie-string` grammar (section 4.2.1),
      restricted to what the lookup depends on: a non-empty name that does not
      start with a space and holds no `=` or `;`, and a value without `;`
      that does not end in a space. */
  predicate CookiePair(p: (string, string)) {
    p.0 != "" && !IsSpace(p.0[0]) && '=' !in p.0 && ';' !in p.0
    && ';' !in p.1 && (p.1 == "" || !IsSpace(p.1[|p.1| - 1]))
  }

  /** `name=value`. */
  function PairText(p: (string, string)): string {
    p.0 + "=" + p.1
  }

  /** The pieces of `name=value; name=value; ...`, as the split sees them. */
  function CookiePieces(pairs: seq<(string, string)>): (pieces: seq<string>)
    ensures |pieces| == |pairs|
  {
    seq(|pairs|, i requires 0 <= i < |pairs| => (if i == 0 then "" else " ") + PairText(pairs[i]))
  }

  /** A browser's `document.cookie` for the given pairs. */
  function CookieString(pairs: seq<(string, string)>): string
    requires |pairs| >= 1
  {
    Join(CookiePieces(pairs), ';')
  }

  /** No piece holds the separator. */
  lemma PiecesWithoutSeparator(pairs: seq<(string, string)>)
    requires forall k :: 0 <= k < |pairs| ==> CookiePair(pairs[k])
    ensures forall k :: 0 <= k < |pairs| ==> ';' !in CookiePieces(pairs)[k]
  {
    forall k | 0 <= k < |pairs|
      ensures ';' !in CookiePieces(pairs)[k]
    {
      var pad := if k == 0 then "" else " ";
      var t := PairText(pairs[k]);
      assert CookiePieces(pairs)[k] == pad + t;
      assert ';' !in t;
    }
  }

  /** Trimming a piece leaves `name=value`. */
  lemma PieceTrimmed(pairs: seq<(string, string)>, i: int)
    requires 0 <= i < |pairs| && CookiePair(pairs[i])
    ensures Strip(CookiePieces(pairs)[i]) == PairText(pairs[i])
  {
    var core := PairText(pairs[i]);
    PairTextEnds(pairs[i]);
    StripPadded(core);
    assert CookiePieces(pairs)[i] == (if i == 0 then "" else " ") + core;
    if i == 0 {
      assert "" + core == core;
    }
  }

  lemma PairTextEnds(p: (string, string))
    requires CookiePair(p)
    ensures var t := PairText(p); t != [] && !IsSpace(t[0]) && !IsSpace(t[|t| - 1])
  {
    var t := PairText(p);
    assert t[0] == p.0[0];
    if p.1 == "" {
      assert t[|t| - 1] == '=';
    } else {
      assert t[|t| - 1] == p.1[|p.1| - 1];
    }
  }

  /** The position of the first `=`, or the length when there is none. */
  function EqualsAt(s: string): (k: nat)
    ensures k <= |s|
  {
    if s == [] || s[0] == '=' then 0 else 1 + EqualsAt(s[1..])
  }

  lemma {:induction false} EqualsAfterName(n: string, rest: string)
    requires '=' !in n
    ensures EqualsAt(n + "=" + rest) == |n|
  {
    var s := n + "=" + rest;
    if n == [] {
      assert s[0] == '=';
    } else {
      assert s[0] == n[0];
      assert s[1..] == n[1..] + "=" + rest;
      assert '=' !in n[1..];
      EqualsAfterName(n[1..], rest);
    }
  }

  /** `name=value` starts with `key=` exactly when the name is the key, for
      names and keys without `=`. */
  lemma PairPrefix(n: string, v: string, key: string)
    requires '=' !in n && '=' !in key
    ensures StartsWith(n + "=" + v, key + "=") <==> n == key
    ensures n == key ==> (n + "=" + v)[|key| + 1..] == v
  {
    var core, k := n + "=" + v, key + "=";
    EqualsAfterName(n, v);
    if n == key {
      assert core[..|k|] == k;
      assert core[|key| + 1..] == v;
    }
    if StartsWith(core, k) {
      var rest := core[|k|..];
      assert core == key + "=" + rest;
      EqualsAfterName(key, rest);
      assert n == core[..|n|];
      assert key == core[..|key|];
    }
  }

  /** For a cookie string of well-formed pairs, a piece matches exactly when
      its pair has the looked-up name, and the text after `name=` is the
      pair's value: the lookup finds the first pair with the name. */
  lemma CookieStringLookup(pairs: seq<(string, string)>, name: string, i: int)
    requires |pairs| >= 1 && forall k :: 0 <= k < |pairs| ==> CookiePair(pairs[k])
    requires '=' !in name
    requires 0 <= i < |pairs|
    ensures Split(CookieString(pairs), ';') == CookiePieces(pairs)
    ensures Matches(CookieString(pairs), name, i) <==> pairs[i].0 == name
    ensures pairs[i].0 == name ==> Strip(CookiePieces(pairs)[i])[|name| + 1..] == pairs[i].1
  {
    PiecesWithoutSeparator(pairs);
    SplitJoin(CookiePieces(pairs), ';');
    PieceTrimmed(pairs, i);
    PairPrefix(pairs[i].0, pairs[i].1, name);
  }
}
