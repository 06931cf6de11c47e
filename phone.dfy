/** The phone-number screen of the mobile app: the live formatter, the validator and the submit gate. */
module PhoneForm {
  import opened Basics

  /** What `\D` does not match: an ASCII digit. */
  predicate IsDigit(c: char)
  {
    '0' <= c <= '9'
  }

  predicate AllDigits(s: string)
  {
    forall i :: 0 <= i < |s| ==> IsDigit(s[i])
  }

  /** `value.replace(/\D/g, '')`: the digits of `s`, in order. */
  function Digits(s: string): (r: string)
    ensures AllDigits(r) && |r| <= |s|
    ensures AllDigits(s) ==> r == s
  {
    if s == [] then []
    else (if IsDigit(s[0]) then [s[0]] else []) + Digits(s[1..])
  }

  lemma {:induction false} DigitsAppend(a: string, b: string)
    ensures Digits(a + b) == Digits(a) + Digits(b)
  {
    if a == [] {
      assert a + b == b;
    } else {
      assert (a + b)[0] == a[0];
      assert (a + b)[1..] == a[1..] + b;
      DigitsAppend(a[1..], b);
    }
  }

  /** The layout `formatPhone` gives to a digit string. */
  function Layout(n: string): string
  {
    if |n| <= 2 then n
    else if |n| <= 7 then "(" + n[..2] + ") " + n[2..]
    else if |n| <= 11 then "(" + n[..2] + ") " + n[2..7] + "-" + n[7..]
    else "(" + n[..2] + ") " + n[2..7] + "-" + n[7..11]
  }

  /** `formatPhone`. */
  function FormatPhone(value: string): string
  {
    Layout(Digits(value))
  }

  /** `isValidPhone`: a DDD and an 8- or 9-digit number. */
  predicate IsValidPhone(phone: string)
  {
    |Digits(phone)| == 10 || |Digits(phone)| == 11
  }

  /** The shape of the formatted text for each digit count, in terms of the digits `d` of the input. */
  lemma FormatPhoneCases(x: string)
    ensures var d := Digits(x);
      (|d| <= 2 ==> FormatPhone(x) == d) &&
      (3 <= |d| <= 7 ==> FormatPhone(x) == "(" + d[..2] + ") " + d[2..]) &&
      (8 <= |d| <= 11 ==> FormatPhone(x) == "(" + d[..2] + ") " + d[2..7] + "-" + d[7..])
  {
  }

  /** The layout's separators hold no digit. */
  lemma SeparatorsHaveNoDigits()
    ensures Digits("(") == [] && Digits(") ") == [] && Digits("-") == []
  {
    assert "(" == ['(' ];
    assert Digits(") "[1..]) == [];
  }

  /** Digits of the three-part layout, with "(" and ") " contributing none. */
  lemma {:induction false} DigitsOfArea(a: string, b: string)
    requires AllDigits(a) && AllDigits(b)
    ensures Digits("(" + a + ") " + b) == a + b
  {
    SeparatorsHaveNoDigits();
    DigitsAppend("(", a);
    DigitsAppend("(" + a, ") ");
    DigitsAppend("(" + a + ") ", b);
  }

  /** Digits of the four-part layout, with "-" contributing none. */
  lemma {:induction false} DigitsOfFull(a: string, b: string, c: string)
    requires AllDigits(a) && AllDigits(b) && AllDigits(c)
    ensures Digits("(" + a + ") " + b + "-" + c) == a + b + c
  {
    SeparatorsHaveNoDigits();
    DigitsOfArea(a, b);
    DigitsAppend("(" + a + ") " + b, "-");
    DigitsAppend("(" + a + ") " + b + "-", c);
  }

  lemma LayoutAreaDigits(d: string)
    requires AllDigits(d) && 3 <= |d| <= 7
    ensures Digits(Layout(d)) == d
  {
    assert Layout(d) == "(" + d[..2] + ") " + d[2..];
    DigitsOfArea(d[..2], d[2..]);
    assert d[..2] + d[2..] == d;
  }

  lemma LayoutFullDigits(d: string)
    requires AllDigits(d) && 8 <= |d| <= 11
    ensures Digits(Layout(d)) == d
  {
    assert Layout(d) == "(" + d[..2] + ") " + d[2..7] + "-" + d[7..];
    DigitsOfFull(d[..2], d[2..7], d[7..]);
    assert d[..2] + d[2..7] + d[7..] == d;
  }

  lemma LayoutLongDigits(d: string)
    requires AllDigits(d) && |d| > 11
    ensures Digits(Layout(d)) == d[..11]
  {
    assert Layout(d) == "(" + d[..2] + ") " + d[2..7] + "-" + d[7..11];
    DigitsOfFull(d[..2], d[2..7], d[7..11]);
    assert d[..2] + d[2..7] + d[7..11] == d[..11];
  }

  /** The formatter keeps exactly the first min(n, 11) digits of its input, in order, and adds no digit. */
  lemma FormatPhoneDigits(x: string)
    ensures Digits(FormatPhone(x)) == Digits(x)[..Min(|Digits(x)|, 11)]
  {
    var d := Digits(x);
    if |d| <= 2 {
      assert d[..|d|] == d;
    } else if |d| <= 7 {
      LayoutAreaDigits(d);
      assert d[..|d|] == d;
    } else if |d| <= 11 {
      LayoutFullDigits(d);
      assert d[..|d|] == d;
    } else {
      LayoutLongDigits(d);
    }
  }

  /** Past 11 digits the extra ones are dropped: the text is that of the first 11 digits. */
  lemma FormatPhoneTruncates(x: string)
    requires |Digits(x)| > 11
    ensures FormatPhone(x) == FormatPhone(Digits(x)[..11])
  {
    var d := Digits(x);
    var e := d[..11];
    assert AllDigits(e);
    assert Digits(e) == e;
    assert e[..2] == d[..2] && e[2..7] == d[2..7] && e[7..] == d[7..11];
  }

  /** Formatting a formatted number changes nothing, so the field is stable while the user types. */
  lemma FormatPhoneIdempotent(x: string)
    ensures FormatPhone(FormatPhone(x)) == FormatPhone(x)
  {
    var d := Digits(x);
    FormatPhoneDigits(x);
    if |d| <= 11 {
      assert d[..|d|] == d;
    } else {
      FormatPhoneTruncates(x);
      assert AllDigits(d[..11]);
    }
  }

  /** The field always holds formatted text, which passes the validator exactly when at least 10 digits were typed. */
  lemma FormattedValidity(x: string)
    ensures IsValidPhone(FormatPhone(x)) <==> |Digits(x)| >= 10
  {
    FormatPhoneDigits(x);
  }

  /** One result of pressing the submit button. */
  datatype SubmitAction =
    | ShowAlert(title: string, message: string)
    | SendPhone(telefone: string)

  const InvalidPhoneMessage := "Digite um número de telefone válido com DDD"

  /** `handleSubmit` up to the request: an invalid phone is refused before any request; a valid one is sent as digits only. */
  function Submit(telefone: string): (r: SubmitAction)
    ensures r.SendPhone? <==> IsValidPhone(telefone)
    ensures r.ShowAlert? ==> r == ShowAlert("Erro", InvalidPhoneMessage)
    ensures r.SendPhone? ==>
      r.telefone == Digits(telefone) && AllDigits(r.telefone) && (|r.telefone| == 10 || |r.telefone| == 11)
  {
    if !IsValidPhone(telefone) then ShowAlert("Erro", InvalidPhoneMessage)
    else SendPhone(Digits(telefone))
  }

  /** A submitted payload is already in the form the validator accepts and formatting it back shows the same text. */
  lemma SubmitPayloadRoundTrip(x: string)
    requires Submit(FormatPhone(x)).SendPhone?
    ensures IsValidPhone(Submit(FormatPhone(x)).telefone)
    ensures FormatPhone(Submit(FormatPhone(x)).telefone) == FormatPhone(x)
  {
    FormatPhoneIdempotent(x);
  }

  /** How the server answered the `PUT /auth/update-phone` request. */
  datatype ServerAnswer = Accepted | Rejected(detail: string) | Unreachable

  /** What the screen does next. */
  datatype AfterSubmit = MarkRegistered | Alert(title: string, message: string)

  /** An error detail shows when present and non-empty (`data.detail || ...`). */
  function OnAnswer(a: ServerAnswer): (r: AfterSubmit)
    ensures r.MarkRegistered? <==> a.Accepted?
    ensures a.Rejected? && a.detail != "" ==> r == Alert("Erro", a.detail)
    ensures a.Rejected? && a.detail == "" ==> r == Alert("Erro", "Erro ao cadastrar telefone")
    ensures a.Unreachable? ==> r == Alert("Erro", "Não foi possível conectar ao servidor")
  {
    match a
    case Accepted => MarkRegistered
    case Rejected(detail) => Alert("Erro", if detail != "" then detail else "Erro ao cadastrar telefone")
    case Unreachable => Alert("Erro", "Não foi possível conectar ao servidor")
  }
}
