/**
 * The purchase form: the phone mask, the quantity controls, the submit guard and
 * the displayed total.
 */
module TicketForm {
  import opened Wrappers
  import opened Text

  /** The unit price the form displays, in reais. */
  const TicketPrice: int := 30

  /** What the form hands to the page on submit. */
  datatype FormData = FormData(nome: string, telefone: string, quantidade: int)

  /** JavaScript's `s.slice(i, j)` for 0 <= i: indices past the end are clipped. */
  function Slice(s: string, i: nat, j: nat): string
  {
    if i >= |s| || j <= i then [] else s[i..Min(j, |s|)]
  }

  /** `formatPhone`: keep the digits and lay them out as `(dd) ddddd-dddd`. */
  function FormatPhone(value: string): string
  {
    var d := Digits(value);
    if |d| <= 2 then d
    else if |d| <= 7 then "(" + d[..2] + ") " + d[2..]
    else "(" + d[..2] + ") " + d[2..7] + "-" + Slice(d, 7, 11)
  }

  /** The mask: up to two digits stay bare; then `(dd) ` and, past seven digits, the dash. */
  lemma FormatPhoneShape(value: string)
    ensures var d, r := Digits(value), FormatPhone(value);
      && (|d| <= 2 ==> r == d)
      && (|d| > 2 ==> |r| == Min(|d|, 11) + (if |d| <= 7 then 3 else 4)
                      && r[0] == '(' && r[3] == ')' && r[4] == ' ')
      && (|d| > 7 ==> r[10] == '-')
  {
  }

  /** The output never exceeds the field's `maxLength` of 15, and a full 11-digit number fills it. */
  lemma FormatPhoneLength(value: string)
    ensures |FormatPhone(value)| <= 15
    ensures |Digits(value)| >= 11 ==> |FormatPhone(value)| == 15
  {
  }

  lemma DigitsOfMask(a: string, b: string)
    requires AllDigits(a) && AllDigits(b)
    ensures Digits("(" + a + ") " + b) == a + b
  {
    var open, close := "(", ") ";
    assert Digits(open) == [] by { DigitsOfNonDigits(open); }
    assert Digits(close) == [] by { DigitsOfNonDigits(close); }
    var p1 := open + a;
    assert Digits(p1) == a by { DigitsAppend(open, a); DigitsOfDigits(a); }
    var p2 := p1 + close;
    assert Digits(p2) == a by { DigitsAppend(p1, close); }
    assert Digits(p2 + b) == a + b by { DigitsAppend(p2, b); DigitsOfDigits(b); }
  }

  lemma DigitsOfDashedMask(a: string, b: string, c: string)
    requires AllDigits(a) && AllDigits(b) && AllDigits(c)
    ensures Digits("(" + a + ") " + b + "-" + c) == a + b + c
  {
    var dash := "-";
    assert Digits(dash) == [] by { DigitsOfNonDigits(dash); }
    var p3 := "(" + a + ") " + b;
    var p4 := p3 + dash;
    DigitsOfMask(a, b);
    DigitsAppend(p3, dash);
    assert Digits(p4) == a + b;
    DigitsAppend(p4, c);
    DigitsOfDigits(c);
    assert Digits(p4 + c) == (a + b) + c;
  }

  /** The output's digits are the input's first (at most eleven) digits: nothing is invented or reordered. */
  lemma FormatPhoneDigits(value: string)
    ensures Digits(FormatPhone(value)) == Digits(value)[..Min(|Digits(value)|, 11)]
  {
    var d := Digits(value);
    if |d| <= 2 {
      DigitsOfDigits(d);
      assert d[..|d|] == d;
    } else if |d| <= 7 {
      DigitsOfMask(d[..2], d[2..]);
      assert d[..2] + d[2..] == d[..|d|];
    } else {
      var tail := Slice(d, 7, 11);
      DigitsOfDashedMask(d[..2], d[2..7], tail);
      assert d[..2] + d[2..7] + tail == d[..Min(|d|, 11)];
    }
  }

  /** Formatting an already formatted phone changes nothing. */
  lemma FormatPhoneIdempotent(value: string)
    ensures FormatPhone(FormatPhone(value)) == FormatPhone(value)
  {
    var d := Digits(value);
    FormatPhoneDigits(value);
    var e := Digits(FormatPhone(value));
    assert e == d[..Min(|d|, 11)];
    if |d| > 7 {
      assert e[..2] == d[..2] && e[2..7] == d[2..7];
      assert Slice(e, 7, 11) == Slice(d, 7, 11);
    } else {
      assert e == d;
    }
  }

  /** The quantity after the − button: one less, but never below 1. */
  function Decremented(q: int): (r: int)
    ensures r >= 1
    ensures q > 1 ==> r == q - 1
    ensures q <= 1 ==> r == 1
  {
    Max(1, q - 1)
  }

  /** The quantity after the + button: one more, with no upper bound. */
  function Incremented(q: int): (r: int)
    ensures r > q
  {
    q + 1
  }

  /**
   * The quantity after typing: `Math.max(1, parseInt(v) || 1)`, where `parsed` is
   * what `parseInt` produced (`None` for NaN). Zero, negatives and NaN all give 1.
   */
  function TypedQuantity(parsed: Option<int>): (r: int)
    ensures r >= 1
    ensures parsed.Some? && parsed.value >= 1 ==> r == parsed.value
    ensures parsed.None? || parsed.value < 1 ==> r == 1
  {
    Max(1, if parsed.Some? && parsed.value != 0 then parsed.value else 1)
  }

  /** The amount shown under the quantity and on the button. */
  function Total(quantidade: int): (r: int)
    ensures quantidade >= 1 ==> r >= TicketPrice
  {
    quantidade * TicketPrice
  }

  /** One more seat always costs exactly one more unit price. */
  lemma TotalStep(q: int)
    ensures Total(Incremented(q)) == Total(q) + TicketPrice
    ensures q > 1 ==> Total(Decremented(q)) == Total(q) - TicketPrice
  {
  }

  /** `handleSubmit`: nothing when the trimmed name or phone is empty; else the trimmed name and the phone as held. */
  function Submission(nome: string, telefone: string, quantidade: int): (r: Option<FormData>)
    ensures r.None? <==> IsBlank(nome) || IsBlank(telefone)
    ensures r.Some? ==> r.value.nome == Trim(nome) && r.value.telefone == telefone
                        && r.value.quantidade == quantidade
  {
    if IsBlank(nome) || IsBlank(telefone) then None
    else Some(FormData(Trim(nome), telefone, quantidade))
  }

  /** A submitted name is non-empty and already trimmed: no leading or trailing whitespace. */
  lemma SubmittedNameIsTrimmed(nome: string, telefone: string, quantidade: int)
    requires Submission(nome, telefone, quantidade).Some?
    ensures var n := Submission(nome, telefone, quantidade).value.nome;
      n != [] && Trim(n) == n && !IsWhitespace(n[0]) && !IsWhitespace(n[|n| - 1])
  {
    TrimIdempotent(nome);
  }

  /** The submit button's `disabled` expression. */
  predicate SubmitDisabled(isLoading: bool, nome: string, telefone: string)
  {
    isLoading || IsBlank(nome) || IsBlank(telefone)
  }

  /** When not loading, the button is enabled exactly when a submit would go through. */
  lemma EnabledIffSubmits(nome: string, telefone: string, quantidade: int)
    ensures !SubmitDisabled(false, nome, telefone) <==> Submission(nome, telefone, quantidade).Some?
  {
  }

  /** The button's noun: "ingressos" for more than one seat. */
  function ButtonNoun(quantidade: int): (r: string)
    ensures r == "ingressos" <==> quantidade > 1
    ensures r == "ingresso" <==> quantidade <= 1
  {
    if quantidade > 1 then "ingressos" else "ingresso"
  }

  /** The form's state: the three controlled inputs. */
  class TicketFormState {
    var nome: string
    var telefone: string
    var quantidade: int

    /** Every handler keeps the quantity at 1 or more. */
    ghost predicate Valid()
      reads this
    {
      quantidade >= 1
    }

    constructor ()
      ensures Valid() && nome == "" && telefone == "" && quantidade == 1
    {
      nome, telefone, quantidade := "", "", 1;
    }

    method NameChange(v: string)
      requires Valid()
      modifies this
      ensures Valid() && nome == v && telefone == old(telefone) && quantidade == old(quantidade)
    {
      nome := v;
    }

    /** `handlePhoneChange`: the field always holds a formatted phone of at most 15 characters. */
    method PhoneChange(v: string)
      requires Valid()
      modifies this
      ensures Valid() && telefone == FormatPhone(v) && |telefone| <= 15
      ensures nome == old(nome) && quantidade == old(quantidade)
    {
      FormatPhoneLength(v);
      telefone := FormatPhone(v);
    }

    method DecrementClick()
      requires Valid()
      modifies this
      ensures Valid() && quantidade == Decremented(old(quantidade))
      ensures nome == old(nome) && telefone == old(telefone)
    {
      quantidade := Decremented(quantidade);
    }

    method IncrementClick()
      requires Valid()
      modifies this
      ensures Valid() && quantidade == old(quantidade) + 1
      ensures nome == old(nome) && telefone == old(telefone)
    {
      quantidade := quantidade + 1;
    }

    method QuantityInput(parsed: Option<int>)
      requires Valid()
      modifies this
      ensures Valid() && quantidade == TypedQuantity(parsed)
      ensures nome == old(nome) && telefone == old(telefone)
    {
      quantidade := TypedQuantity(parsed);
    }

    /** `handleSubmit`: what is passed to `onSubmit`, or `None` when the guard returns early. */
    method HandleSubmit() returns (r: Option<FormData>)
      requires Valid()
      ensures r == Submission(nome, telefone, quantidade)
      ensures r.None? <==> IsBlank(nome) || IsBlank(telefone)
      ensures r.Some? ==> r.value == FormData(Trim(nome), telefone, quantidade) && r.value.quantidade >= 1
    {
      r := Submission(nome, telefone, quantidade);
    }
  }
}
