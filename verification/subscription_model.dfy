/** The `Subscription` collection: one recurring charge owned by one user,
    and how a request body becomes a stored document. */
module SubscriptionModel {
  import opened Base
  import Text

  /** The colour a subscription gets when none is supplied. */
  const DefaultColor: string := "#6366f1"

  /** A stored subscription document. `price` is optional because readers
      treat a missing price as 0; an empty `category` stands for a missing
      one; a `None` colour is a stored `null`. */
  datatype Subscription = Subscription(
    user: UserId,
    name: string,
    price: Option<real>,
    nextPaymentDate: Date,
    color: Option<string>,
    category: string,
    billingCycle: string,       // free text: "monthly", "yearly", "weekly", "custom", ...
    description: Option<string>,
    notes: Option<string>,
    paymentMethod: Option<string>)

  /** Schema validation: user, name, price, nextPaymentDate, category and
      billingCycle are required (required strings must be non-empty); price
      may be any number, negative included; billingCycle is not an enum;
      description, notes and paymentMethod are optional. */
  predicate ValidSubscription(s: Subscription) {
    s.name != "" && s.price.Some? && s.category != "" && s.billingCycle != ""
  }

  /** The body's `price` as `JSON.parse` leaves it: absent, `null`, a number
      or a string (the client's form sends the input's text). */
  datatype JsValue = Missing | Null | Num(n: real) | Str(s: string)

  /** JavaScript truthiness: absent, `null`, 0 and "" are falsy; every other
      string, "0" included, is truthy. */
  predicate TruthyValue(v: JsValue) {
    match v
    case Missing => false
    case Null => false
    case Num(n) => n != 0.0
    case Str(s) => s != ""
  }

  /** The body's `color`: absent (the schema default applies), `null`
      (stored as it is; a default replaces only an absent value), or text. */
  datatype ColorField = NoColor | NullColor | ColorText(text: string)

  /** The request body of `POST /api/subscriptions`. For the string fields
      `None` is a missing or null field, which every reader treats alike. */
  datatype SubscriptionInput = SubscriptionInput(
    user: Option<UserId>,
    name: Option<string>,
    price: JsValue,
    nextPaymentDate: Option<Date>,
    color: ColorField,
    category: Option<string>,
    billingCycle: Option<string>,
    description: Option<string>,
    notes: Option<string>,
    paymentMethod: Option<string>)

  /** The controller's guard: every one of name, price, nextPaymentDate,
      category, billingCycle and paymentMethod must be truthy. */
  predicate HasRequiredFields(b: SubscriptionInput) {
    && Truthy(b.name)
    && TruthyValue(b.price)
    && b.nextPaymentDate.Some?
    && Truthy(b.category)
    && Truthy(b.billingCycle)
    && Truthy(b.paymentMethod)
  }

  predicate IsDigit(c: char) { '0' <= c <= '9' }

  predicate AllDigits(s: string) {
    forall i :: 0 <= i < |s| ==> IsDigit(s[i])
  }

  /** The value of a string of decimal digits ("" counts as 0). */
  function Digits(s: string): nat
    requires AllDigits(s)
  {
    if |s| == 0 then 0 else Digits(s[..|s| - 1]) * 10 + (s[|s| - 1] as int - '0' as int)
  }

  function Pow10(k: nat): (p: nat)
    ensures p >= 1
  {
    if k == 0 then 1 else 10 * Pow10(k - 1)
  }

  /** The unsigned part of a decimal numeral: digits, or digits, a point and
      digits, with at least one digit in all. */
  function ParseUnsigned(t: string): (r: Option<real>)
    ensures r.Some? ==> r.value >= 0.0
  {
    var parts := Text.Split(t, '.');
    if |parts| == 1 && parts[0] != "" && AllDigits(parts[0]) then
      Some(Digits(parts[0]) as real)
    else if |parts| == 2 && parts[0] + parts[1] != "" && AllDigits(parts[0]) && AllDigits(parts[1]) then
      Some(Digits(parts[0]) as real + Digits(parts[1]) as real / Pow10(|parts[1]|) as real)
    else None
  }

  /** `Number(text)` on a plain decimal numeral: an optional sign, then the
      unsigned part. `None` is `NaN`. */
  function ParseDecimal(t: string): Option<real> {
    if |t| > 0 && (t[0] == '-' || t[0] == '+') then
      match ParseUnsigned(t[1..])
      case None => None
      case Some(v) => Some(if t[0] == '-' then -v else v)
    else ParseUnsigned(t)
  }

  /** The decimal text of a natural number, as `String(n)` writes it. */
  function NatText(n: nat): (t: string)
    ensures |t| > 0 && AllDigits(t)
  {
    var d := [(n % 10 + '0' as int) as char];
    if n < 10 then d else NatText(n / 10) + d
  }

  /** The numeral a natural number is written as reads back as that number. */
  lemma {:induction false} ParseNatText(n: nat)
    ensures ParseDecimal(NatText(n)) == Some(n as real)
  {
    DigitsNatText(n);
    var t := NatText(n);
    assert '.' !in t by {
      forall i | 0 <= i < |t| ensures t[i] != '.' { assert IsDigit(t[i]); }
    }
    Text.SplitNoSeparator(t, '.');
    assert t[0] != '-' && t[0] != '+' by { assert IsDigit(t[0]); }
  }

  lemma {:induction false} DigitsNatText(n: nat)
    ensures Digits(NatText(n)) == n
  {
    var t := NatText(n);
    var d := [(n % 10 + '0' as int) as char];
    if n >= 10 {
      DigitsNatText(n / 10);
      assert t[..|t| - 1] == NatText(n / 10);
    }
    assert t[|t| - 1] == d[0];
    if n < 10 {
      assert t[..0] == [];
    }
  }

  /** Mongoose's cast of a `Number` path: absent and `null` stay without a
      value, "" becomes `null`, a string goes through `Number`, and `NaN` is a
      cast error. `None` is "no number" either way: the save then fails. */
  function CastNumber(v: JsValue): (r: Option<real>)
    ensures v.Num? ==> r == Some(v.n)
    ensures v.Missing? || v.Null? || v == Str("") ==> r.None?
    ensures forall n: nat :: v == Str(NatText(n)) ==> r == Some(n as real)
  {
    assert forall n: nat :: ParseDecimal(NatText(n)) == Some(n as real) by {
      forall n: nat ensures ParseDecimal(NatText(n)) == Some(n as real) {
        ParseNatText(n);
      }
    }
    match v
    case Missing => None
    case Null => None
    case Num(n) => Some(n)
    case Str(s) => if s == "" then None else ParseDecimal(s)
  }

  lemma DigitsHaveNoPoint(s: string)
    requires AllDigits(s)
    ensures '.' !in s
  {
    forall i | 0 <= i < |s| ensures s[i] != '.' { assert IsDigit(s[i]); }
  }

  /** The value of the numeral `w.f`. */
  function DecimalValue(w: string, f: string): (x: real)
    requires AllDigits(w) && AllDigits(f)
    ensures x >= Digits(w) as real
  {
    Digits(w) as real + Digits(f) as real / Pow10(|f|) as real
  }

  /** Digits, a point and digits read as their decimal value. */
  lemma UnsignedDecimalText(w: string, f: string)
    requires AllDigits(w) && AllDigits(f) && w + f != ""
    ensures ParseUnsigned(w + "." + f) == Some(DecimalValue(w, f))
  {
    DigitsHaveNoPoint(w);
    DigitsHaveNoPoint(f);
    Text.SplitFirst(w, '.', f);
    Text.SplitNoSeparator(f, '.');
    assert w + "." + f == w + ['.'] + f;
    var parts := Text.Split(w + "." + f, '.');
    assert parts == [w, f];
  }

  /** An unsigned numeral, and the same numeral after a "-", through the cast. */
  lemma CastSigned(t: string, x: real)
    requires |t| > 0 && IsDigit(t[0]) && ParseUnsigned(t) == Some(x)
    ensures CastNumber(Str(t)) == Some(x)
    ensures CastNumber(Str("-" + t)) == Some(-x)
  {
    assert ("-" + t)[1..] == t;
  }

  /** The text a price input holds, "9.99" say, casts to its decimal value,
      and a leading "-" negates it. */
  lemma CastDecimalText(w: string, f: string)
    requires |w| > 0 && AllDigits(w) && AllDigits(f)
    ensures CastNumber(Str(w + "." + f)) == Some(DecimalValue(w, f))
    ensures CastNumber(Str("-" + (w + "." + f))) == Some(-DecimalValue(w, f))
  {
    UnsignedDecimalText(w, f);
    assert (w + "." + f)[0] == w[0];
    CastSigned(w + "." + f, DecimalValue(w, f));
  }

  /** The form's price text "9.99" is stored as 9.99. */
  lemma FormPriceCasts()
    ensures CastNumber(Str("9.99")) == Some(9.99)
  {
    assert Digits("9") == 9 by { assert "9"[..0] == ""; }
    assert Digits("99") == 99 by { assert "99"[..1] == "9"; }
    assert Pow10(2) == 100;
    assert DecimalValue("9", "99") == 9.99;
    CastDecimalText("9", "99");
    assert "9" + "." + "99" == "9.99";
  }

  /** The text "-0.5" is stored as -0.5. */
  lemma NegativePriceCasts()
    ensures CastNumber(Str("-0.5")) == Some(-0.5)
  {
    assert Digits("0") == 0 by { assert "0"[..0] == ""; }
    assert Digits("5") == 5 by { assert "5"[..0] == ""; }
    assert DecimalValue("0", "5") == 0.5;
    CastDecimalText("0", "5");
    assert "-" + ("0" + "." + "5") == "-0.5";
  }

  /** A leading "-" negates any whole number. */
  lemma CastNegativeNatText(n: nat)
    ensures CastNumber(Str("-" + NatText(n))) == Some(-(n as real))
  {
    ParseNatText(n);
    var t := NatText(n);
    assert ("-" + t)[1..] == t;
    assert t[0] != '-' && t[0] != '+' by { assert IsDigit(t[0]); }
  }

  /** `new Subscription({ ...req.body, user: userId })` followed by
      validation: the body's fields, the owner forced to the authenticated
      user, the default colour only for an absent colour. `None` is a
      document the save rejects (a required path missing or empty, or a
      price that does not cast to a number). */
  function FromInput(owner: UserId, b: SubscriptionInput): (r: Option<Subscription>)
    ensures r.Some? <==>
      && Truthy(b.name) && CastNumber(b.price).Some? && b.nextPaymentDate.Some?
      && Truthy(b.category) && Truthy(b.billingCycle)
    ensures r.Some? ==>
      var s := r.value;
      && ValidSubscription(s)
      && s.user == owner
      && Some(s.name) == b.name && s.price == CastNumber(b.price) && Some(s.nextPaymentDate) == b.nextPaymentDate
      && Some(s.category) == b.category && Some(s.billingCycle) == b.billingCycle
      && s.description == b.description && s.notes == b.notes && s.paymentMethod == b.paymentMethod
      && (b.color.NoColor? ==> s.color == Some(DefaultColor))
      && (b.color.NullColor? ==> s.color == None)
      && (b.color.ColorText? ==> s.color == Some(b.color.text))
  {
    if Truthy(b.name) && CastNumber(b.price).Some? && b.nextPaymentDate.Some?
       && Truthy(b.category) && Truthy(b.billingCycle) then
      var color := match b.color
        case NoColor => Some(DefaultColor)
        case NullColor => None
        case ColorText(t) => Some(t);
      Some(Subscription(owner, b.name.value, CastNumber(b.price), b.nextPaymentDate.value, color,
                        b.category.value, b.billingCycle.value, b.description, b.notes, b.paymentMethod))
    else None
  }
}
