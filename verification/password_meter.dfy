/** The signup form's password strength meter. */
module PasswordMeter {
  import Text

  predicate IsUpper(c: char) { 'A' <= c <= 'Z' }
  predicate IsLower(c: char) { 'a' <= c <= 'z' }
  predicate IsDigit(c: char) { '0' <= c <= '9' }

  /** `/[A-Z]/.test(p)`. */
  predicate HasUpper(p: string) { exists i :: 0 <= i < |p| && IsUpper(p[i]) }
  /** `/[0-9]/.test(p)`. */
  predicate HasDigit(p: string) { exists i :: 0 <= i < |p| && IsDigit(p[i]) }
  /** `/[^A-Za-z0-9]/.test(p)`. */
  predicate HasSymbol(p: string) {
    exists i :: 0 <= i < |p| && !IsUpper(p[i]) && !IsLower(p[i]) && !IsDigit(p[i])
  }

  function Point(b: bool): nat { if b then 1 else 0 }

  /** The four criteria, in the order the meter checks them. */
  function Criteria(p: string): (c: seq<bool>)
    ensures |c| == 4
  {
    [Text.Utf16Length(p) >= 8, HasUpper(p), HasDigit(p), HasSymbol(p)]
  }

  /** How many of the flags hold. */
  function CountTrue(flags: seq<bool>): (n: nat)
    ensures n <= |flags|
  {
    if |flags| == 0 then 0 else Point(flags[0]) + CountTrue(flags[1..])
  }

  /** `calculateStrength`: one point each for a length of at least 8, an
      upper-case letter, a digit, and a character outside A-Z, a-z, 0-9. */
  function Strength(p: string): (n: nat)
    ensures n <= 4
    ensures n == CountTrue(Criteria(p))
    ensures n == 4 <==> Text.Utf16Length(p) >= 8 && HasUpper(p) && HasDigit(p) && HasSymbol(p)
  {
    var c := Criteria(p);
    assert CountTrue(c[3..]) == Point(c[3]) by { assert c[3..][1..] == []; }
    assert CountTrue(c[2..]) == Point(c[2]) + CountTrue(c[3..]) by { assert c[2..][1..] == c[3..]; }
    assert CountTrue(c[1..]) == Point(c[1]) + CountTrue(c[2..]) by { assert c[1..][1..] == c[2..]; }
    Point(Text.Utf16Length(p) >= 8) + Point(HasUpper(p)) + Point(HasDigit(p)) + Point(HasSymbol(p))
  }

  /** Each criterion is worth exactly one point: of two passwords that agree
      on every criterion but one, the one meeting it scores one more. */
  lemma OneMoreCriterion(p: string, q: string, k: int)
    requires 0 <= k < 4 && !Criteria(p)[k] && Criteria(q)[k]
    requires forall j :: 0 <= j < 4 && j != k ==> Criteria(p)[j] == Criteria(q)[j]
    ensures Strength(q) == Strength(p) + 1
  {
    var a, b := Criteria(p), Criteria(q);
    assert a[0] == b[0] || k == 0;
    assert a[1] == b[1] || k == 1;
    assert a[2] == b[2] || k == 2;
    assert a[3] == b[3] || k == 3;
  }

  /** A password scores 0 exactly when it is shorter than 8 and made of
      lower-case letters only; in particular the empty password scores 0. */
  lemma StrengthZero(p: string)
    ensures Strength(p) == 0 <==> Text.Utf16Length(p) < 8 && forall i :: 0 <= i < |p| ==> IsLower(p[i])
    ensures Strength("") == 0
  {
    if Strength(p) == 0 {
      assert !HasUpper(p) && !HasDigit(p) && !HasSymbol(p);
      forall i | 0 <= i < |p| ensures IsLower(p[i]) {
        assert !IsUpper(p[i]) && !IsDigit(p[i]);
      }
    }
  }

  /** Typing more characters never lowers the score. */
  lemma StrengthMonotone(p: string, more: string)
    ensures Strength(p) <= Strength(p + more)
  {
    Text.Utf16LengthAppend(p, more);
    var q := p + more;
    assert forall i :: 0 <= i < |p| ==> q[i] == p[i];
    if HasUpper(p) { var i :| 0 <= i < |p| && IsUpper(p[i]); assert IsUpper(q[i]); }
    if HasDigit(p) { var i :| 0 <= i < |p| && IsDigit(p[i]); assert IsDigit(q[i]); }
    if HasSymbol(p) {
      var i :| 0 <= i < |p| && !IsUpper(p[i]) && !IsLower(p[i]) && !IsDigit(p[i]);
      assert !IsUpper(q[i]) && !IsLower(q[i]) && !IsDigit(q[i]);
    }
  }

  /** `getColor`: one colour per score from 0 to 4; the default colour is
      used exactly for the scores outside that range. */
  function ColorClass(strength: int): (r: string)
    ensures r == "bg-gray-200" <==> !(0 <= strength <= 4)
    ensures r == "bg-gray-300" <==> strength == 0
  {
    match strength
    case 0 => "bg-gray-300"
    case 1 => "bg-red-500"
    case 2 => "bg-orange-500"
    case 3 => "bg-yellow-500"
    case 4 => "bg-green-500"
    case _ => "bg-gray-200"
  }

  /** `getMessage`: one message per score from 0 to 4, and none outside
      that range. */
  function MessageText(strength: int): (r: string)
    ensures r == "" <==> !(0 <= strength <= 4)
  {
    match strength
    case 0 => "Very Weak"
    case 1 => "Weak"
    case 2 => "Fair"
    case 3 => "Good"
    case 4 => "Strong"
    case _ => ""
  }

  /** Every score a password can get has its own colour and its own message:
      the `default` branches are never taken. */
  lemma LabelsIdentifyScore(p: string, q: string)
    ensures MessageText(Strength(p)) != "" && ColorClass(Strength(p)) != "bg-gray-200"
    ensures MessageText(Strength(p)) == MessageText(Strength(q)) <==> Strength(p) == Strength(q)
    ensures ColorClass(Strength(p)) == ColorClass(Strength(q)) <==> Strength(p) == Strength(q)
    ensures Strength(p) == 0 ==> MessageText(Strength(p)) == "Very Weak"
  {
  }

  /** The four bar segments: segment `i` is coloured when `i < strength`. */
  function Bars(strength: int): (bars: seq<string>)
    ensures |bars| == 4
    ensures forall i :: 0 <= i < 4 ==> bars[i] in {ColorClass(strength), "bg-gray-300"}
    ensures forall i, j :: 0 <= i < j < 4 && bars[j] == ColorClass(strength) ==> bars[i] == ColorClass(strength)
  {
    seq(4, i => if i < strength then ColorClass(strength) else "bg-gray-300")
  }

  function CountOf(s: seq<string>, x: string): nat {
    if |s| == 0 then 0 else (if s[0] == x then 1 else 0) + CountOf(s[1..], x)
  }

  lemma CountOfFour(b: seq<string>, x: string)
    requires |b| == 4
    ensures CountOf(b, x) == Point(b[0] == x) + Point(b[1] == x) + Point(b[2] == x) + Point(b[3] == x)
  {
    assert CountOf(b[3..], x) == Point(b[3] == x) by { assert b[3..][1..] == []; }
    assert CountOf(b[2..], x) == Point(b[2] == x) + CountOf(b[3..], x) by { assert b[2..][1..] == b[3..]; }
    assert CountOf(b[1..], x) == Point(b[1] == x) + CountOf(b[2..], x) by { assert b[1..][1..] == b[2..]; }
  }

  /** Exactly `strength` of the four segments take the score's colour and
      the rest stay grey; a score of 0 leaves all four grey. */
  lemma BarsFilled(p: string)
    ensures Strength(p) > 0 ==> CountOf(Bars(Strength(p)), ColorClass(Strength(p))) == Strength(p)
    ensures CountOf(Bars(Strength(p)), "bg-gray-300") == 4 - Strength(p)
  {
    var n := Strength(p);
    var b := Bars(n);
    CountOfFour(b, ColorClass(n));
    CountOfFour(b, "bg-gray-300");
    if n > 0 {
      assert ColorClass(n) != "bg-gray-300";
      assert forall i :: 0 <= i < 4 ==> (b[i] == ColorClass(n) <==> i < n);
      assert forall i :: 0 <= i < 4 ==> (b[i] == "bg-gray-300" <==> i >= n);
    }
  }
}
