/** The `Badge` label: a dot shows no text, a number above `max` shows
    `max+`, anything else shows its string form; the label is shown unless
    hidden, and only when it has text or is a dot. */
module Badge {
  import opened Common

  datatype BadgeValue = NumberValue(n: int) | TextValue(s: string)

  datatype BadgeType = Primary | Success | Warning | Info | Danger

  datatype BadgeProps = BadgeProps(value: BadgeValue, max: int, isDot: bool, hidden: bool, badgeType: BadgeType)

  /** The props as a caller writes them; `None` fields take the defaults. */
  datatype BadgeOptions = BadgeOptions(value: Option<BadgeValue>, max: Option<int>, isDot: bool, hidden: bool,
                                       badgeType: Option<BadgeType>)

  /** `mergeProps(defaultProps, props)`: value `''`, max 99, type danger. */
  function WithDefaults(o: BadgeOptions): (p: BadgeProps)
    ensures p.value == (if o.value.Some? then o.value.value else TextValue(""))
    ensures p.max == (if o.max.Some? then o.max.value else 99)
    ensures p.badgeType == (if o.badgeType.Some? then o.badgeType.value else Danger)
    ensures p.isDot == o.isDot && p.hidden == o.hidden
  {
    BadgeProps(o.value.GetOr(TextValue("")), o.max.GetOr(99), o.isDot, o.hidden, o.badgeType.GetOr(Danger))
  }

  function DigitChar(d: nat): (c: char)
    requires d < 10
    ensures '0' <= c <= '9' && c as int - '0' as int == d
  {
    (d + '0' as int) as char
  }

  /** Decimal digits of a natural number, most significant first. */
  function NatToString(n: nat): (s: string)
    ensures |s| >= 1
    ensures forall i :: 0 <= i < |s| ==> '0' <= s[i] <= '9'
    ensures n > 0 ==> s[0] != '0'
    decreases n
  {
    if n < 10 then [DigitChar(n)] else NatToString(n / 10) + [DigitChar(n % 10)]
  }

  /** `${n}` for an integer: a leading `-` for negatives, then the digits. */
  function IntToString(n: int): (s: string)
    ensures |s| >= 1
    ensures n < 0 <==> s[0] == '-'
  {
    if n < 0 then "-" + NatToString(-n) else NatToString(n)
  }

  /** The value a string of decimal digits denotes. */
  function DigitsValue(s: string): nat
    requires forall i :: 0 <= i < |s| ==> '0' <= s[i] <= '9'
    decreases |s|
  {
    if |s| == 0 then 0 else DigitsValue(s[..|s| - 1]) * 10 + (s[|s| - 1] as int - '0' as int)
  }

  /** Reading back what `IntToString` wrote. */
  function ParseInt(s: string): (n: int)
    requires |s| >= 1
    requires forall i :: 0 <= i < |s| ==> '0' <= s[i] <= '9' || (i == 0 && s[i] == '-')
  {
    if s[0] == '-' then 0 - DigitsValue(s[1..]) as int else DigitsValue(s)
  }

  lemma {:induction false} NatToStringRoundTrip(n: nat)
    ensures DigitsValue(NatToString(n)) == n
    decreases n
  {
    if n >= 10 {
      NatToStringRoundTrip(n / 10);
      var s := NatToString(n);
      assert s[..|s| - 1] == NatToString(n / 10);
    }
  }

  /** Writing an integer in decimal loses nothing. */
  lemma IntToStringRoundTrip(n: int)
    ensures ParseInt(IntToString(n)) == n
  {
    if n < 0 {
      NatToStringRoundTrip(-n);
      assert IntToString(n)[1..] == NatToString(-n);
    } else {
      NatToStringRoundTrip(n);
    }
  }

  /** `content()` */
  function Content(p: BadgeProps): (c: string)
    ensures p.isDot ==> c == ""
    ensures !p.isDot && p.value.NumberValue? && p.value.n > p.max ==> c == IntToString(p.max) + "+"
    ensures !p.isDot && p.value.NumberValue? && p.value.n <= p.max ==> c == IntToString(p.value.n)
    ensures !p.isDot && p.value.TextValue? ==> c == p.value.s
  {
    if p.isDot then ""
    else match p.value
      case NumberValue(n) => if p.max < n then IntToString(p.max) + "+" else IntToString(n)
      case TextValue(s) => s
  }

  /** `!hidden && (content() || isDot)` */
  predicate Shown(p: BadgeProps) {
    !p.hidden && (Content(p) != "" || p.isDot)
  }

  /** A number's label is never empty, so a numeric badge shows unless hidden;
      a text badge shows iff its text is non-empty. */
  lemma ShownExactly(p: BadgeProps)
    ensures Shown(p) <==> !p.hidden && (p.isDot || p.value.NumberValue? || p.value.s != "")
  {
  }

  /** The label ends in `+` exactly for a number above `max` (text labels aside),
      and the number it then shows is `max`. */
  lemma PlusMarksOverflow(p: BadgeProps)
    requires !p.isDot && p.value.NumberValue?
    ensures var c := Content(p);
            c[|c| - 1] == '+' <==> p.value.n > p.max
    ensures p.value.n > p.max ==> ParseInt(Content(p)[..|Content(p)| - 1]) == p.max
    ensures p.value.n <= p.max ==> ParseInt(Content(p)) == p.value.n
  {
    var c := Content(p);
    if p.value.n > p.max {
      assert c[..|c| - 1] == IntToString(p.max);
      IntToStringRoundTrip(p.max);
    } else {
      IntToStringRoundTrip(p.value.n);
      var s := IntToString(p.value.n);
      assert c == s;
      assert '0' <= s[|s| - 1] <= '9';
    }
  }
}
