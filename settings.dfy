/**
 * The handler's configuration: `SNS_TOPIC_ARN`, and `DAYS_TO_CHECK` read with
 * `int(...)`, default `'7'`. Only a sign followed by ASCII digits is decoded.
 */
module Settings {
  import opened Wrappers

  /** The text used when `DAYS_TO_CHECK` is unset. */
  const DefaultDaysText: string := "7"

  datatype Environment = Environment(topicArn: Option<string>, daysToCheck: Option<string>)

  predicate IsDigit(c: char)
  {
    '0' <= c <= '9'
  }

  function DigitValue(c: char): nat
    requires IsDigit(c)
  {
    c as int - '0' as int
  }

  /** The value of a non-empty run of decimal digits, most significant first. */
  function DigitsValue(s: string): (r: Option<nat>)
    ensures r.Some? <==> s != [] && forall i :: 0 <= i < |s| ==> IsDigit(s[i])
  {
    if s == [] then None
    else if !IsDigit(s[|s| - 1]) then None
    else if |s| == 1 then Some(DigitValue(s[0]))
    else
      var init := s[..|s| - 1];
      assert forall i :: 0 <= i < |init| ==> init[i] == s[i];
      match DigitsValue(init)
      case None => None
      case Some(n) => Some(10 * n + DigitValue(s[|s| - 1]))
  }

  /** `int(text)`: `None` where Python raises `ValueError`. */
  function ParseInt(text: string): Option<int>
  {
    var signed := text != [] && (text[0] == '-' || text[0] == '+');
    match DigitsValue(if signed then text[1..] else text)
    case None => None
    case Some(n) =>
      var value: int := if text != [] && text[0] == '-' then 0 - n else n;
      Some(value)
  }

  /** Line 189: the setting, or the default when it is unset. */
  function DaysToCheck(env: Environment): Option<int>
  {
    ParseInt(if env.daysToCheck.Some? then env.daysToCheck.value else DefaultDaysText)
  }

  /** Line 191: a missing or empty topic is not configured. */
  predicate IsConfigured(topicArn: Option<string>)
  {
    topicArn.Some? && topicArn.value != ""
  }

  /** The decimal digits of `n`, without leading zeros. */
  function ShowNat(n: nat): (s: string)
    ensures s != [] && forall i :: 0 <= i < |s| ==> IsDigit(s[i])
  {
    if n < 10 then [('0' as int + n) as char]
    else ShowNat(n / 10) + [('0' as int + n % 10) as char]
  }

  /** `str(n)`. */
  function ShowInt(n: int): string
  {
    if n < 0 then "-" + ShowNat(-n) else ShowNat(n)
  }

  lemma {:induction false} DigitsRoundTrip(n: nat)
    ensures DigitsValue(ShowNat(n)) == Some(n)
  {
    if n >= 10 {
      var s := ShowNat(n);
      DigitsRoundTrip(n / 10);
      assert s[..|s| - 1] == ShowNat(n / 10);
    }
  }

  /** Every integer written the way `str` writes it is read back by `int`. */
  lemma ParseRoundTrip(n: int)
    ensures ParseInt(ShowInt(n)) == Some(n)
  {
    var text := ShowInt(n);
    if n < 0 {
      DigitsRoundTrip(-n);
      assert text[0] == '-' && text[1..] == ShowNat(-n);
    } else {
      DigitsRoundTrip(n);
      assert IsDigit(text[0]);
    }
  }

  /** Unset, the setting is 7 days. */
  lemma DefaultIsSeven(topicArn: Option<string>)
    ensures DaysToCheck(Environment(topicArn, None)) == Some(7)
  {
  }
}
