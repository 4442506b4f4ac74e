/**
 * The display label of a channel in the stream tree: "Ch-", the 1-based channel
 * number zero-padded to two digits, and an optional ":  <name>" suffix taken from
 * the channel-name mapping under the unpadded key "ch-<number>".
 */
module Labels {
  import opened Options

  predicate IsDigit(c: char) { '0' <= c <= '9' }

  predicate AllDigits(s: string) { forall i :: 0 <= i < |s| ==> IsDigit(s[i]) }

  function DigitChar(d: nat): (c: char)
    requires d < 10
    ensures IsDigit(c) && c as int - '0' as int == d
  {
    ('0' as int + d) as char
  }

  /** The decimal digits of `n` without leading zeros, as Python's `str` of an int. */
  function Decimal(n: nat): (s: string)
    ensures AllDigits(s) && |s| >= 1
    ensures n < 10 <==> |s| == 1
    ensures n > 0 ==> s[0] != '0'
    decreases n
  {
    if n < 10 then [DigitChar(n)] else Decimal(n / 10) + [DigitChar(n % 10)]
  }

  /** The number a string of decimal digits denotes. */
  function ParseDecimal(s: string): nat
    requires AllDigits(s)
  {
    if s == [] then 0
    else ParseDecimal(s[..|s| - 1]) * 10 + (s[|s| - 1] as int - '0' as int)
  }

  lemma {:induction false} ParseDecimalOfDecimal(n: nat)
    ensures ParseDecimal(Decimal(n)) == n
    decreases n
  {
    if n >= 10 {
      var s := Decimal(n);
      assert s[..|s| - 1] == Decimal(n / 10);
      ParseDecimalOfDecimal(n / 10);
    }
  }

  lemma {:induction false} ParseSkipsLeadingZero(s: string)
    requires AllDigits(s)
    ensures AllDigits("0" + s) && ParseDecimal("0" + s) == ParseDecimal(s)
    decreases |s|
  {
    var t := "0" + s;
    if s == [] {
      assert t[..|t| - 1] == [];
    } else {
      assert t[..|t| - 1] == "0" + s[..|s| - 1];
      ParseSkipsLeadingZero(s[..|s| - 1]);
    }
  }

  /** The longest prefix of `s` made of decimal digits. */
  function LeadingDigits(s: string): (d: string)
    ensures AllDigits(d) && d <= s
    ensures |d| < |s| ==> !IsDigit(s[|d|])
  {
    if s == [] || !IsDigit(s[0]) then [] else [s[0]] + LeadingDigits(s[1..])
  }

  lemma {:induction false} LeadingDigitsOfConcat(d: string, rest: string)
    requires AllDigits(d)
    requires rest == [] || !IsDigit(rest[0])
    ensures LeadingDigits(d + rest) == d
    decreases |d|
  {
    if d == [] {
      assert d + rest == rest;
    } else {
      assert (d + rest)[1..] == d[1..] + rest;
      LeadingDigitsOfConcat(d[1..], rest);
    }
  }

  const LabelPrefix: string := "Ch-"
  const NameSeparator: string := ":  "

  /** The key under which the channel-name mapping holds the name of 0-based channel `m`. */
  function ChannelKey(m: nat): string
  {
    "ch-" + Decimal(m + 1)
  }

  /** The mapping key of channel `m` is "ch-" and the unpadded digits of `m + 1`. */
  lemma KeyRoundTrip(m: nat)
    ensures var k := ChannelKey(m);
            && |k| >= 4 && k[..3] == "ch-" && AllDigits(k[3..])
            && k[3] != '0' && ParseDecimal(k[3..]) == m + 1
  {
    var k := ChannelKey(m);
    assert k[3..] == Decimal(m + 1);
    ParseDecimalOfDecimal(m + 1);
  }

  /** A 1-based channel number as displayed: two digits below 10, unpadded from 10 on. */
  function PaddedNumber(k: nat): (s: string)
    ensures AllDigits(s) && |s| >= 2
  {
    if k >= 10 then Decimal(k) else "0" + Decimal(k)
  }

  /** The optional ":  <name>" suffix; an absent key gives no suffix. */
  function NameSuffix(m: nat, mapping: map<string, string>): string
  {
    if ChannelKey(m) in mapping then NameSeparator + mapping[ChannelKey(m)] else ""
  }

  /** The text of the tree item for 0-based channel `m`. */
  function ChannelLabel(m: nat, mapping: map<string, string>): string
  {
    LabelPrefix + PaddedNumber(m + 1) + NameSuffix(m, mapping)
  }

  /** Reads the channel number back from a label, if it has the label's shape. */
  function ChannelNumber(text: string): Option<nat>
  {
    if |text| >= |LabelPrefix| && text[..|LabelPrefix|] == LabelPrefix then
      var d := LeadingDigits(text[|LabelPrefix|..]);
      if d == [] then None else Some(ParseDecimal(d))
    else None
  }

  /** What follows the channel number in a label. */
  function ChannelSuffix(text: string): string
  {
    if |text| >= |LabelPrefix| then
      var rest := text[|LabelPrefix|..];
      rest[|LeadingDigits(rest)|..]
    else ""
  }

  /**
   * Parsing a label gives back the 1-based channel number and the mapped name;
   * the number is shown with exactly two digits below 10 and with no leading
   * zero from 10 on.
   */
  lemma LabelRoundTrip(m: nat, mapping: map<string, string>)
    ensures ChannelNumber(ChannelLabel(m, mapping)) == Some(m + 1)
    ensures ChannelSuffix(ChannelLabel(m, mapping))
            == if ChannelKey(m) in mapping then ":  " + mapping[ChannelKey(m)] else ""
    ensures var digits := LeadingDigits(ChannelLabel(m, mapping)[|LabelPrefix|..]);
            (m + 1 < 10 ==> |digits| == 2 && digits[0] == '0')
            && (m + 1 >= 10 ==> digits == Decimal(m + 1) && digits[0] != '0')
  {
    var text := ChannelLabel(m, mapping);
    var digits := PaddedNumber(m + 1);
    var suffix := NameSuffix(m, mapping);
    assert text == LabelPrefix + (digits + suffix);
    assert text[..|LabelPrefix|] == LabelPrefix;
    assert text[|LabelPrefix|..] == digits + suffix;
    LeadingDigitsOfConcat(digits, suffix);
    assert (digits + suffix)[|digits|..] == suffix;
    ParseDecimalOfDecimal(m + 1);
    if m + 1 < 10 {
      ParseSkipsLeadingZero(Decimal(m + 1));
    }
  }
}
