/** The token grammar of `contextWindow` values (crates/agent/src/context_window.rs). */
module ContextWindow {
  import opened Text

  const MIN_TOKENS: nat := 100_000

  /** A JSON value as the parser looks at it; a number keeps its `as_u64` reading. */
  datatype Value = Number(asU64: Option<nat>) | Str(text: string) | Other

  function LowerChar(c: char): char {
    if 'A' <= c <= 'Z' then (c as int + 32) as char else c
  }

  function Lower(s: string): (r: string)
    ensures |r| == |s| && forall i :: 0 <= i < |s| ==> r[i] == LowerChar(s[i])
  {
    seq(|s|, i requires 0 <= i < |s| => LowerChar(s[i]))
  }

  /** `str::parse::<u64>`: an optional plus sign, digits only, no overflow. */
  function ParseU64(s: string): Option<nat> {
    var digits := if s != [] && s[0] == '+' then s[1..] else s;
    if digits == [] || !AllDigits(digits) then None
    else if DigitsValue(digits) > U64_MAX then None
    else Some(DigitsValue(digits))
  }

  function CheckedMul(value: Option<nat>, factor: nat): Option<nat> {
    if value.Some? && value.value * factor <= U64_MAX then Some(value.value * factor) else None
  }

  /** A trimmed, lower-case text. */
  function ParseLower(value: string): Option<nat> {
    if value != [] && value[|value| - 1] == 'k' then CheckedMul(ParseU64(value[..|value| - 1]), 1_000)
    else if value != [] && value[|value| - 1] == 'm' then CheckedMul(ParseU64(value[..|value| - 1]), 1_000_000)
    else
      var plain := ParseU64(value);
      if plain.Some? && plain.value < 1_000 then CheckedMul(plain, 1_000) else plain
  }

  function ParseText(text: string): Option<nat> {
    ParseLower(Lower(Trim(text)))
  }

  function ParseTokens(value: Value): (tokens: Option<nat>)
    ensures tokens.Some? ==> MIN_TOKENS <= tokens.value
  {
    var tokens := match value
      case Number(n) => n
      case Str(text) => ParseText(text)
      case Other => None;
    if tokens.Some? && tokens.value >= MIN_TOKENS then tokens else None
  }

  function Format(tokens: nat): string {
    if tokens >= 1_000_000 && tokens % 1_000_000 == 0 then Decimal(tokens / 1_000_000) + "M"
    else Decimal(tokens / 1_000) + "k"
  }

  /** A `contextWindow` selector: its preset values and the default among them. */
  datatype Selector = Selector(presets: seq<string>, defaultValue: Option<string>)

  /** The window in effect: the first selection that names this option, else the default preset. */
  function Selected(selector: Option<Selector>, selection: Option<Value>): Option<nat> {
    var chosen := if selection.Some? then ParseTokens(selection.value) else None;
    if chosen.Some? then chosen
    else if selector.Some? && selector.value.defaultValue.Some? then ParseTokens(Str(selector.value.defaultValue.value))
    else None
  }

  function MaxOption(a: Option<nat>, b: Option<nat>): Option<nat> {
    if a.None? then b else if b.None? then a else if a.value <= b.value then b else a
  }

  function LargestPreset(presets: seq<string>): Option<nat> {
    if presets == [] then None else MaxOption(ParseTokens(Str(presets[0])), LargestPreset(presets[1..]))
  }

  /** The selector generated for a model whose window is fixed. */
  function FixedSelector(tokens: nat): Selector {
    var value := Lower(Format(tokens));
    Selector([value], Some(value))
  }

  // ---------------------------------------------------------------- proofs

  lemma DigitsAreInert(s: string)
    requires AllDigits(s) && s != []
    ensures Lower(s) == s && Trim(s) == s && s[0] != '+'
    ensures ParseU64(s) == if DigitsValue(s) <= U64_MAX then Some(DigitsValue(s)) else None
  {
  }

  /** A numeral followed by a unit letter in either case reads as numeral times unit. */
  lemma ParseUnit(n: nat, unit: char, factor: nat, text: string)
    requires n <= U64_MAX
    requires (unit == 'k' && factor == 1_000) || (unit == 'm' && factor == 1_000_000)
    requires |text| == |Decimal(n)| + 1 && text[..|Decimal(n)|] == Decimal(n)
    requires LowerChar(text[|Decimal(n)|]) == unit
    ensures ParseText(text) == CheckedMul(Some(n), factor)
  {
    var d := Decimal(n);
    DecimalValue(n);
    assert forall i :: 0 <= i < |d| ==> text[i] == d[i];
    assert text == d + [text[|d|]];
    assert Trim(text) == text;
    DigitsAreInert(d);
    LowerAppend(d, [text[|d|]]);
    assert Lower([text[|d|]]) == [unit];
    ParseLowerUnit(d, [unit]);
  }

  lemma FormatShape(digits: string, unit: char, shown: string)
    requires AllDigits(digits)
    requires shown == digits + [unit] || shown == Lower(digits + [unit])
    ensures |shown| == |digits| + 1 && shown[..|digits|] == digits
    ensures shown[|digits|] == unit || shown[|digits|] == LowerChar(unit)
  {
    forall i | 0 <= i < |digits| ensures shown[i] == digits[i] {
      assert IsDigit(digits[i]) && (digits + [unit])[i] == digits[i];
    }
  }

  lemma WholeMillions(tokens: nat, n: nat)
    requires tokens % 1_000_000 == 0 && n == tokens / 1_000_000
    ensures n * 1_000_000 == tokens && tokens % 1_000 == 0
  {
    assert tokens == 1_000 * (1_000 * n);
  }

  lemma ParseOfUnit(n: nat, printed: char, unit: char, factor: nat, shown: string)
    requires n <= U64_MAX
    requires (printed == unit == 'k' && factor == 1_000) || (printed == 'M' && unit == 'm' && factor == 1_000_000)
    requires shown == Decimal(n) + [printed] || shown == Lower(Decimal(n) + [printed])
    ensures ParseText(shown) == CheckedMul(Some(n), factor)
  {
    DecimalValue(n);
    FormatShape(Decimal(n), printed, shown);
    ParseUnit(n, unit, factor, shown);
  }

  /**
   * Printing a window and parsing it back, in either letter case, rounds down to a whole
   * thousand; nothing overflows, and only windows below the minimum are refused.
   */
  lemma ParseOfFormat(tokens: nat, shown: string)
    requires tokens <= U64_MAX
    requires shown == Format(tokens) || shown == Lower(Format(tokens))
    ensures ParseTokens(Str(shown)) == if tokens >= MIN_TOKENS then Some(tokens - tokens % 1_000) else None
  {
    if tokens >= 1_000_000 && tokens % 1_000_000 == 0 {
      var n := tokens / 1_000_000;
      WholeMillions(tokens, n);
      ParseOfUnit(n, 'M', 'm', 1_000_000, shown);
    } else {
      var n := tokens / 1_000;
      Thousands(tokens, n);
      ParseOfUnit(n, 'k', 'k', 1_000, shown);
    }
  }

  lemma Thousands(tokens: nat, n: nat)
    requires n == tokens / 1_000
    ensures n * 1_000 == tokens - tokens % 1_000
    ensures n * 1_000 >= MIN_TOKENS <==> tokens >= MIN_TOKENS
  {
  }

  /**
   * A generated selector resolves back to the fixed window, both as the default and as the
   * largest preset, exactly for whole thousands that reach the minimum.
   */
  lemma FixedSelectorResolves(tokens: nat)
    requires tokens <= U64_MAX
    ensures var selector := FixedSelector(tokens);
      && LargestPreset(selector.presets) == Selected(Some(selector), None)
      && (Selected(Some(selector), None) == Some(tokens) <==> tokens >= MIN_TOKENS && tokens % 1_000 == 0)
  {
    var value := Lower(Format(tokens));
    ParseOfFormat(tokens, value);
    OnlyPreset(value);
  }

  lemma OnlyPreset(value: string)
    ensures LargestPreset([value]) == ParseTokens(Str(value))
  {
    assert LargestPreset([value][1..]) == None;
  }

  /** The largest preset is the greatest window any preset names. */
  lemma {:induction false} LargestIsGreatest(presets: seq<string>)
    ensures forall i :: 0 <= i < |presets| && ParseTokens(Str(presets[i])).Some? ==>
      LargestPreset(presets).Some? && ParseTokens(Str(presets[i])).value <= LargestPreset(presets).value
    ensures LargestPreset(presets).Some? ==>
      exists i :: 0 <= i < |presets| && ParseTokens(Str(presets[i])) == LargestPreset(presets)
  {
    if presets != [] {
      var rest := presets[1..];
      LargestIsGreatest(rest);
      assert forall i :: 1 <= i < |presets| ==> presets[i] == rest[i - 1];
      if LargestPreset(rest).Some? {
        var j :| 0 <= j < |rest| && ParseTokens(Str(rest[j])) == LargestPreset(rest);
        assert presets[j + 1] == rest[j];
      }
    }
  }

  // ---------------------------------------------------------------- the grammar of texts

  /** A numeral as a user may write it: `200k`, `+1M`, `500000`, with whitespace around it. */
  datatype Written = Written(lead: string, plus: bool, digits: string, unit: string, trail: string)

  predicate IsWritten(w: Written) {
    && Blank(w.lead) && Blank(w.trail)
    && w.digits != [] && AllDigits(w.digits)
    && (w.unit == "" || w.unit == "k" || w.unit == "K" || w.unit == "m" || w.unit == "M")
  }

  function Numeral(w: Written): string {
    (if w.plus then "+" else "") + w.digits
  }

  function Spelled(w: Written): string {
    w.lead + (Numeral(w) + w.unit) + w.trail
  }

  /** Thousands, millions, or by themselves; a bare number below a thousand counts thousands. */
  function Factor(n: nat, unit: string): nat {
    if unit == "k" || unit == "K" then 1_000
    else if unit == "m" || unit == "M" then 1_000_000
    else if n < 1_000 then 1_000 else 1
  }

  function Meaning(w: Written): Option<nat>
    requires IsWritten(w)
  {
    var n := DigitsValue(w.digits);
    var tokens := n * Factor(n, w.unit);
    if n <= U64_MAX && MIN_TOKENS <= tokens <= U64_MAX then Some(tokens) else None
  }

  lemma LowerAppend(a: string, b: string)
    ensures Lower(a + b) == Lower(a) + Lower(b)
  {
  }

  lemma SignedDigits(plus: bool, digits: string)
    requires digits != [] && AllDigits(digits)
    ensures var numeral := (if plus then "+" else "") + digits;
      && ParseU64(numeral) == (if DigitsValue(digits) <= U64_MAX then Some(DigitsValue(digits)) else None)
      && !IsWhitespace(numeral[0]) && IsDigit(numeral[|numeral| - 1])
  {
    var numeral := (if plus then "+" else "") + digits;
    assert numeral[|numeral| - 1] == digits[|digits| - 1];
    if plus {
      assert numeral[0] == '+' && numeral[1..] == digits;
    } else {
      assert numeral == digits;
      assert IsDigit(numeral[0]) && numeral[0] != '+';
    }
  }

  lemma LowerNumeral(plus: bool, digits: string)
    requires AllDigits(digits)
    ensures var numeral := (if plus then "+" else "") + digits; Lower(numeral) == numeral
  {
    var numeral := (if plus then "+" else "") + digits;
    forall i | 0 <= i < |numeral| ensures LowerChar(numeral[i]) == numeral[i] {
      assert numeral[i] == '+' || IsDigit(numeral[i]);
    }
  }

  lemma ParseLowerUnit(numeral: string, unit: string)
    requires numeral != [] && IsDigit(numeral[|numeral| - 1])
    ensures unit == "k" ==> ParseLower(numeral + unit) == CheckedMul(ParseU64(numeral), 1_000)
    ensures unit == "m" ==> ParseLower(numeral + unit) == CheckedMul(ParseU64(numeral), 1_000_000)
    ensures var plain := ParseU64(numeral);
      unit == "" ==>
        ParseLower(numeral + unit) == (if plain.Some? && plain.value < 1_000 then CheckedMul(plain, 1_000) else plain)
  {
    var value := numeral + unit;
    if unit == "" {
      assert value == numeral;
    } else if |unit| == 1 {
      assert value[..|value| - 1] == numeral && value[|value| - 1] == unit[0];
    }
  }

  lemma LowerCore(w: Written)
    requires IsWritten(w)
    ensures Lower(Trim(Spelled(w))) == Numeral(w) + Lower(w.unit)
  {
    var core := Numeral(w) + w.unit;
    SignedDigits(w.plus, w.digits);
    assert core[0] == Numeral(w)[0];
    assert core[|core| - 1] == if w.unit == "" then Numeral(w)[|Numeral(w)| - 1] else w.unit[0];
    TrimCore(w.lead, core, w.trail);
    LowerNumeral(w.plus, w.digits);
    LowerAppend(Numeral(w), w.unit);
  }

  /** Whatever is written by the grammar is read as what it means. */
  lemma WrittenIsRead(w: Written)
    requires IsWritten(w)
    ensures ParseTokens(Str(Spelled(w))) == Meaning(w)
  {
    LowerCore(w);
    SignedDigits(w.plus, w.digits);
    LowerUnit(w.unit);
    ParseLowerUnit(Numeral(w), Lower(w.unit));
    MultipliedIs(DigitsValue(w.digits), w.unit);
  }

  lemma LowerUnit(unit: string)
    ensures unit == "k" || unit == "K" ==> Lower(unit) == "k"
    ensures unit == "m" || unit == "M" ==> Lower(unit) == "m"
    ensures unit == "" ==> Lower(unit) == ""
  {
  }

  lemma MultipliedIs(n: nat, unit: string)
    ensures var factor := Factor(n, unit); n > U64_MAX ==> n * factor > U64_MAX
  {
  }

  lemma LowerDigits(text: string, digits: string)
    requires Lower(text) == digits && AllDigits(digits)
    ensures text == digits
  {
    assert forall i :: 0 <= i < |text| ==> IsDigit(LowerChar(text[i]));
  }

  /** A text that reads as a number in lower case is a numeral as it stands. */
  lemma NumeralOf(text: string) returns (plus: bool, digits: string)
    requires ParseU64(Lower(text)).Some?
    ensures digits != [] && AllDigits(digits) && text == (if plus then "+" else "") + digits
  {
    plus := text[0] == '+';
    digits := if plus then text[1..] else text;
    assert Lower(text)[0] == LowerChar(text[0]);
    if plus {
      assert Lower(text)[1..] == Lower(text[1..]);
      assert text == "+" + text[1..];
    }
    LowerDigits(digits, Lower(digits));
  }

  /** The unit a text carries, and what stands before it. */
  lemma UnitOf(core: string) returns (numeral: string, unit: string)
    requires ParseLower(Lower(core)).Some?
    ensures core == numeral + unit && ParseU64(Lower(numeral)).Some?
    ensures unit == "" || unit == "k" || unit == "K" || unit == "m" || unit == "M"
  {
    var n := |core| - 1;
    if core != [] && (LowerChar(core[n]) == 'k' || LowerChar(core[n]) == 'm') {
      numeral, unit := core[..n], [core[n]];
      assert Lower(core)[..n] == Lower(numeral);
    } else {
      numeral, unit := core, "";
    }
  }

  /** And whatever is read as tokens was written by the grammar. */
  lemma ReadIsWritten(text: string) returns (w: Written)
    requires ParseTokens(Str(text)).Some?
    ensures IsWritten(w) && Spelled(w) == text
  {
    var lead, trail := TrimParts(text);
    var numeral, unit := UnitOf(Trim(text));
    var plus, digits := NumeralOf(numeral);
    w := Written(lead, plus, digits, unit, trail);
  }
}
