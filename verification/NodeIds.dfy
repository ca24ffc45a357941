/** Textual form of the 128-bit node and edge IDs.
    An ID is shown as a kind, an underscore and 32 lower-case hexadecimal digits. The readers accept more: fewer
    digits, upper case, a leading plus, and a long and a short name of the symbol kind; what they refuse is a number
    that needs more than 128 bits, any other character, and an unknown kind. Showing what was read gives the one
    normal form. */
module NodeIds {
  import opened Options

  const LIMIT: nat := 0x1_0000_0000_0000_0000_0000_0000_0000_0000

  type U128 = n: nat | n < LIMIT

  datatype NodeId = File(id: U128) | Symbol(id: U128) | Concept(id: U128)

  // ---- hexadecimal ----

  function Pow16(k: nat): (p: nat)
    ensures p > 0
  {
    if k == 0 then 1 else 16 * Pow16(k - 1)
  }

  predicate IsHex(c: char) {
    '0' <= c <= '9' || 'a' <= c <= 'f' || 'A' <= c <= 'F'
  }

  function HexValue(c: char): (v: nat)
    requires IsHex(c)
    ensures v < 16
  {
    if '0' <= c <= '9' then c as int - '0' as int
    else if 'a' <= c <= 'f' then c as int - 'a' as int + 10
    else c as int - 'A' as int + 10
  }

  const LOWER_DIGITS := "0123456789abcdef"
  const UPPER_DIGITS := "0123456789ABCDEF"

  /** The digits are these and no others, each with the value of its place. */
  lemma DigitsAre(c: char, i: nat)
    ensures IsHex(c) <==> c in LOWER_DIGITS || c in UPPER_DIGITS
    ensures i < 16 ==> IsHex(LOWER_DIGITS[i]) && HexValue(LOWER_DIGITS[i]) == i
    ensures i < 16 ==> IsHex(UPPER_DIGITS[i]) && HexValue(UPPER_DIGITS[i]) == i
  {
    if '0' <= c <= '9' {
      assert LOWER_DIGITS[c as int - '0' as int] == c;
    } else if 'a' <= c <= 'f' {
      assert LOWER_DIGITS[c as int - 'a' as int + 10] == c;
    } else if 'A' <= c <= 'F' {
      assert UPPER_DIGITS[c as int - 'A' as int + 10] == c;
    }
  }

  predicate AllHex(s: string) {
    forall i :: 0 <= i < |s| ==> IsHex(s[i])
  }

  function Value(s: string): nat
    requires AllHex(s)
  {
    if s == "" then 0 else 16 * Value(s[..|s| - 1]) + HexValue(s[|s| - 1])
  }

  function HexDigit(v: nat): (c: char)
    requires v < 16
    ensures IsHex(c) && HexValue(c) == v && !('A' <= c <= 'F')
  {
    if v < 10 then ('0' as int + v) as char else ('a' as int + v - 10) as char
  }

  /** `k` lower-case digits, zero-padded. */
  function Padded(n: nat, k: nat): (s: string)
    ensures |s| == k && AllHex(s)
  {
    if k == 0 then "" else Padded(n / 16, k - 1) + [HexDigit(n % 16)]
  }

  lemma {:induction false} PaddedValue(n: nat, k: nat)
    requires n < Pow16(k)
    ensures Value(Padded(n, k)) == n
  {
    if k > 0 {
      PaddedValue(n / 16, k - 1);
      assert Padded(n, k)[..k - 1] == Padded(n / 16, k - 1);
    }
  }

  lemma LimitIsPower()
    ensures Pow16(32) == LIMIT
  {
    assert Pow16(8) == 0x1_0000_0000;
    assert Pow16(16) == 0x1_0000_0000_0000_0000;
    assert Pow16(24) == 0x1_0000_0000_0000_0000_0000_0000;
  }

  /** The digits after an optional plus sign. */
  function Unsigned(s: string): string {
    if s != "" && s[0] == '+' then s[1..] else s
  }

  predicate IsNumber(s: string) {
    Unsigned(s) != "" && AllHex(Unsigned(s)) && Value(Unsigned(s)) < LIMIT
  }

  /** What `from_str_radix(s, 16)` yields for a 128-bit unsigned integer. */
  function Number(s: string): Option<U128> {
    if IsNumber(s) then Some(Value(Unsigned(s))) else None
  }

  lemma {:induction false} ValueGrows(s: string, n: nat)
    requires AllHex(s) && n <= |s|
    ensures Value(s[..n]) <= Value(s)
    decreases |s|
  {
    if n < |s| {
      ValueGrows(s[..|s| - 1], n);
      assert s[..|s| - 1][..n] == s[..n];
    } else {
      assert s[..n] == s;
    }
  }

  /** The digit loop with its checked multiplication and addition: it accepts exactly the non-empty digit strings
      whose value is below 2^128, however many leading zeros they have. */
  method FromStrRadix16(s: string) returns (r: Option<U128>)
    ensures r == Number(s)
  {
    if s == "" || ((s[0] == '+' || s[0] == '-') && |s| == 1) { return None; }
    var digits := if s[0] == '+' then s[1..] else s;
    var n: nat := 0;
    for i := 0 to |digits|
      invariant AllHex(digits[..i]) && n == Value(digits[..i]) && n < LIMIT
    {
      if !IsHex(digits[i]) { return None; }
      assert digits[..i + 1][..i] == digits[..i];
      ghost var next := Value(digits[..i + 1]);
      if AllHex(digits) { ValueGrows(digits, i + 1); }
      if n * 16 >= LIMIT { return None; }
      n := n * 16;
      if n + HexValue(digits[i]) >= LIMIT { return None; }
      n := n + HexValue(digits[i]);
    }
    assert digits[..|digits|] == digits;
    r := Some(n);
  }

  // ---- the IDs ----

  function ParsePrefixed(s: string, prefix: string): Option<U128> {
    if prefix <= s then Number(s[|prefix|..]) else None
  }

  function ParseFile(s: string): Option<U128> {
    ParsePrefixed(s, "file_")
  }

  function ParseSymbol(s: string): Option<U128> {
    var r := ParsePrefixed(s, "sym_");
    if r.Some? then r else ParsePrefixed(s, "symbol_")
  }

  function ParseConcept(s: string): Option<U128> {
    ParsePrefixed(s, "concept_")
  }

  function Parse(s: string): Option<NodeId> {
    if ParseFile(s).Some? then Some(File(ParseFile(s).value))
    else if ParseSymbol(s).Some? then Some(Symbol(ParseSymbol(s).value))
    else if ParseConcept(s).Some? then Some(Concept(ParseConcept(s).value))
    else None
  }

  function Prefix(id: NodeId): string {
    match id
    case File(_) => "file_"
    case Symbol(_) => "sym_"
    case Concept(_) => "concept_"
  }

  function Display(id: NodeId): string {
    Prefix(id) + Padded(id.id, 32)
  }

  lemma PrefixedRoundTrip(prefix: string, n: U128)
    ensures ParsePrefixed(prefix + Padded(n, 32), prefix) == Some(n)
  {
    LimitIsPower();
    PaddedValue(n, 32);
    var digits := Padded(n, 32);
    assert (prefix + digits)[|prefix|..] == digits && IsHex(digits[0]);
  }

  lemma NoTwoPrefixes(s: string)
    ensures "file_" <= s ==> !("sym_" <= s) && !("symbol_" <= s) && !("concept_" <= s)
    ensures "concept_" <= s ==> !("sym_" <= s) && !("symbol_" <= s)
    ensures !("sym_" <= s && "symbol_" <= s)
  {
    if "file_" <= s { assert s[0] == "file_"[0]; }
    if "concept_" <= s { assert s[0] == "concept_"[0]; }
    if "symbol_" <= s { assert s[0] == "symbol_"[0] && s[3] == "symbol_"[3]; }
    if "sym_" <= s { assert s[0] == "sym_"[0] && s[3] == "sym_"[3]; }
  }

  /** At most one of the four prefixes is accepted for a text, so the order in which they are tried does not matter:
      each kind is read exactly by its own reader. */
  lemma ParsersExclude(s: string, n: U128)
    ensures Parse(s) == Some(File(n)) <==> ParseFile(s) == Some(n)
    ensures Parse(s) == Some(Symbol(n)) <==> ParseSymbol(s) == Some(n)
    ensures Parse(s) == Some(Concept(n)) <==> ParseConcept(s) == Some(n)
    ensures ParsePrefixed(s, "sym_").None? || ParsePrefixed(s, "symbol_").None?
  {
    NoTwoPrefixes(s);
  }

  /** Reading inverts display, for every ID of every kind. */
  lemma RoundTrip(id: NodeId)
    ensures Parse(Display(id)) == Some(id)
  {
    PrefixedRoundTrip(Prefix(id), id.id);
    ParsersExclude(Display(id), id.id);
  }

  function Lower(c: char): char {
    if 'A' <= c <= 'F' then (c as int + 32) as char else c
  }

  function LowerAll(s: string): (r: string)
    ensures |r| == |s|
  {
    if s == "" then "" else LowerAll(s[..|s| - 1]) + [Lower(s[|s| - 1])]
  }

  lemma {:induction false} LowerSame(s: string)
    requires AllHex(s)
    ensures AllHex(LowerAll(s)) && Value(LowerAll(s)) == Value(s)
  {
    if s != "" {
      LowerSame(s[..|s| - 1]);
      assert LowerAll(s)[..|s| - 1] == LowerAll(s[..|s| - 1]);
    }
  }

  lemma {:induction false} ValueBelow(s: string)
    requires AllHex(s)
    ensures Value(s) < Pow16(|s|)
  {
    if s != "" { ValueBelow(s[..|s| - 1]); }
  }

  /** Digits of width `k` are the padded form of their value, up to case. */
  lemma {:induction false} PaddedOfValue(s: string)
    requires AllHex(s)
    ensures Padded(Value(s), |s|) == LowerAll(s)
  {
    if s != "" {
      var n := |s| - 1;
      PaddedOfValue(s[..n]);
      assert Value(s) / 16 == Value(s[..n]) && Value(s) % 16 == HexValue(s[n]);
      assert HexDigit(HexValue(s[n])) == Lower(s[n]);
    }
  }

  /** Display is the only lower-case form of full width: a text of the right prefix with 32 digits is displayed back as
      itself, up to the case of its digits. */
  lemma FullWidthIsCanonical(digits: string)
    requires AllHex(digits) && |digits| == 32
    ensures Number(digits).Some? && Padded(Number(digits).value, 32) == LowerAll(digits)
  {
    LimitIsPower();
    ValueBelow(digits);
    PaddedOfValue(digits);
  }

  /** Display after parse is idempotent: whatever form a text has (short, upper-case, plus-signed, `symbol_`), the form
      it is displayed in reads as the same ID, and that form does not change any more. */
  lemma DisplayIsNormal(s: string)
    ensures Parse(s).Some? ==>
      var shown := Display(Parse(s).value);
      Parse(shown) == Parse(s) && Display(Parse(shown).value) == shown
  {
    if Parse(s).Some? { RoundTrip(Parse(s).value); }
  }

  /** Exactly the texts of one kind and one value are displayed alike. */
  lemma SameDisplayIff(s: string, t: string)
    requires Parse(s).Some? && Parse(t).Some?
    ensures Display(Parse(s).value) == Display(Parse(t).value) <==> Parse(s) == Parse(t)
  {
    RoundTrip(Parse(s).value);
    RoundTrip(Parse(t).value);
  }
}
