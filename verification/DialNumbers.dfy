/** Telephone numbers: the control API's normalisers (Go) and the dashboard's (TypeScript), on ASCII text. */
module DialNumbers {
  import Text

  /** The dashboard's picker, in its order; the control API keeps the same codes as a set. */
  const PICKER: seq<string> := ["+91", "+1", "+44", "+61", "+65", "+971"]

  predicate Supported(region: string) { region in PICKER }

  const FALLBACK_REGION := "+91"

  predicate AllDigits(text: string) { forall i | 0 <= i < |text| :: Text.IsDigit(text[i]) }

  predicate AllZeros(text: string) { forall i | 0 <= i < |text| :: text[i] == '0' }

  function Digits(text: string): string {
    if text == [] then [] else (if Text.IsDigit(text[0]) then [text[0]] else []) + Digits(text[1..])
  }

  function StripZeros(text: string): string { if text != [] && text[0] == '0' then StripZeros(text[1..]) else text }

  predicate StartsWith(text: string, prefix: string) { |prefix| <= |text| && text[..|prefix|] == prefix }

  // ---- The control API ----

  function NormalizeDialRegion(region: string): string {
    if Supported(Text.Trim(region)) then Text.Trim(region) else FALLBACK_REGION
  }

  function NormalizeDialNumber(phone: string, region: string): string {
    var trimmed := Text.Trim(phone);
    var digits := Digits(trimmed);
    if trimmed == "" || digits == "" then ""
    else if StartsWith(trimmed, "+") then "+" + digits
    else if StripZeros(digits) == "" then ""
    else NormalizeDialRegion(region) + StripZeros(digits)
  }

  function CanonicalE164(value: string): string {
    var digits := Digits(Text.Trim(value));
    if |digits| < 7 || |digits| > 15 || !StartsWith(Text.Trim(value), "+") then "" else "+" + digits
  }

  // ---- The dashboard ----

  function NormalizePhone(phone: string, region: string): string {
    var trimmed := Text.Trim(phone);
    var digits := Digits(trimmed);
    if digits == "" then "" else if StartsWith(trimmed, "+") then "+" + digits else region + StripZeros(digits)
  }

  function NormalizeE164(phone: string): string {
    if Digits(Text.Trim(phone)) == "" then "" else "+" + Digits(Text.Trim(phone))
  }

  /** A stable sort by falling length: where a code goes among sorted ones that stood after it. */
  function Insert(code: string, sorted: seq<string>): seq<string> {
    if sorted == [] || |code| >= |sorted[0]| then [code] + sorted else [sorted[0]] + Insert(code, sorted[1..])
  }

  function LongestFirst(codes: seq<string>): seq<string> {
    if codes == [] then [] else Insert(codes[0], LongestFirst(codes[1..]))
  }

  /** The first code whose digits begin the number. */
  function FirstMatch(codes: seq<string>, digits: string, fallback: string): string {
    if codes == [] then fallback
    else if StartsWith(digits, Digits(codes[0])) then codes[0]
    else FirstMatch(codes[1..], digits, fallback)
  }

  function RegionForPhone(phone: string, fallback: string): string {
    FirstMatch(LongestFirst(PICKER), Digits(phone), fallback)
  }

  function LocalDigitsForRegion(phone: string, region: string): string {
    if StartsWith(Digits(phone), Digits(region)) then Digits(phone)[|Digits(region)|..] else Digits(phone)
  }

  // ---- Digits and spaces ----

  lemma {:induction false} DigitsAreDigits(text: string)
    ensures AllDigits(Digits(text))
  {
    if text != [] { DigitsAreDigits(text[1..]); }
  }

  lemma {:induction false} DigitsKept(text: string)
    requires AllDigits(text)
    ensures Digits(text) == text
  {
    if text != [] { DigitsKept(text[1..]); }
  }

  lemma {:induction false} StripZerosKeepsDigits(text: string)
    requires AllDigits(text)
    ensures AllDigits(StripZeros(text)) && (StripZeros(text) == "" <==> AllZeros(text))
  {
    if text != [] && text[0] == '0' {
      StripZerosKeepsDigits(text[1..]);
      assert forall i | 0 < i < |text| :: text[i] == text[1..][i - 1];
      if AllZeros(text[1..]) { forall i | 0 <= i < |text| ensures text[i] == '0' { if i > 0 { assert text[1..][i - 1] == '0'; } } }
    }
  }

  /** A plus and digits has no space to trim, and its digits are what follows the plus. */
  lemma PlusDigits(digits: string)
    requires AllDigits(digits) && digits != ""
    ensures Text.Trim("+" + digits) == "+" + digits && Digits("+" + digits) == digits && StartsWith("+" + digits, "+")
  {
    var whole := "+" + digits;
    assert whole[|whole| - 1] == digits[|digits| - 1];
    assert whole[1..] == digits;
    DigitsKept(digits);
  }

  predicate IsCode(code: string) { code in PICKER }

  /** The codes, spelled out. */
  lemma CodeIs(code: string)
    requires IsCode(code)
    ensures code == "+91" || code == "+1" || code == "+44" || code == "+61" || code == "+65" || code == "+971"
    ensures AllDigits(code[1..]) && code[1..] != "" && code == "+" + code[1..]
  {
  }

  lemma Codes(code: string)
    requires IsCode(code)
    ensures code == "+" + Digits(code) && Digits(code) != "" && AllDigits(Digits(code))
  {
    CodeIs(code);
    DigitsKept(code[1..]);
  }

  lemma RegionIsCode(region: string)
    ensures IsCode(NormalizeDialRegion(region))
  {
    assert PICKER[0] == FALLBACK_REGION;
  }

  // ---- The control API's dialled form ----

  // What the parts are, without naming them.

  /** Digits are picked character by character. */
  lemma {:induction false} DigitsOfBoth(a: string, b: string)
    ensures Digits(a + b) == Digits(a) + Digits(b)
  {
    if a == "" {
      assert a + b == b;
    } else {
      assert (a + b)[1..] == a[1..] + b;
      DigitsOfBoth(a[1..], b);
    }
  }

  /** The places of the digits of the text, in order. */
  ghost predicate Places(text: string, at: seq<nat>) {
    && (forall i | 0 <= i < |at| :: at[i] < |text|) && (forall i, j | 0 <= i < j < |at| :: at[i] < at[j])
    && forall k: nat | k < |text| :: k in at <==> '0' <= text[k] <= '9'
  }

  ghost predicate At(text: string, digits: string, at: seq<nat>) {
    Places(text, at) && |at| == |digits| && forall i | 0 <= i < |digits| :: digits[i] == text[at[i]]
  }

  /** The digits of the text, in order. */
  ghost predicate DigitsOf(text: string, digits: string) { exists at: seq<nat> :: At(text, digits, at) }

  lemma {:induction false} DigitsAre(text: string) returns (at: seq<nat>)
    ensures At(text, Digits(text), at)
  {
    if text == "" {
      at := [];
    } else {
      var k := |text| - 1;
      at := DigitsAre(text[..k]);
      assert text == text[..k] + [text[k]];
      DigitsOfBoth(text[..k], [text[k]]);
      assert Digits([text[k]]) == if Text.IsDigit(text[k]) then [text[k]] else [];
      at := NextPlace(text[..k], text[k], Digits(text[..k]), at);
    }
  }

  lemma NextPlace(text: string, c: char, digits: string, at: seq<nat>) returns (more: seq<nat>)
    requires At(text, digits, at)
    ensures At(text + [c], if '0' <= c <= '9' then digits + [c] else digits, more)
  {
    var whole := text + [c];
    more := if '0' <= c <= '9' then at + [|text|] else at;
    forall j: nat | j < |whole| ensures j in more <==> '0' <= whole[j] <= '9' {
      if j == |text| { assert j !in at; }
    }
  }

  /** Without white space at its ends. */
  ghost predicate Trims(text: string, trimmed: string) {
    && (exists before, after :: text == before + trimmed + after && Text.AllSpaces(before) && Text.AllSpaces(after))
    && (trimmed != "" ==> trimmed[0] !in Text.SPACES && trimmed[|trimmed| - 1] !in Text.SPACES)
  }

  lemma TrimTrims(text: string)
    ensures Trims(text, Text.Trim(text))
  {
    var before, after := Text.TrimIs(text);
  }

  /** What is left from the first character on that is no zero. */
  ghost predicate FromNonZero(digits: string, rest: string) {
    exists k: nat :: k < |digits| && digits[k] != '0' && rest == digits[k..] && forall i | 0 <= i < k :: digits[i] == '0'
  }

  lemma {:induction false} StripZerosIs(text: string)
    requires !AllZeros(text)
    ensures FromNonZero(text, StripZeros(text)) && StripZeros(text) != ""
  {
    if text[0] == '0' {
      forall i | 0 <= i < |text| ensures text[i] == '0' || !AllZeros(text[1..]) { if i > 0 { assert text[1..][i - 1] == text[i]; } }
      StripZerosIs(text[1..]);
      var k: nat :| k < |text[1..]| && text[1..][k] != '0' && StripZeros(text[1..]) == text[1..][k..] && forall i | 0 <= i < k :: text[1..][i] == '0';
      assert text[k + 1] != '0' && text[1..][k..] == text[k + 1..];
      forall i | 0 <= i < k + 1 ensures text[i] == '0' { if i > 0 { assert text[1..][i - 1] == text[i]; } }
    } else {
      assert text[0..] == text;
    }
  }

  /** The region's code: the trimmed region where it is a supported one, else that of India. */
  ghost predicate CodeFor(region: string, code: string) {
    exists trimmed :: Trims(region, trimmed) && code == if trimmed in ["+91", "+1", "+44", "+61", "+65", "+971"] then trimmed else "+91"
  }

  lemma RegionCode(region: string)
    ensures CodeFor(region, NormalizeDialRegion(region))
  {
    TrimTrims(region);
    assert PICKER == ["+91", "+1", "+44", "+61", "+65", "+971"];
  }

  /** What is dialled for a trimmed number with these digits: with a plus the digits; without one the code and the digits
      from the first on that is no zero; and nothing where there is no such digit. */
  ghost predicate Dials(trimmed: string, digits: string, code: string, dialled: string) {
    if digits == "" then dialled == ""
    else if trimmed != "" && trimmed[0] == '+' then dialled == "+" + digits
    else if AllZeros(digits) then dialled == ""
    else exists rest :: FromNonZero(digits, rest) && dialled == code + rest
  }

  /** What is dialled is made of exactly the digits of the number, in order, as the plus or the region says. It is empty,
      or a plus and digits. */
  lemma DialledForm(phone: string, region: string)
    ensures exists trimmed, digits, code :: Trims(phone, trimmed) && DigitsOf(trimmed, digits) && CodeFor(region, code)
                                            && Dials(trimmed, digits, code, NormalizeDialNumber(phone, region))
    ensures var dialled := NormalizeDialNumber(phone, region);
      dialled == "" || (|dialled| > 1 && dialled[0] == '+' && AllDigits(dialled[1..]))
  {
    var trimmed := Text.Trim(phone);
    TrimTrims(phone);
    var at := DigitsAre(trimmed);
    RegionCode(region);
    DialledIs(phone, region);
    assert Trims(phone, trimmed) && DigitsOf(trimmed, Digits(trimmed)) && CodeFor(region, NormalizeDialRegion(region));
    PlusOrNothing(phone, region);
  }

  lemma DialledIs(phone: string, region: string)
    ensures Dials(Text.Trim(phone), Digits(Text.Trim(phone)), NormalizeDialRegion(region), NormalizeDialNumber(phone, region))
  {
    var digits := Digits(Text.Trim(phone));
    DigitsAreDigits(Text.Trim(phone));
    StripZerosKeepsDigits(digits);
    if !AllZeros(digits) { StripZerosIs(digits); }
  }

  lemma PlusOrNothing(phone: string, region: string)
    ensures var dialled := NormalizeDialNumber(phone, region);
      dialled == "" || (|dialled| > 1 && dialled[0] == '+' && AllDigits(dialled[1..]))
  {
    var digits := Digits(Text.Trim(phone));
    DigitsAreDigits(Text.Trim(phone));
    StripZerosKeepsDigits(digits);
    RegionIsCode(region);
    Codes(NormalizeDialRegion(region));
    var code := NormalizeDialRegion(region);
    assert (code + StripZeros(digits))[1..] == code[1..] + StripZeros(digits);
    assert code[1..] == Digits(code);
  }

  /** The dashboard's two forms of a trimmed number with these digits: as it is dialled, but for the bare region where
      there are zeros only and no plus; and a plus before the digits. */
  ghost predicate Shows(trimmed: string, digits: string, region: string, phone: string, canonical: string) {
    && (if digits != "" && trimmed != "" && trimmed[0] != '+' && AllZeros(digits) then phone == region else Dials(trimmed, digits, region, phone))
    && canonical == if digits == "" then "" else "+" + digits
  }

  /** What the dashboard shows is made of exactly the digits of the number too. */
  lemma DashboardForm(phone: string, region: string)
    ensures exists trimmed, digits :: Trims(phone, trimmed) && DigitsOf(trimmed, digits)
                                      && Shows(trimmed, digits, region, NormalizePhone(phone, region), NormalizeE164(phone))
  {
    var trimmed := Text.Trim(phone);
    TrimTrims(phone);
    var at := DigitsAre(trimmed);
    ShowsIt(phone, region);
    assert DigitsOf(trimmed, Digits(trimmed));
  }

  lemma ShowsIt(phone: string, region: string)
    ensures Shows(Text.Trim(phone), Digits(Text.Trim(phone)), region, NormalizePhone(phone, region), NormalizeE164(phone))
  {
    var digits := Digits(Text.Trim(phone));
    DigitsAreDigits(Text.Trim(phone));
    StripZerosKeepsDigits(digits);
    if !AllZeros(digits) { StripZerosIs(digits); }
  }

  /** It is empty exactly when there is no digit, or only zeros and no plus. */
  lemma DialledEmpty(phone: string, region: string)
    ensures var trimmed := Text.Trim(phone);
      NormalizeDialNumber(phone, region) == "" <==>
        Digits(trimmed) == "" || (!StartsWith(trimmed, "+") && AllZeros(Digits(trimmed)))
  {
    DigitsAreDigits(Text.Trim(phone));
    StripZerosKeepsDigits(Digits(Text.Trim(phone)));
    RegionIsCode(region);
    Codes(NormalizeDialRegion(region));
  }

  /** A dialled number is dialled as it is, whatever region is asked for later. */
  lemma DialledIsFixed(phone: string, region: string, later: string)
    ensures NormalizeDialNumber(NormalizeDialNumber(phone, region), later) == NormalizeDialNumber(phone, region)
  {
    var dialled := NormalizeDialNumber(phone, region);
    DialledForm(phone, region);
    if dialled != "" {
      assert dialled == "+" + dialled[1..];
      PlusDigits(dialled[1..]);
    }
  }

  // ---- Two implementations ----

  /** For a supported region the control API and the dashboard agree, except exactly on numbers without a plus
      whose digits, of which there are some, are all zeros: there the dashboard yields the bare region code. */
  lemma ApiAndDashboardAgree(phone: string, region: string)
    requires Supported(region)
    ensures var trimmed := Text.Trim(phone);
      NormalizeDialNumber(phone, region) == NormalizePhone(phone, region) <==>
        !(Digits(trimmed) != "" && !StartsWith(trimmed, "+") && AllZeros(Digits(trimmed)))
  {
    var digits := Digits(Text.Trim(phone));
    DigitsAreDigits(Text.Trim(phone));
    StripZerosKeepsDigits(digits);
    Codes(region);
    SupportedIsTrimmed(region);
  }

  lemma SupportedIsTrimmed(region: string)
    requires Supported(region)
    ensures Text.Trim(region) == region
  {
    Codes(region);
    PlusDigits(Digits(region));
  }

  // ---- Canonical numbers ----

  /** A canonical number has 7 to 15 digits, is its own canonical form, and is what both sides dial. */
  lemma Canonical(value: string, region: string)
    requires CanonicalE164(value) != ""
    ensures var canonical := CanonicalE164(value);
      && 8 <= |canonical| <= 16 && canonical[0] == '+' && AllDigits(canonical[1..])
      && CanonicalE164(canonical) == canonical
      && canonical == NormalizeDialNumber(value, region) == NormalizePhone(value, region) == NormalizeE164(value)
  {
    var digits := Digits(Text.Trim(value));
    DigitsAreDigits(Text.Trim(value));
    PlusDigits(digits);
    assert ("+" + digits)[1..] == digits;
  }

  /** What is dialled for the number does not depend on the region. */
  ghost predicate RegionFree(value: string) {
    forall region :: NormalizeDialNumber(value, region) == NormalizeDialNumber(value, FALLBACK_REGION)
  }

  /** A number has a canonical form exactly when what is dialled for it does not depend on the region and has 7 to
      15 digits. */
  lemma CanonicalIffRegionFree(value: string)
    ensures CanonicalE164(value) != "" <==> RegionFree(value) && 8 <= |NormalizeDialNumber(value, FALLBACK_REGION)| <= 16
  {
    var trimmed, digits := Text.Trim(value), Digits(Text.Trim(value));
    if !StartsWith(trimmed, "+") {
      SupportedIsTrimmed("+1");
      SupportedIsTrimmed(FALLBACK_REGION);
      if digits != "" && StripZeros(digits) != "" {
        assert NormalizeDialNumber(value, "+1") == "+1" + StripZeros(digits);
        assert |NormalizeDialNumber(value, "+1")| + 1 == |NormalizeDialNumber(value, FALLBACK_REGION)|;
      }
    } else if digits != "" {
      forall region ensures NormalizeDialNumber(value, region) == "+" + digits { }
    }
  }

  // ---- Region and local part ----

  lemma SameStart(a: string, b: string, k: nat)
    requires StartsWith(b, a) && k < |a|
    ensures k < |b| && a[k] == b[k]
  {
    assert b[..|a|][k] == b[k];
  }

  /** No code begins another. */
  lemma CodesPrefixFree(a: string, b: string)
    requires IsCode(a) && IsCode(b) && StartsWith(b, a)
    ensures a == b
  {
    CodeIs(a);
    CodeIs(b);
    SameStart(a, b, 1);
    if a != "+1" { SameStart(a, b, 2); }
  }

  lemma PlusStart(a: string, b: string)
    requires StartsWith(b, a)
    ensures StartsWith("+" + b, "+" + a)
  {
    assert ("+" + b)[..|a| + 1] == "+" + b[..|a|];
  }

  /** No code's digits begin another's. */
  lemma PrefixFree(a: string, b: string)
    requires IsCode(a) && IsCode(b) && StartsWith(Digits(b), Digits(a))
    ensures a == b
  {
    PlusStart(Digits(a), Digits(b));
    Codes(a);
    Codes(b);
    CodesPrefixFree(a, b);
  }

  /** At most one code's digits begin a number. */
  lemma OneRegion(digits: string, a: string, b: string)
    requires IsCode(a) && IsCode(b) && StartsWith(digits, Digits(a)) && StartsWith(digits, Digits(b))
    ensures a == b
  {
    if |Digits(a)| <= |Digits(b)| {
      assert Digits(b)[..|Digits(a)|] == digits[..|Digits(a)|];
      PrefixFree(a, b);
    } else {
      assert Digits(a)[..|Digits(b)|] == digits[..|Digits(b)|];
      PrefixFree(b, a);
    }
  }

  lemma {:induction false} InsertKeeps(code: string, sorted: seq<string>)
    ensures forall c :: c in Insert(code, sorted) <==> c == code || c in sorted
  {
    if sorted != [] && |code| < |sorted[0]| { InsertKeeps(code, sorted[1..]); }
  }

  lemma {:induction false} SortKeeps(codes: seq<string>)
    ensures forall c :: c in LongestFirst(codes) <==> c in codes
  {
    if codes != [] {
      SortKeeps(codes[1..]);
      InsertKeeps(codes[0], LongestFirst(codes[1..]));
    }
  }

  lemma {:induction false} MatchIs(codes: seq<string>, digits: string, fallback: string, region: string)
    requires region in codes && StartsWith(digits, Digits(region)) && forall c | c in codes :: IsCode(c)
    ensures FirstMatch(codes, digits, fallback) == region
  {
    if StartsWith(digits, Digits(codes[0])) {
      OneRegion(digits, codes[0], region);
    } else {
      MatchIs(codes[1..], digits, fallback, region);
    }
  }

  lemma {:induction false} NoMatch(codes: seq<string>, digits: string, fallback: string)
    requires forall c | c in codes :: !StartsWith(digits, Digits(c))
    ensures FirstMatch(codes, digits, fallback) == fallback
  {
    if codes != [] { NoMatch(codes[1..], digits, fallback); }
  }

  /** The region of a number is the one code that begins it, and the fallback where none does. */
  lemma RegionIs(phone: string, fallback: string)
    ensures forall c | IsCode(c) && StartsWith(Digits(phone), Digits(c)) :: RegionForPhone(phone, fallback) == c
    ensures (forall c | IsCode(c) :: !StartsWith(Digits(phone), Digits(c))) ==> RegionForPhone(phone, fallback) == fallback
  {
    SortKeeps(PICKER);
    forall c | IsCode(c) && StartsWith(Digits(phone), Digits(c)) ensures RegionForPhone(phone, fallback) == c {
      MatchIs(LongestFirst(PICKER), Digits(phone), fallback, c);
    }
    if forall c | IsCode(c) :: !StartsWith(Digits(phone), Digits(c)) { NoMatch(LongestFirst(PICKER), Digits(phone), fallback); }
  }

  /** A plus and digits that begin with a supported code: the region and the local digits rebuild the number. */
  lemma RegionAndLocalRebuild(phone: string, fallback: string, code: string)
    requires phone != "" && phone[0] == '+' && AllDigits(phone[1..]) && IsCode(code) && StartsWith(phone, code)
    ensures RegionForPhone(phone, fallback) == code
    ensures RegionForPhone(phone, fallback) + LocalDigitsForRegion(phone, RegionForPhone(phone, fallback)) == phone
  {
    Codes(code);
    var digits := phone[1..];
    PlusDigits(digits);
    Rest(phone, code);
    RegionIs(phone, fallback);
  }

  /** The local digits are the number's without the region's, or all of them where it begins otherwise. */
  lemma LocalDigitsAre(phone: string, region: string)
    ensures var local := LocalDigitsForRegion(phone, region);
      if StartsWith(Digits(phone), Digits(region)) then Digits(region) + local == Digits(phone) else local == Digits(phone)
  {
  }

  lemma Rest(phone: string, code: string)
    requires phone != "" && phone[0] == '+' && AllDigits(phone[1..]) && StartsWith(phone, code) && code == "+" + Digits(code) && Digits(code) != ""
    ensures phone[1..] != "" && phone == "+" + phone[1..] && Digits(phone) == phone[1..]
    ensures StartsWith(phone[1..], Digits(code)) && code + phone[1..][|Digits(code)|..] == phone
  {
    assert phone[..|code|][1..] == phone[1..][..|Digits(code)|];
    assert phone[1..] != "";
    PlusDigits(phone[1..]);
    assert phone == "+" + phone[1..];
  }
}
