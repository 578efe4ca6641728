/** The string operations both control-plane programs use, on ASCII text. */
module Text {

  predicate IsSpace(c: char) { c == ' ' || '\t' <= c <= '\r' }

  predicate IsDigit(c: char) { '0' <= c <= '9' }

  predicate Blank(text: string) { forall i | 0 <= i < |text| :: IsSpace(text[i]) }

  function TrimLeft(text: string): string {
    if text != [] && IsSpace(text[0]) then TrimLeft(text[1..]) else text
  }

  function TrimRight(text: string): string {
    if text != [] && IsSpace(text[|text| - 1]) then TrimRight(text[..|text| - 1]) else text
  }

  /** Go's `strings.TrimSpace` and JavaScript's `trim`. */
  function Trim(text: string): string { TrimRight(TrimLeft(text)) }

  lemma {:induction false} LeftBlank(text: string)
    ensures (TrimLeft(text) == [] <==> Blank(text)) && (TrimLeft(text) != [] ==> !IsSpace(TrimLeft(text)[0]))
  {
    if text != [] && IsSpace(text[0]) {
      LeftBlank(text[1..]);
      assert forall i | 0 < i < |text| :: text[i] == text[1..][i - 1];
      if Blank(text) { forall i | 0 <= i < |text| - 1 ensures IsSpace(text[1..][i]) { assert text[1..][i] == text[i + 1]; } }
    }
  }

  lemma {:induction false} RightKeepsFirst(text: string)
    requires text != [] && !IsSpace(text[0])
    ensures TrimRight(text) != [] && TrimRight(text)[0] == text[0]
    decreases |text|
  {
    if IsSpace(text[|text| - 1]) { RightKeepsFirst(text[..|text| - 1]); }
  }

  /** A text is blank exactly when nothing is left of it trimmed, and a trimmed text that is left is not blank. */
  lemma TrimBlank(text: string)
    ensures Trim(text) == [] <==> Blank(text)
    ensures Blank(Trim(text)) <==> Blank(text)
  {
    LeftBlank(text);
    if TrimLeft(text) != [] { RightKeepsFirst(TrimLeft(text)); }
  }

  function UpperChar(c: char): char { if 'a' <= c <= 'z' then c - 'a' + 'A' else c }

  function Upper(text: string): string { if text == [] then [] else [UpperChar(text[0])] + Upper(text[1..]) }

  lemma {:induction false} UpperIs(text: string)
    ensures |Upper(text)| == |text| && forall i | 0 <= i < |text| :: Upper(text)[i] == UpperChar(text[i])
  {
    if text != [] { UpperIs(text[1..]); }
  }

  /** Blank, tab, line feed, vertical tab, form feed or carriage return. */
  const SPACES := {' ', '\t', '\n', '\U{000B}', '\U{000C}', '\r'}

  predicate AllSpaces(text: string) { forall i | 0 <= i < |text| :: text[i] in SPACES }

  lemma {:induction false} LeftCut(text: string) returns (m: nat)
    ensures m <= |text| && TrimLeft(text) == text[m..] && AllSpaces(text[..m])
    ensures TrimLeft(text) != "" ==> TrimLeft(text)[0] !in SPACES
  {
    m := 0;
    if text != "" && IsSpace(text[0]) {
      var k := LeftCut(text[1..]);
      m := k + 1;
      assert text[1..][k..] == text[m..] && text[..m] == [text[0]] + text[1..][..k];
    }
  }

  lemma {:induction false} RightCut(text: string) returns (n: nat)
    ensures n <= |text| && TrimRight(text) == text[..n] && AllSpaces(text[n..])
    ensures TrimRight(text) != "" ==> TrimRight(text)[|TrimRight(text)| - 1] !in SPACES
    decreases |text|
  {
    n := |text|;
    if text != "" && IsSpace(text[|text| - 1]) {
      var k := |text| - 1;
      n := RightCut(text[..k]);
      assert text[..k][..n] == text[..n] && text[n..] == text[..k][n..] + [text[k]];
    }
  }

  /** Trimming cuts white space off both ends, all of it, and nothing else. */
  lemma {:induction false} TrimIs(text: string) returns (before: string, after: string)
    ensures text == before + Trim(text) + after && AllSpaces(before) && AllSpaces(after)
    ensures Trim(text) != "" ==> Trim(text)[0] !in SPACES && Trim(text)[|Trim(text)| - 1] !in SPACES
  {
    var m := LeftCut(text);
    var left := TrimLeft(text);
    var n := RightCut(left);
    before, after := text[..m], left[n..];
    assert left == left[..n] + left[n..];
  }

  /** Blank text is white space throughout. */
  lemma BlankIs(text: string)
    ensures Blank(text) <==> forall i | 0 <= i < |text| :: text[i] in SPACES
  {
  }
}
