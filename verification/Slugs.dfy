/** Workspace slugs: the builder loop of `slugify`, and the search of `adminCreateWorkspace` for a free one. */
module Slugs {
  import opened Options
  import Text

  predicate IsLower(c: char) { 'a' <= c <= 'z' }

  predicate IsAlnum(c: char) { IsLower(c) || Text.IsDigit(c) }

  function LowerChar(c: char): char { if 'A' <= c <= 'Z' then c - 'A' + 'a' else c }

  function Lower(text: string): string { seq(|text|, i requires 0 <= i < |text| => LowerChar(text[i])) }

  function Last<T>(items: seq<T>): T
    requires items != []
  {
    items[|items| - 1]
  }

  function Front<T>(items: seq<T>): seq<T>
    requires items != []
  {
    items[..|items| - 1]
  }

  /** The maximal runs of letters and digits: one goes on with every such character right after another. */
  function Words(text: string): (words: seq<string>)
    ensures text != "" && IsAlnum(Last(text)) ==> words != []
  {
    if text == "" then []
    else if !IsAlnum(Last(text)) then Words(Front(text))
    else if Front(text) != "" && IsAlnum(Last(Front(text))) then
      Front(Words(Front(text))) + [Last(Words(Front(text))) + [Last(text)]]
    else Words(Front(text)) + [[Last(text)]]
  }

  function Join(words: seq<string>): string {
    if words == [] then "" else if |words| == 1 then words[0] else Join(Front(words)) + "-" + Last(words)
  }

  /** What a slug is: the runs of the lower-cased text, joined by single dashes. */
  function Slug(text: string): string { Join(Words(Lower(text))) }

  predicate IsWord(word: string) { word != "" && forall i | 0 <= i < |word| :: IsAlnum(word[i]) }

  ghost predicate AllWords(words: seq<string>) { forall w | w in words :: IsWord(w) }

  // ---- Trimming ----

  function TrimDashesLeft(text: string): string {
    if text != "" && text[0] == '-' then TrimDashesLeft(text[1..]) else text
  }

  function TrimDashesRight(text: string): string {
    if text != "" && Last(text) == '-' then TrimDashesRight(Front(text)) else text
  }

  /** Go's `strings.Trim(text, "-")`. */
  function TrimDashes(text: string): string { TrimDashesRight(TrimDashesLeft(text)) }

  /** A character that is no letter or digit adds nothing in front. */
  lemma {:induction false} WordsAfter(c: char, text: string)
    requires !IsAlnum(c)
    ensures Words([c] + text) == Words(text)
  {
    if text == "" {
      assert Front([c]) == "";
    } else {
      assert Front([c] + text) == [c] + Front(text) && Last([c] + text) == Last(text);
      WordsAfter(c, Front(text));
      if Front(text) != "" { assert Last([c] + Front(text)) == Last(Front(text)); }
    }
  }

  lemma {:induction false} WordsTrimLeft(text: string)
    ensures Words(Lower(Text.TrimLeft(text))) == Words(Lower(text))
  {
    if text != [] && Text.IsSpace(text[0]) {
      WordsTrimLeft(text[1..]);
      assert Lower(text) == [LowerChar(text[0])] + Lower(text[1..]);
      WordsAfter(LowerChar(text[0]), Lower(text[1..]));
    }
  }

  lemma {:induction false} WordsTrimRight(text: string)
    ensures Words(Lower(Text.TrimRight(text))) == Words(Lower(text))
    decreases |text|
  {
    if text != [] && Text.IsSpace(Last(text)) {
      WordsTrimRight(Front(text));
      assert Front(Lower(text)) == Lower(Front(text)) && Last(Lower(text)) == LowerChar(Last(text));
    }
  }

  /** White space around the text makes no difference. */
  lemma WordsTrim(text: string)
    ensures Words(Lower(Text.Trim(text))) == Words(Lower(text))
  {
    WordsTrimLeft(text);
    WordsTrimRight(Text.TrimLeft(text));
  }

  // ---- Words and joins ----

  lemma {:induction false} WordsAreWords(text: string)
    ensures AllWords(Words(text))
  {
    if text != "" {
      WordsAreWords(Front(text));
      if IsAlnum(Last(text)) && Front(text) != "" && IsAlnum(Last(Front(text))) {
        var before := Words(Front(text));
        assert IsWord(Last(before)) && IsWord(Last(before) + [Last(text)]);
        assert forall w | w in Front(before) :: w in before;
      }
    }
  }

  /** A join of words neither begins nor ends with a dash. */
  lemma {:induction false} JoinEnds(words: seq<string>)
    requires AllWords(words) && words != []
    ensures Join(words) != "" && IsAlnum(Join(words)[0]) && IsAlnum(Last(Join(words)))
  {
    assert Last(words) in words && words[0] in words;
    if |words| > 1 {
      assert forall w | w in Front(words) :: w in words;
      JoinEnds(Front(words));
      assert Join(words)[0] == Join(Front(words))[0];
      assert Last(Join(words)) == Last(Last(words));
    }
  }

  lemma TrimmedJoin(words: seq<string>)
    requires AllWords(words)
    ensures TrimDashes(Join(words)) == Join(words)
    ensures words != [] ==> TrimDashes(Join(words) + "-") == Join(words)
  {
    if words != [] {
      JoinEnds(words);
      var b := Join(words) + "-";
      assert b[0] == Join(words)[0] && Last(b) == '-' && Front(b) == Join(words);
    }
  }

  lemma WordsDash(text: string)
    ensures Words(text + "-") == Words(text)
  {
    assert Last(text + "-") == '-' && Front(text + "-") == text;
  }

  /** Another run after a dash is another word. */
  lemma {:induction false} WordsAppend(text: string, word: string)
    requires IsWord(word)
    ensures Words(text + "-" + word) == Words(text) + [word]
  {
    var whole := text + "-" + word;
    assert Last(whole) == Last(word);
    if |word| == 1 {
      WordsDash(text);
      assert Front(whole) == text + "-" && Last(text + "-") == '-';
      assert word == [Last(word)];
    } else {
      assert IsWord(Front(word));
      WordsAppend(text, Front(word));
      assert Front(whole) == text + "-" + Front(word) && Last(Front(whole)) == Last(Front(word));
      assert word == Front(word) + [Last(word)];
      assert Front(Words(text) + [Front(word)]) == Words(text);
    }
  }

  lemma {:induction false} WordsOfWord(word: string)
    requires IsWord(word)
    ensures Words(word) == [word]
  {
    if |word| == 1 {
      assert Front(word) == "" && word == [Last(word)];
    } else {
      assert IsWord(Front(word));
      WordsOfWord(Front(word));
      assert word == Front(word) + [Last(word)];
    }
  }

  lemma FrontWords(words: seq<string>)
    requires AllWords(words) && words != []
    ensures AllWords(Front(words)) && IsWord(Last(words))
  {
    assert Last(words) in words;
    forall w | w in Front(words) ensures IsWord(w) { assert w in words; }
  }

  /** Splitting undoes joining. */
  lemma {:induction false} WordsOfJoin(words: seq<string>)
    requires AllWords(words)
    ensures Words(Join(words)) == words
  {
    if |words| == 1 {
      assert words[0] in words;
      WordsOfWord(words[0]);
      assert words == [words[0]];
    } else if |words| > 1 {
      FrontWords(words);
      WordsOfJoin(Front(words));
      WordsAppend(Join(Front(words)), Last(words));
      assert Join(words) == Join(Front(words)) + "-" + Last(words);
      assert words == Front(words) + [Last(words)];
    }
  }

  lemma {:induction false} JoinIsLower(words: seq<string>)
    requires AllWords(words)
    ensures forall i | 0 <= i < |Join(words)| :: IsAlnum(Join(words)[i]) || Join(words)[i] == '-'
  {
    if words != [] { assert Last(words) in words; }
    if |words| == 1 {
      assert words[0] in words;
    } else if |words| > 1 {
      assert forall w | w in Front(words) :: w in words;
      JoinIsLower(Front(words));
    }
  }

  /** A slug is its own slug. */
  lemma SlugIdempotent(text: string)
    ensures Slug(Slug(text)) == Slug(text)
  {
    var words := Words(Lower(text));
    WordsAreWords(Lower(text));
    JoinIsLower(words);
    assert Lower(Join(words)) == Join(words);
    WordsOfJoin(words);
  }

  // ---- What a slug is, without naming words ----

  /** Letters and digits, and lower case, spelled out. */
  lemma CharsAre(c: char)
    ensures IsAlnum(LowerChar(c)) <==> 'a' <= c <= 'z' || 'A' <= c <= 'Z' || '0' <= c <= '9'
    ensures LowerChar(c) == if 'A' <= c <= 'Z' then c - 'A' + 'a' else c
  {
  }

  /** A text of letters and digits is its own slug, in lower case. */
  lemma SlugOfWord(text: string)
    requires text != "" && forall i | 0 <= i < |text| :: 'a' <= text[i] <= 'z' || 'A' <= text[i] <= 'Z' || '0' <= text[i] <= '9'
    ensures |Slug(text)| == |text|
    ensures forall i | 0 <= i < |text| :: Slug(text)[i] == if 'A' <= text[i] <= 'Z' then text[i] - 'A' + 'a' else text[i]
  {
    forall i | 0 <= i < |text| ensures IsAlnum(Lower(text)[i]) { CharsAre(text[i]); }
    WordsOfWord(Lower(text));
  }

  lemma {:induction false} WordsBetween(a: string, c: char, b: string)
    requires !IsAlnum(c)
    ensures Words(a + [c] + b) == Words(a) + Words(b)
  {
    var whole := a + [c] + b;
    if b == "" {
      assert Last(whole) == c && Front(whole) == a && whole == a + [c];
    } else {
      assert Last(whole) == Last(b) && Front(whole) == a + [c] + Front(b);
      WordsBetween(a, c, Front(b));
      if IsAlnum(Last(b)) {
        if Front(b) == "" {
          assert Last(Front(whole)) == c;
        } else {
          assert Last(Front(whole)) == Last(Front(b));
          if IsAlnum(Last(Front(b))) { LastOfBoth(Words(a), Words(Front(b))); }
        }
      }
    }
  }

  lemma LastOfBoth(a: seq<string>, b: seq<string>)
    requires b != []
    ensures Front(a + b) == a + Front(b) && Last(a + b) == Last(b)
  {
  }

  lemma {:induction false} JoinBoth(a: seq<string>, b: seq<string>)
    ensures Join(a + b) == if a == [] then Join(b) else if b == [] then Join(a) else Join(a) + "-" + Join(b)
  {
    if a == [] {
      assert a + b == b;
    } else if b == [] {
      assert a + b == a;
    } else {
      LastOfBoth(a, b);
      JoinBoth(a, Front(b));
      if |b| > 1 { assert Join(b) == Join(Front(b)) + "-" + Last(b); } else { assert Front(b) == [] && Join(b) == Last(b); }
    }
  }

  /** Anything else separates: the slug of two parts around it is their slugs with a dash between, or the one that is
      not empty. */
  lemma SlugOfParts(a: string, c: char, b: string)
    requires !('a' <= c <= 'z' || 'A' <= c <= 'Z' || '0' <= c <= '9')
    ensures Slug(a + [c] + b) == if Slug(a) == "" then Slug(b) else if Slug(b) == "" then Slug(a) else Slug(a) + "-" + Slug(b)
  {
    CharsAre(c);
    assert Lower(a + [c] + b) == Lower(a) + [LowerChar(c)] + Lower(b);
    WordsBetween(Lower(a), LowerChar(c), Lower(b));
    JoinBoth(Words(Lower(a)), Words(Lower(b)));
    WordsAreWords(Lower(a));
    WordsAreWords(Lower(b));
    if Words(Lower(a)) != [] { JoinEnds(Words(Lower(a))); }
    if Words(Lower(b)) != [] { JoinEnds(Words(Lower(b))); }
  }

  /** Names that differ in case only have one slug. */
  lemma SlugIgnoresCase(a: string, b: string)
    requires |a| == |b|
    requires forall i | 0 <= i < |a| :: a[i] == b[i] || ('A' <= a[i] <= 'Z' && b[i] == a[i] - 'A' + 'a') || ('A' <= b[i] <= 'Z' && a[i] == b[i] - 'A' + 'a')
    ensures Slug(a) == Slug(b)
  {
    assert Lower(a) == Lower(b);
  }

  // ---- The builder loop ----

  lemma WordsNext(text: string, i: nat)
    requires i < |text|
    ensures Front(text[..i + 1]) == text[..i] && Last(text[..i + 1]) == text[i]
    ensures i > 0 ==> Last(text[..i]) == text[i - 1]
  {
  }

  lemma JoinExtended(words: seq<string>, c: char)
    requires words != []
    ensures Join(Front(words) + [Last(words) + [c]]) == Join(words) + [c]
  {
    var longer := Front(words) + [Last(words) + [c]];
    assert Front(longer) == Front(words) && Last(longer) == Last(words) + [c];
    assert |words| == 1 ==> longer == [words[0] + [c]];
  }

  lemma JoinAppended(words: seq<string>, word: string)
    ensures Join(words + [word]) == if words == [] then word else Join(words) + "-" + word
  {
    assert words + [word] != [] && Front(words + [word]) == words && Last(words + [word]) == word;
  }

  /** The builder after i characters: the words so far, and a dash when something else follows them. */
  ghost predicate Built(text: string, i: nat, b: string, lastDash: bool)
    requires i <= |text|
  {
    && (lastDash <==> Words(text[..i]) != [] && i > 0 && !IsAlnum(text[i - 1]))
    && b == Join(Words(text[..i])) + (if lastDash then "-" else "")
  }

  lemma Letter(text: string, i: nat, b: string, lastDash: bool)
    requires i < |text| && Built(text, i, b, lastDash) && IsAlnum(text[i])
    ensures Built(text, i + 1, b + [text[i]], false)
  {
    var words := Words(text[..i]);
    WordsNext(text, i);
    if words != [] { JoinExtended(words, text[i]); }
    JoinAppended(words, [text[i]]);
  }

  lemma NoLetter(text: string, i: nat, b: string, lastDash: bool)
    requires i < |text| && Built(text, i, b, lastDash) && !IsAlnum(text[i])
    ensures !lastDash && |b| > 0 ==> Built(text, i + 1, b + "-", true)
    ensures lastDash || |b| == 0 ==> Built(text, i + 1, b, lastDash)
  {
    WordsNext(text, i);
    WordsAreWords(text[..i]);
    if Words(text[..i]) != [] { JoinEnds(Words(text[..i])); }
  }

  lemma BuiltAll(text: string, b: string, lastDash: bool)
    requires Built(text, |text|, b, lastDash)
    ensures TrimDashes(b) == Join(Words(text))
  {
    assert text[..|text|] == text;
    WordsAreWords(text);
    TrimmedJoin(Words(text));
    assert lastDash || b == Join(Words(text));
  }

  method Slugify(value: string) returns (slug: string)
    ensures slug == Slug(value)
  {
    var text := Lower(Text.Trim(value));
    var b := "";
    var lastDash := false;
    for i := 0 to |text|
      invariant Built(text, i, b, lastDash)
    {
      var r := text[i];
      if IsAlnum(r) {
        Letter(text, i, b, lastDash);
        b := b + [r];
        lastDash := false;
      } else {
        NoLetter(text, i, b, lastDash);
        if !lastDash && |b| > 0 {
          b := b + "-";
          lastDash := true;
        }
      }
    }
    BuiltAll(text, b, lastDash);
    WordsTrim(value);
    slug := TrimDashes(b);
  }

  // ---- The search for a free slug ----

  function DigitChar(d: nat): char
    requires d < 10
  {
    '0' + d as char
  }

  /** The decimal form of a number. */
  function Itoa(n: nat): string { if n < 10 then [DigitChar(n)] else Itoa(n / 10) + [DigitChar(n % 10)] }

  lemma {:induction false} ItoaInjective(a: nat, b: nat)
    requires Itoa(a) == Itoa(b)
    ensures a == b
  {
    assert Last(Itoa(a)) == DigitChar(a % 10) && Last(Itoa(b)) == DigitChar(b % 10);
    assert a % 10 == b % 10;
    if a >= 10 && b >= 10 {
      assert Front(Itoa(a)) == Itoa(a / 10) && Front(Itoa(b)) == Itoa(b / 10);
      ItoaInjective(a / 10, b / 10);
    } else {
      ItoaNotEmpty(a / 10);
      ItoaNotEmpty(b / 10);
    }
  }

  lemma {:induction false} ItoaNotEmpty(n: nat)
    ensures Itoa(n) != ""
  {
  }

  /** The number that decimal digits are read as. */
  function ValueOf(digits: string): nat
    requires forall i | 0 <= i < |digits| :: '0' <= digits[i] <= '9'
  {
    if digits == "" then 0 else 10 * ValueOf(Front(digits)) + (Last(digits) - '0') as nat
  }

  /** The decimal form reads as the number, and has no leading zero. */
  lemma {:induction false} ItoaReads(n: nat)
    ensures forall i | 0 <= i < |Itoa(n)| :: '0' <= Itoa(n)[i] <= '9'
    ensures ValueOf(Itoa(n)) == n && Itoa(n) != "" && (n > 0 ==> Itoa(n)[0] != '0')
  {
    if n >= 10 {
      ItoaReads(n / 10);
      assert Front(Itoa(n)) == Itoa(n / 10) && Last(Itoa(n)) == DigitChar(n % 10);
    } else {
      assert Front(Itoa(n)) == "";
    }
  }

  /** The slug tried at a suffix: the base itself first, then base-2, base-3 and so on. */
  function Candidate(base: string, suffix: nat): string { if suffix <= 1 then base else base + "-" + Itoa(suffix) }

  /** The slug asked for, or else the name's, or else a default, alone or with a number from 2 to 1000. */
  predicate IsOffered(slugIn: string, name: string, suffix: nat, slug: string) {
    var base := if Slug(slugIn) != "" then Slug(slugIn) else if Slug(name) != "" then Slug(name) else "workspace";
    (suffix == 1 && slug == base) || (2 <= suffix <= 1000 && slug == base + "-" + Itoa(suffix))
  }

  const LAST_SUFFIX := 1000

  function Candidates(base: string, n: nat): set<string> { set k | 1 <= k <= n :: Candidate(base, k) }

  lemma CandidatesDiffer(base: string, j: nat, k: nat)
    requires 1 <= j < k
    ensures Candidate(base, j) != Candidate(base, k)
  {
    if j > 1 && Candidate(base, j) == Candidate(base, k) {
      var skip := |base| + 1;
      assert Candidate(base, j)[skip..] == Itoa(j) && Candidate(base, k)[skip..] == Itoa(k);
      ItoaInjective(j, k);
    }
  }

  lemma {:induction false} CandidateCount(base: string, n: nat)
    ensures |Candidates(base, n)| == n
  {
    if n > 0 {
      CandidateCount(base, n - 1);
      forall k | 1 <= k < n ensures Candidate(base, k) != Candidate(base, n) { CandidatesDiffer(base, k, n); }
      assert Candidates(base, n) == Candidates(base, n - 1) + {Candidate(base, n)};
      assert Candidate(base, n) !in Candidates(base, n - 1);
    }
  }

  /** The slug asked for, or else the name's, or else a default. */
  function BaseSlug(slug: string, name: string): string {
    if Slug(slug) != "" then Slug(slug) else if Slug(name) != "" then Slug(name) else "workspace"
  }

  /** The slug is the first of base, base-2, ..., base-1000 that is free. */
  ghost predicate FirstFree(taken: set<string>, base: string, suffix: nat, slug: string) {
    && 1 <= suffix <= LAST_SUFFIX && slug == Candidate(base, suffix) && slug !in taken
    && forall k | 1 <= k < suffix :: Candidate(base, k) in taken
  }

  /** The unique slug column of the workspaces. */
  class Workspaces {
    var slugs: set<string>

    constructor ()
      ensures slugs == {}
    {
      slugs := {};
    }

    /** `INSERT ... ON CONFLICT (slug) DO NOTHING`. */
    method Insert(slug: string) returns (inserted: bool)
      modifies this
      ensures inserted <==> slug !in old(slugs)
      ensures slugs == old(slugs) + {slug}
    {
      inserted := slug !in slugs;
      slugs := slugs + {slug};
    }

    /** Takes the first free slug; None when the thousand candidates, all different, are taken. */
    method Create(slugIn: string, name: string) returns (created: Option<string>)
      modifies this
      ensures created.Some? ==> exists suffix :: FirstFree(old(slugs), BaseSlug(slugIn, name), suffix, created.value)
      ensures created.Some? ==> exists suffix :: IsOffered(slugIn, name, suffix, created.value)
      ensures created.Some? ==> created.value !in old(slugs) && slugs == old(slugs) + {created.value}
      ensures created.None? <==> Candidates(BaseSlug(slugIn, name), LAST_SUFFIX) <= old(slugs)
      ensures created.None? ==> slugs == old(slugs) && |Candidates(BaseSlug(slugIn, name), LAST_SUFFIX)| == LAST_SUFFIX
    {
      var base := Slugify(slugIn);
      if base == "" { base := Slugify(name); }
      if base == "" { base := "workspace"; }
      assert base == BaseSlug(slugIn, name);
      CandidateCount(base, LAST_SUFFIX);
      var suffix := 1;
      while suffix <= LAST_SUFFIX
        invariant 1 <= suffix <= LAST_SUFFIX + 1
        invariant slugs == old(slugs) && forall k | 1 <= k < suffix :: Candidate(base, k) in slugs
      {
        var slug := base;
        if suffix > 1 { slug := base + "-" + Itoa(suffix); }
        assert slug == Candidate(base, suffix) && slug in Candidates(base, LAST_SUFFIX);
        var inserted := Insert(slug);
        if inserted {
          created := Some(slug);
          assert FirstFree(old(slugs), BaseSlug(slugIn, name), suffix, created.value);
          assert IsOffered(slugIn, name, suffix, created.value);
          return;
        }
        assert slugs == old(slugs);
        suffix := suffix + 1;
      }
      return None;
    }
  }
}
