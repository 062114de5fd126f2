/** Identifiers for custom games carried over from older settings
    (apps/clipline-app/src/game_identity.rs). */
module GameIdentity {
  import opened Chars

  const BUILT_IN_IDS: set<string> := {"league_of_legends", "valorant", "cs2", "osu"}
  const CUSTOM_PREFIX := "custom-"
  const MIGRATED_PREFIX := "custom-migrated-"
  const MAX_CUSTOM_ID_LEN := 96
  const U32_MAX := 0xFFFF_FFFF

  // ---- Canonical slugs ----

  /** No two hyphens in a row, and none in front. */
  predicate Tidy(s: string) {
    && (s != "" ==> s[0] != '-')
    && (forall i | 0 <= i < |s| - 1 :: s[i] == '-' ==> s[i + 1] != '-')
  }

  predicate SlugChars(s: string) {
    forall c <- s :: IsLowerAlphanumeric(c) || c == '-'
  }

  predicate Canonical(slug: string) {
    slug != "" && Tidy(slug) && slug[|slug| - 1] != '-' && SlugChars(slug)
  }

  predicate Valid(id: string) {
    && id !in BUILT_IN_IDS && |id| <= MAX_CUSTOM_ID_LEN && CUSTOM_PREFIX <= id
    && Canonical(id[|CUSTOM_PREFIX|..])
  }

  /** What validation accepts, character by character. */
  lemma ValidMeans(id: string)
    ensures Valid(id) <==>
              && id !in {"league_of_legends", "valorant", "cs2", "osu"} && 8 <= |id| <= 96 && id[..7] == "custom-"
              && id[7] != '-' && id[|id| - 1] != '-'
              && (forall i | 7 <= i < |id| :: 'a' <= id[i] <= 'z' || '0' <= id[i] <= '9' || id[i] == '-')
              && (forall i | 7 <= i < |id| - 1 :: !(id[i] == '-' && id[i + 1] == '-'))
  {
    if 8 <= |id| && id[..7] == "custom-" {
      var slug := id[7..];
      assert CUSTOM_PREFIX <= id && forall i | 0 <= i < |slug| :: slug[i] == id[7 + i] && slug[i] in slug;
      assert forall i | 7 <= i < |id| :: id[i] == slug[i - 7];
    }
  }

  // ---- Migration ----

  function SlugChar(c: char): char {
    if IsLowerAlphanumeric(LowerChar(c)) then LowerChar(c) else '-'
  }

  function Slugged(s: string): string {
    seq(|s|, i requires 0 <= i < |s| => SlugChar(s[i]))
  }

  function Split(s: string): (parts: seq<string>)
    ensures parts != []
  {
    if s == "" then [""]
    else
      var rest := Split(s[1..]);
      if s[0] == '-' then [""] + rest else [[s[0]] + rest[0]] + rest[1..]
  }

  function NonEmpty(parts: seq<string>): seq<string> {
    if parts == [] then [] else (if parts[0] == "" then [] else [parts[0]]) + NonEmpty(parts[1..])
  }

  function Join(parts: seq<string>): string {
    if parts == [] then ""
    else if |parts| == 1 then parts[0]
    else parts[0] + "-" + Join(parts[1..])
  }

  function TrimHyphens(s: string): string {
    if s != "" && s[|s| - 1] == '-' then TrimHyphens(s[..|s| - 1]) else s
  }

  function Truncate(s: string, length: nat): string {
    if |s| <= length then s else s[..length]
  }

  function JoinedSlug(s: string): string {
    Join(NonEmpty(Split(Slugged(s))))
  }

  function MigratedId(raw: string, fallback: string): string {
    var source := if IsBlank(raw) then fallback else raw;
    var joined := JoinedSlug(Trim(source));
    var slug := TrimHyphens(Truncate(joined, MAX_CUSTOM_ID_LEN - |MIGRATED_PREFIX|));
    MIGRATED_PREFIX + if slug == "" then "game" else slug
  }

  predicate Plain(part: string) {
    forall c <- part :: IsLowerAlphanumeric(c)
  }

  lemma {:induction false} SplitIsPlain(s: string)
    requires SlugChars(s)
    ensures forall part <- Split(s) :: Plain(part)
  {
    if s != "" {
      assert s[0] in s;
      assert forall c <- s[1..] :: c in s;
      SplitIsPlain(s[1..]);
      assert Plain(Split(s[1..])[0]);
    }
  }

  lemma {:induction false} NonEmptyKeeps(parts: seq<string>)
    requires forall part <- parts :: Plain(part)
    ensures forall part <- NonEmpty(parts) :: Plain(part) && part != ""
  {
    if parts != [] {
      NonEmptyKeeps(parts[1..]);
    }
  }

  lemma HyphenatedIsTidy(part: string, rest: string)
    requires Plain(part) && part != "" && Tidy(rest) && rest != ""
    ensures Tidy(part) && Tidy(part + "-" + rest)
  {
    assert forall i | 0 <= i < |part| :: part[i] in part;
    var whole := part + "-" + rest;
    forall i | 0 <= i < |whole| - 1 && whole[i] == '-' ensures whole[i + 1] != '-' {
      if i > |part| {
        assert whole[i + 1] == rest[i - |part|];
      }
    }
  }

  lemma {:induction false} JoinedIsTidy(parts: seq<string>)
    requires forall part <- parts :: Plain(part) && part != ""
    ensures Tidy(Join(parts)) && SlugChars(Join(parts))
    ensures parts != [] ==> Join(parts) != ""
  {
    if parts != [] {
      assert Plain(parts[0]) && parts[0] != "";
      assert parts[0][0] in parts[0];
      if |parts| > 1 {
        JoinedIsTidy(parts[1..]);
        HyphenatedIsTidy(parts[0], Join(parts[1..]));
      } else {
        HyphenatedIsTidy(parts[0], "x");
      }
    }
  }

  lemma {:induction false} TrimmedEndsPlain(s: string)
    requires Tidy(s) && SlugChars(s)
    ensures var t := TrimHyphens(s);
            t <= s && Tidy(t) && SlugChars(t) && (t != "" ==> t[|t| - 1] != '-')
  {
    if s != "" && s[|s| - 1] == '-' {
      assert forall c <- s[..|s| - 1] :: c in s;
      TrimmedEndsPlain(s[..|s| - 1]);
    }
  }

  lemma PrefixStaysTidy(s: string, n: nat)
    requires Tidy(s) && SlugChars(s) && n <= |s|
    ensures Tidy(s[..n]) && SlugChars(s[..n])
  {
    assert forall c <- s[..n] :: c in s;
  }

  lemma SluggedChars(s: string)
    ensures SlugChars(Slugged(s))
  {
  }

  /** In front of a canonical slug, the prefix of migrated ids makes a valid id, if it is not too long. */
  lemma PrefixedIsValid(slug: string)
    requires Canonical(slug) && |slug| <= MAX_CUSTOM_ID_LEN - |MIGRATED_PREFIX|
    ensures Valid(MIGRATED_PREFIX + slug)
  {
    var id := MIGRATED_PREFIX + slug;
    var rest := id[|CUSTOM_PREFIX|..];
    assert rest == "migrated-" + slug;
    assert id[0] == 'c' && id[1] == 'u';
    assert SlugChars("migrated-");
  }

  lemma JoinedSlugIsTidy(s: string)
    ensures Tidy(JoinedSlug(s)) && SlugChars(JoinedSlug(s))
  {
    SluggedChars(s);
    SplitIsPlain(Slugged(s));
    NonEmptyKeeps(Split(Slugged(s)));
    JoinedIsTidy(NonEmpty(Split(Slugged(s))));
  }

  lemma CutSlugIsCanonical(joined: string, max: nat)
    requires Tidy(joined) && SlugChars(joined)
    ensures var slug := TrimHyphens(Truncate(joined, max));
            |slug| <= max && (slug == "" || Canonical(slug))
  {
    var length := if |joined| <= max then |joined| else max;
    PrefixStaysTidy(joined, length);
    assert Truncate(joined, max) == joined[..length];
    TrimmedEndsPlain(joined[..length]);
  }

  lemma DefaultIsCanonical()
    ensures Canonical("game")
  {
  }

  /** Every migrated id passes validation, whatever the old id and name were. */
  lemma MigratedIsValid(raw: string, fallback: string)
    ensures Valid(MigratedId(raw, fallback))
  {
    var joined := JoinedSlug(Trim(if IsBlank(raw) then fallback else raw));
    var max := MAX_CUSTOM_ID_LEN - |MIGRATED_PREFIX|;
    JoinedSlugIsTidy(Trim(if IsBlank(raw) then fallback else raw));
    CutSlugIsCanonical(joined, max);
    var slug := TrimHyphens(Truncate(joined, max));
    if slug == "" {
      DefaultIsCanonical();
      PrefixedIsValid("game");
    } else {
      PrefixedIsValid(slug);
    }
  }

  // ---- What migration makes of any name ----

  predicate Alphanumeric(c: char) {
    'a' <= c <= 'z' || 'A' <= c <= 'Z' || '0' <= c <= '9'
  }

  predicate Word(s: string) {
    s != "" && forall c <- s :: Alphanumeric(c)
  }

  /** What stands around words: anything but ASCII letters and digits. */
  predicate Filler(s: string) {
    forall c <- s :: !Alphanumeric(c)
  }

  /** Each word with the filler after it. */
  function Spread(words: seq<string>, fillers: seq<string>): string
    requires |fillers| == |words|
  {
    if words == [] then "" else words[0] + fillers[0] + Spread(words[1..], fillers[1..])
  }

  /** Words with filler between them, and possibly after the last. */
  predicate Fits(words: seq<string>, fillers: seq<string>) {
    && |fillers| == |words|
    && (forall i | 0 <= i < |words| :: Word(words[i]) && Filler(fillers[i]))
    && (forall i | 0 <= i < |words| - 1 :: fillers[i] != "")
  }

  /** `s` is these words, in order, with filler around and between them. */
  predicate Consists(s: string, lead: string, words: seq<string>, fillers: seq<string>) {
    Fits(words, fillers) && Filler(lead) && s == lead + Spread(words, fillers)
  }

  lemma FillerInFront(c: char, s: string, lead: string, words: seq<string>, fillers: seq<string>)
    requires Consists(s, lead, words, fillers) && !Alphanumeric(c)
    ensures Consists([c] + s, [c] + lead, words, fillers)
  {
    assert [c] + s == ([c] + lead) + Spread(words, fillers);
  }

  lemma WordGrows(c: char, s: string, words: seq<string>, fillers: seq<string>)
    requires Consists(s, "", words, fillers) && words != [] && Alphanumeric(c)
    ensures Consists([c] + s, "", [[c] + words[0]] + words[1..], fillers)
  {
    var longer := [[c] + words[0]] + words[1..];
    assert longer[1..] == words[1..];
    assert Spread(longer, fillers) == [c] + Spread(words, fillers) && s == Spread(words, fillers);
    assert Word([c] + words[0]) && forall i | 1 <= i < |words| :: longer[i] == words[i];
  }

  lemma WordStarts(c: char, s: string, lead: string, words: seq<string>, fillers: seq<string>)
    requires Consists(s, lead, words, fillers) && Alphanumeric(c) && (lead == "" ==> words == [])
    ensures Consists([c] + s, "", [[c]] + words, [lead] + fillers)
  {
    var more, gaps := [[c]] + words, [lead] + fillers;
    assert more[1..] == words && gaps[1..] == fillers;
    assert Spread(more, gaps) == [c] + lead + Spread(words, fillers);
    assert Word([c]) && forall i | 1 <= i < |more| :: more[i] == words[i - 1] && gaps[i] == fillers[i - 1];
  }

  /** Every text consists of words and filler. */
  lemma {:induction false} EveryTextConsists(s: string) returns (lead: string, words: seq<string>, fillers: seq<string>)
    ensures Consists(s, lead, words, fillers)
  {
    if s == "" {
      return "", [], [];
    }
    lead, words, fillers := EveryTextConsists(s[1..]);
    assert s == [s[0]] + s[1..];
    if !Alphanumeric(s[0]) {
      FillerInFront(s[0], s[1..], lead, words, fillers);
      lead := [s[0]] + lead;
    } else if lead == "" && words != [] {
      WordGrows(s[0], s[1..], words, fillers);
      words := [[s[0]] + words[0]] + words[1..];
    } else {
      WordStarts(s[0], s[1..], lead, words, fillers);
      lead, words, fillers := "", [[s[0]]] + words, [lead] + fillers;
    }
  }

  function LowerAll(words: seq<string>): seq<string> {
    if words == [] then [] else [Lower(words[0])] + LowerAll(words[1..])
  }

  lemma SluggedJoins(a: string, b: string)
    ensures Slugged(a + b) == Slugged(a) + Slugged(b)
  {
  }

  lemma WordIsLowered(w: string)
    requires Word(w)
    ensures Slugged(w) == Lower(w) && Plain(Lower(w)) && Lower(w) != ""
  {
    assert forall i | 0 <= i < |w| :: w[i] in w && Alphanumeric(w[i]);
  }

  predicate Hyphens(s: string) {
    forall c <- s :: c == '-'
  }

  lemma FillerIsHyphens(f: string)
    requires Filler(f)
    ensures Hyphens(Slugged(f)) && |Slugged(f)| == |f|
  {
    assert forall i | 0 <= i < |f| :: f[i] in f && !Alphanumeric(f[i]);
  }

  lemma {:induction false} HyphensSplitOff(h: string, rest: string)
    requires Hyphens(h)
    ensures NonEmpty(Split(h + rest)) == NonEmpty(Split(rest))
  {
    if h == "" {
      assert h + rest == rest;
    } else {
      assert h[0] in h && (h + rest)[1..] == h[1..] + rest;
      assert forall c <- h[1..] :: c in h;
      HyphensSplitOff(h[1..], rest);
      assert Split(h + rest)[1..] == Split(h[1..] + rest);
    }
  }

  lemma {:induction false} PlainSplitsOn(w: string, rest: string)
    requires Plain(w)
    ensures Split(w + rest) == [w + Split(rest)[0]] + Split(rest)[1..]
  {
    if w == "" {
      assert w + rest == rest && w + Split(rest)[0] == Split(rest)[0];
    } else {
      assert w[0] in w && (w + rest)[1..] == w[1..] + rest;
      PlainSplitsOn(w[1..], rest);
      assert [w[0]] + (w[1..] + Split(rest)[0]) == w + Split(rest)[0];
    }
  }

  lemma WordSplitsOff(w: string, rest: string)
    requires Plain(w) && w != "" && (rest == "" || rest[0] == '-')
    ensures NonEmpty(Split(w + rest)) == [w] + NonEmpty(Split(rest))
  {
    PlainSplitsOn(w, rest);
    assert Split(rest)[0] == "" && w + "" == w;
    assert Split(w + rest)[1..] == Split(rest)[1..];
  }

  lemma WordThenFiller(w: string, f: string, rest: string)
    requires Word(w) && Filler(f) && (f == "" ==> rest == "")
    ensures NonEmpty(Split(Slugged(w + f + rest))) == [Lower(w)] + NonEmpty(Split(Slugged(rest)))
  {
    WordIsLowered(w);
    FillerIsHyphens(f);
    SluggedJoins(w, f);
    SluggedJoins(w + f, rest);
    var after := Slugged(f) + Slugged(rest);
    assert Slugged(w + f + rest) == Lower(w) + after;
    assert f != "" ==> after[0] in Slugged(f);
    WordSplitsOff(Lower(w), after);
    HyphensSplitOff(Slugged(f), Slugged(rest));
  }

  lemma {:induction false} SpreadSplits(words: seq<string>, fillers: seq<string>)
    requires Fits(words, fillers)
    ensures NonEmpty(Split(Slugged(Spread(words, fillers)))) == LowerAll(words)
  {
    if words != [] {
      SpreadSplits(words[1..], fillers[1..]);
      WordThenFiller(words[0], fillers[0], Spread(words[1..], fillers[1..]));
    }
  }

  /** The slug is the words of the name, folded to lower case and joined by single hyphens. */
  lemma SlugIsItsWords(s: string, lead: string, words: seq<string>, fillers: seq<string>)
    requires Consists(s, lead, words, fillers)
    ensures JoinedSlug(s) == Join(LowerAll(words))
  {
    SpreadSplits(words, fillers);
    SluggedJoins(lead, Spread(words, fillers));
    FillerIsHyphens(lead);
    HyphensSplitOff(Slugged(lead), Slugged(Spread(words, fillers)));
  }

  function Empties(n: nat): seq<string> {
    if n == 0 then [] else [""] + Empties(n - 1)
  }

  lemma {:induction false} TrailingHyphensSplit(x: string, h: string)
    requires Hyphens(h)
    ensures Split(x + h) == Split(x) + Empties(|h|)
    decreases |x| + |h|
  {
    if x != "" {
      assert (x + h)[1..] == x[1..] + h;
      TrailingHyphensSplit(x[1..], h);
    } else {
      assert x + h == h;
      if h != "" {
        assert h[0] in h && forall c <- h[1..] :: c in h;
        TrailingHyphensSplit("", h[1..]);
        assert "" + h[1..] == h[1..];
      }
    }
  }

  lemma {:induction false} EmptiesAreDropped(parts: seq<string>, n: nat)
    ensures NonEmpty(parts + Empties(n)) == NonEmpty(parts)
    decreases |parts| + n
  {
    if parts != [] {
      assert (parts + Empties(n))[1..] == parts[1..] + Empties(n);
      EmptiesAreDropped(parts[1..], n);
    } else if n > 0 {
      assert [] + Empties(n) == Empties(n) && [] + Empties(n - 1) == Empties(n)[1..];
      EmptiesAreDropped([], n - 1);
    }
  }

  lemma FillerAroundIsIgnored(pre: string, s: string, post: string)
    requires Filler(pre) && Filler(post)
    ensures JoinedSlug(pre + s + post) == JoinedSlug(s)
  {
    FillerIsHyphens(pre);
    FillerIsHyphens(post);
    SluggedJoins(pre, s);
    SluggedJoins(pre + s, post);
    TrailingHyphensSplit(Slugged(pre) + Slugged(s), Slugged(post));
    EmptiesAreDropped(Split(Slugged(pre) + Slugged(s)), |post|);
    HyphensSplitOff(Slugged(pre), Slugged(s));
  }

  /** Trimming the name first makes no difference to its slug. */
  lemma TrimmingKeepsSlug(s: string)
    ensures JoinedSlug(Trim(s)) == JoinedSlug(s)
  {
    var pre, post := TrimTakesWhiteSpace(s);
    assert forall c: char | IsSpace(c) :: !Alphanumeric(c);
    FillerAroundIsIgnored(pre, Trim(s), post);
  }

  lemma {:induction false} JoinedEndsPlain(parts: seq<string>)
    requires forall part <- parts :: Plain(part) && part != ""
    ensures Join(parts) != "" ==> Join(parts)[|Join(parts)| - 1] != '-'
  {
    if parts != [] {
      assert Plain(parts[0]) && parts[0][|parts[0]| - 1] in parts[0];
      if |parts| > 1 {
        JoinedIsTidy(parts[1..]);
        JoinedEndsPlain(parts[1..]);
      }
    }
  }

  /** The first 80 characters, without a hyphen at the cut. */
  function CutSlug(joined: string): string {
    if |joined| <= 80 then joined else if joined[79] == '-' then joined[..79] else joined[..80]
  }

  lemma CutSlugIsTrimmed(joined: string)
    requires Tidy(joined) && (joined != "" ==> joined[|joined| - 1] != '-')
    ensures TrimHyphens(Truncate(joined, 80)) == CutSlug(joined)
  {
    if |joined| > 80 && joined[79] == '-' {
      var cut := joined[..80];
      assert joined[78] != '-';
      assert cut[..79] == joined[..79] && TrimHyphens(cut) == TrimHyphens(cut[..79]);
      assert TrimHyphens(joined[..79]) == joined[..79];
    }
  }

  /** Whatever the old id or, if that is blank, the name: its words in lower case, joined by single hyphens,
      cut to 80 characters without leaving a hyphen at the end, behind the prefix of migrated ids; and
      "game" when there is no word at all. */
  lemma MigratedIdSpelledOut(raw: string, fallback: string, lead: string, words: seq<string>, fillers: seq<string>)
    requires Consists(if Trim(raw) == "" then fallback else raw, lead, words, fillers)
    ensures var slug := CutSlug(Join(LowerAll(words)));
            MigratedId(raw, fallback) == "custom-migrated-" + if slug == "" then "game" else slug
  {
    BlankIsTrimmedAway(raw);
    var source := if IsBlank(raw) then fallback else raw;
    TrimmingKeepsSlug(source);
    SlugIsItsWords(source, lead, words, fillers);
    SluggedEndsPlain(source);
    CutSlugIsTrimmed(JoinedSlug(source));
  }

  lemma SluggedEndsPlain(s: string)
    ensures var joined := JoinedSlug(s); Tidy(joined) && (joined != "" ==> joined[|joined| - 1] != '-')
  {
    SluggedChars(s);
    SplitIsPlain(Slugged(s));
    NonEmptyKeeps(Split(Slugged(s)));
    JoinedIsTidy(NonEmpty(Split(Slugged(s))));
    JoinedEndsPlain(NonEmpty(Split(Slugged(s))));
  }

  // ---- Uniquifying ----

  function Decimal(n: nat): string {
    if n < 10 then [Digit(n)] else Decimal(n / 10) + [Digit(n % 10)]
  }

  function Digit(n: nat): char
    requires n < 10
  {
    "0123456789"[n]
  }

  lemma DigitsDiffer(m: nat, n: nat)
    requires m < 10 && n < 10 && Digit(m) == Digit(n)
    ensures m == n
  {
  }

  lemma {:induction false} DecimalDiffers(m: nat, n: nat)
    requires Decimal(m) == Decimal(n)
    ensures m == n
    decreases m
  {
    assert Decimal(m)[|Decimal(m)| - 1] == Decimal(n)[|Decimal(n)| - 1];
    DigitsDiffer(m % 10, n % 10);
    if m >= 10 && n >= 10 {
      assert Decimal(m)[..|Decimal(m)| - 1] == Decimal(m / 10);
      assert Decimal(n)[..|Decimal(n)| - 1] == Decimal(n / 10);
      DecimalDiffers(m / 10, n / 10);
    } else {
      DecimalNonEmpty(m / 10);
      DecimalNonEmpty(n / 10);
    }
  }

  lemma DecimalNonEmpty(n: nat)
    ensures Decimal(n) != ""
  {
  }

  lemma {:induction false} DecimalIsPlain(n: nat)
    ensures Plain(Decimal(n)) && Decimal(n) != ""
  {
    if n >= 10 {
      DecimalIsPlain(n / 10);
    }
  }

  function Pow10(k: nat): nat {
    if k == 0 then 1 else 10 * Pow10(k - 1)
  }

  lemma {:induction false} DecimalLength(n: nat, k: nat)
    requires 0 < k && n < Pow10(k)
    ensures |Decimal(n)| <= k
  {
    if n >= 10 {
      DecimalLength(n / 10, k - 1);
    }
  }

  /** The part of `base` that leaves room for the suffix. */
  function Stem(base: string, suffix: string): string {
    Truncate(base, if |suffix| <= MAX_CUSTOM_ID_LEN then MAX_CUSTOM_ID_LEN - |suffix| else 0)
  }

  function Candidate(base: string, n: nat): string {
    Stem(base, "-" + Decimal(n)) + "-" + Decimal(n)
  }

  function ReadDecimal(digits: string): nat
    requires forall i | 0 <= i < |digits| :: '0' <= digits[i] <= '9'
  {
    if digits == "" then 0
    else
      10 * ReadDecimal(digits[..|digits| - 1]) + (digits[|digits| - 1] - '0') as int
  }

  /** A suffix is its number in decimal, without leading zeros. */
  lemma {:induction false} DecimalReadsBack(n: nat)
    ensures (forall i | 0 <= i < |Decimal(n)| :: '0' <= Decimal(n)[i] <= '9') && ReadDecimal(Decimal(n)) == n
    ensures n > 0 ==> Decimal(n)[0] != '0'
  {
    assert forall d: nat | d < 10 :: Digit(d) as int == '0' as int + d;
    if n >= 10 {
      DecimalReadsBack(n / 10);
      assert Decimal(n)[..|Decimal(n)| - 1] == Decimal(n / 10);
    } else {
      assert Decimal(n)[..0] == "";
    }
  }

  /** A candidate is as much of the base as leaves room for the suffix, and the suffix. */
  lemma CandidateIs(base: string, n: nat)
    requires |Decimal(n)| <= 95
    ensures var id, room := Candidate(base, n), 95 - |Decimal(n)|;
            id == (if |base| <= room then base else base[..room]) + "-" + Decimal(n)
  {
  }

  lemma SplitAtLastHyphen(a: string, b: string, x: string, y: string)
    requires Plain(x) && Plain(y) && a + "-" + x == b + "-" + y
    ensures x == y
  {
    var s, t := a + "-" + x, b + "-" + y;
    assert forall i | 0 <= i < |x| :: x[i] in x && s[|s| - |x| + i] == x[i];
    assert forall i | 0 <= i < |y| :: y[i] in y && t[|t| - |y| + i] == y[i];
    assert s[|s| - |x| - 1] == '-' && t[|t| - |y| - 1] == '-';
    assert x == s[|s| - |x|..] == t[|t| - |y|..] == y;
  }

  /** Different suffix numbers never give the same candidate. */
  lemma CandidatesDiffer(base: string, m: nat, n: nat)
    requires Candidate(base, m) == Candidate(base, n)
    ensures m == n
  {
    DecimalIsPlain(m);
    DecimalIsPlain(n);
    SplitAtLastHyphen(Stem(base, "-" + Decimal(m)), Stem(base, "-" + Decimal(n)), Decimal(m), Decimal(n));
    DecimalDiffers(m, n);
  }

  /** The name tried when the suffix counter stands at `suffix`. */
  function Tried(base: string, suffix: nat): string {
    if suffix <= 2 then base else Candidate(base, suffix - 1)
  }

  /** The numbered variants up to, but without, number `stop`. */
  function Variants(base: string, stop: nat): set<string> {
    set k | 2 <= k < stop :: Candidate(base, k)
  }

  lemma {:induction false} VariantsCount(base: string, stop: nat)
    requires stop >= 2
    ensures |Variants(base, stop)| == stop - 2
  {
    if stop > 2 {
      VariantsCount(base, stop - 1);
      var newest := Candidate(base, stop - 1);
      if newest in Variants(base, stop - 1) {
        var k :| 2 <= k < stop - 1 && newest == Candidate(base, k);
        CandidatesDiffer(base, k, stop - 1);
      }
      assert Variants(base, stop) == Variants(base, stop - 1) + {newest};
    }
  }

  /** Every name tried before the counter stood at `suffix` was taken. */
  ghost predicate TakenBefore(base: string, suffix: nat, occupied: set<string>) {
    forall k | 2 <= k < suffix :: Tried(base, k) in occupied
  }

  lemma OneMoreTaken(base: string, suffix: nat, occupied: set<string>)
    requires TakenBefore(base, suffix, occupied) && Tried(base, suffix) in occupied
    ensures TakenBefore(base, suffix + 1, occupied)
  {
    forall k | 2 <= k < suffix + 1 ensures Tried(base, k) in occupied {
      if k == suffix {
        assert Tried(base, k) in occupied;
      }
    }
  }

  /** The counter never runs more than three ahead of the number of names taken. */
  lemma CounterIsBounded(base: string, suffix: nat, occupied: set<string>)
    requires suffix >= 2 && TakenBefore(base, suffix, occupied)
    ensures suffix <= |occupied| + 3
  {
    if suffix > 3 {
      forall name | name in Variants(base, suffix - 1) ensures name in occupied {
        var k :| 2 <= k < suffix - 1 && name == Candidate(base, k);
        assert Tried(base, k + 1) == name;
      }
      VariantsCount(base, suffix - 1);
      Subset(Variants(base, suffix - 1), occupied);
    }
  }

  lemma TriedIsShort(base: string, suffix: nat)
    requires |base| <= MAX_CUSTOM_ID_LEN && 2 <= suffix < U32_MAX
    ensures |Tried(base, suffix)| <= MAX_CUSTOM_ID_LEN
  {
    assert Pow10(10) == 10000000000;
    DecimalLength(suffix - 1, 10);
  }

  /** Takes the first free name among the base and its numbered variants, and occupies it.  `suffix`
      is where the counter stopped; it cannot pass the number of names already taken by more than
      three, so the loop ends.  The name is a valid id exactly when it is the base, or its stem was
      not cut right after a hyphen. */
  method UniqueMigratedId(raw: string, fallback: string, occupied: set<string>)
    returns (id: string, taken: set<string>, suffix: nat)
    ensures id !in occupied && taken == occupied + {id}
    ensures 2 <= suffix <= |occupied| + 3 && id == Tried(MigratedId(raw, fallback), suffix)
    ensures TakenBefore(MigratedId(raw, fallback), suffix, occupied)
    ensures suffix < U32_MAX ==> |id| <= MAX_CUSTOM_ID_LEN
    ensures suffix < U32_MAX ==> (Valid(id) <==> suffix == 2 || !CutAfterHyphen(raw, fallback, suffix - 1))
  {
    var base := MigratedId(raw, fallback);
    MigratedIsValid(raw, fallback);
    id := base;
    suffix := 2;
    CounterIsBounded(base, suffix, occupied);
    while id in occupied
      invariant suffix >= 2 && id == Tried(base, suffix)
      invariant TakenBefore(base, suffix, occupied)
      invariant suffix <= |occupied| + 3
      decreases |occupied| + 3 - suffix
    {
      OneMoreTaken(base, suffix, occupied);
      CounterIsBounded(base, suffix + 1, occupied);
      id := Candidate(base, suffix);
      suffix := suffix + 1;
    }
    if suffix < U32_MAX {
      TriedIsShort(base, suffix);
      if suffix > 2 {
        VariantValidity(raw, fallback, suffix - 1);
      }
    }
    taken := occupied + {id};
  }

  lemma {:induction false} Subset<T>(a: set<T>, b: set<T>)
    requires a <= b
    ensures |a| <= |b|
  {
    if a != {} {
      var x :| x in a;
      Subset(a - {x}, b - {x});
    }
  }

  lemma HyphenatedValidity(stem: string, digits: string)
    requires CUSTOM_PREFIX < stem && Tidy(stem[|CUSTOM_PREFIX|..]) && SlugChars(stem[|CUSTOM_PREFIX|..])
    requires Plain(digits) && digits != "" && |stem| + 1 + |digits| <= MAX_CUSTOM_ID_LEN
    ensures Valid(stem + "-" + digits) <==> stem[|stem| - 1] != '-'
  {
    var start := |CUSTOM_PREFIX|;
    var id := stem + "-" + digits;
    assert id[..start] == CUSTOM_PREFIX && id[0] == 'c' && id[1] == 'u';
    var slug := id[start..];
    assert slug == stem[start..] + "-" + digits;
    if stem[|stem| - 1] == '-' {
      assert slug[|stem| - start - 1] == '-' && slug[|stem| - start] == '-';
    } else {
      AppendedIsCanonical(stem[start..], digits);
    }
  }

  /** Making room for suffix number `n` cuts the migrated id right after a hyphen. */
  predicate CutAfterHyphen(raw: string, fallback: string, n: nat) {
    var stem := Stem(MigratedId(raw, fallback), "-" + Decimal(n));
    stem != "" && stem[|stem| - 1] == '-'
  }

  /** A numbered variant is itself a valid id if and only if the stem was not cut right after a hyphen. */
  lemma VariantValidity(raw: string, fallback: string, n: nat)
    requires n < U32_MAX
    ensures Valid(Candidate(MigratedId(raw, fallback), n)) <==> !CutAfterHyphen(raw, fallback, n)
  {
    var base := MigratedId(raw, fallback);
    MigratedIsValid(raw, fallback);
    assert base[..16] == MIGRATED_PREFIX;
    StemIsTidy(base, n);
    DecimalIsPlain(n);
    HyphenatedValidity(Stem(base, "-" + Decimal(n)), Decimal(n));
  }

  lemma StemIsTidy(base: string, n: nat)
    requires Valid(base) && |base| > 16 && n < U32_MAX
    ensures var stem := Stem(base, "-" + Decimal(n));
            && CUSTOM_PREFIX < stem && |stem| + 1 + |Decimal(n)| <= MAX_CUSTOM_ID_LEN
            && Tidy(stem[|CUSTOM_PREFIX|..]) && SlugChars(stem[|CUSTOM_PREFIX|..])
  {
    assert Pow10(10) == 10000000000;
    DecimalLength(n, 10);
    var stem := Stem(base, "-" + Decimal(n));
    var start := |CUSTOM_PREFIX|;
    PrefixStaysTidy(base[start..], |stem| - start);
    assert stem[start..] == base[start..][..|stem| - start];
  }

  lemma AppendedIsCanonical(front: string, digits: string)
    requires Tidy(front) && SlugChars(front) && front != "" && front[|front| - 1] != '-'
    requires Plain(digits) && digits != ""
    ensures Canonical(front + "-" + digits)
  {
    var whole := front + "-" + digits;
    assert forall i | 0 <= i < |digits| :: digits[i] in digits;
    forall i | 0 <= i < |whole| - 1 && whole[i] == '-' ensures whole[i + 1] != '-' {
      if i < |front| {
        assert whole[i + 1] == if i + 1 < |front| then front[i + 1] else '-';
      } else {
        assert whole[i + 1] == digits[i - |front|];
      }
    }
  }

  // ---- A cut right after a hyphen ----

  lemma {:induction false} SplitJoins(s: string)
    ensures Join(Split(s)) == s
  {
    if s != "" {
      SplitJoins(s[1..]);
      var rest := Split(s[1..]);
      assert s == [s[0]] + s[1..];
      if s[0] == '-' {
        assert Split(s)[1..] == rest;
      } else if |rest| > 1 {
        assert Split(s)[1..] == rest[1..];
      }
    }
  }

  lemma {:induction false} CanonicalHasNoEmptyPart(s: string)
    requires Tidy(s) || (s != "" && s[0] == '-' && Tidy(s[1..]))
    requires s != "" ==> s[|s| - 1] != '-'
    ensures forall i | 1 <= i < |Split(s)| :: Split(s)[i] != ""
    ensures Split(s)[0] == "" <==> s == "" || s[0] == '-'
  {
    if s != "" {
      CanonicalHasNoEmptyPart(s[1..]);
    }
  }

  lemma {:induction false} NonEmptyOfNonEmpty(parts: seq<string>)
    requires forall i | 0 <= i < |parts| :: parts[i] != ""
    ensures NonEmpty(parts) == parts
  {
    if parts != [] {
      NonEmptyOfNonEmpty(parts[1..]);
    }
  }

  lemma JoinedKeepsCanonical(slug: string)
    requires Canonical(slug) && Slugged(slug) == slug
    ensures JoinedSlug(slug) == slug
  {
    CanonicalHasNoEmptyPart(slug);
    NonEmptyOfNonEmpty(Split(slug));
    SplitJoins(slug);
  }

  /** Migrating a slug that is canonical already, and short enough, changes nothing but the prefix. */
  lemma MigrationKeepsCanonical(slug: string, fallback: string)
    requires Canonical(slug) && |slug| <= MAX_CUSTOM_ID_LEN - |MIGRATED_PREFIX|
    ensures MigratedId(slug, fallback) == MIGRATED_PREFIX + slug
  {
    CanonicalIsItsOwnSource(slug);
    JoinedKeepsCanonical(slug);
    assert TrimHyphens(slug) == slug;
  }

  lemma CanonicalIsItsOwnSource(slug: string)
    requires Canonical(slug)
    ensures !IsBlank(slug) && Trim(slug) == slug && Slugged(slug) == slug
  {
    assert slug[0] in slug && slug[|slug| - 1] in slug;
    assert forall i | 0 <= i < |slug| :: slug[i] in slug;
  }

  /** Two old games whose canonical id has 79 or 80 characters and a hyphen as the 78th: the second
      one's new id is not valid. */
  lemma CutAfterHyphenIsInvalid(id: string, fallback: string)
    requires Canonical(id) && 78 < |id| <= 80 && id[77] == '-'
    ensures !Valid(Candidate(MigratedId(id, fallback), 2))
  {
    MigrationKeepsCanonical(id, fallback);
    assert Decimal(2) == [Digit(2)];
    assert Stem(MIGRATED_PREFIX + id, "-" + Decimal(2))[93] == id[77];
    VariantValidity(id, fallback, 2);
  }

  /** 77 letters, a hyphen and two letters, for instance. */
  function CutId(): string {
    seq(77, i => 'a') + "-bb"
  }

  lemma CutIdIsCanonical()
    ensures Canonical(CutId()) && |CutId()| == 80 && CutId()[77] == '-'
  {
  }
}
