/** Character classes and ASCII case, as the standard library defines them. */
module Chars {

  /** White space as Unicode defines it. */
  predicate IsSpace(c: char) {
    || '\U{0009}' <= c <= '\U{000D}' || c == ' ' || c == '\U{0085}' || c == '\U{00A0}'
    || c == '\U{1680}' || '\U{2000}' <= c <= '\U{200A}' || c == '\U{2028}' || c == '\U{2029}'
    || c == '\U{202F}' || c == '\U{205F}' || c == '\U{3000}'
  }

  function LowerChar(c: char): char {
    if 'A' <= c <= 'Z' then c - 'A' + 'a' else c
  }

  function Lower(s: string): string {
    seq(|s|, i requires 0 <= i < |s| => LowerChar(s[i]))
  }

  /** Folding leaves no ASCII capital and changes nothing else. */
  lemma LowerFolds(s: string)
    ensures |Lower(s)| == |s|
    ensures forall i | 0 <= i < |s| ::
              if s[i] in "ABCDEFGHIJKLMNOPQRSTUVWXYZ"
              then Lower(s)[i] as int == s[i] as int + 32 else Lower(s)[i] == s[i]
  {
    forall i | 0 <= i < |s| ensures s[i] in "ABCDEFGHIJKLMNOPQRSTUVWXYZ" <==> 'A' <= s[i] <= 'Z' {
      CapitalsAreARange(s[i]);
    }
  }

  lemma CapitalsAreARange(c: char)
    ensures c in "ABCDEFGHIJKLMNOPQRSTUVWXYZ" <==> 'A' <= c <= 'Z'
  {
    var capitals := "ABCDEFGHIJKLMNOPQRSTUVWXYZ";
    assert forall i | 0 <= i < 26 :: capitals[i] == 'A' + i as char;
    if 'A' <= c <= 'Z' {
      assert capitals[(c - 'A') as int] == c;
    }
  }

  predicate IsLowerAlphanumeric(c: char) {
    'a' <= c <= 'z' || '0' <= c <= '9'
  }

  predicate IsBlank(s: string) {
    forall c <- s :: IsSpace(c)
  }

  function Trim(s: string): string {
    if s != "" && IsSpace(s[0]) then Trim(s[1..])
    else if s != "" && IsSpace(s[|s| - 1]) then Trim(s[..|s| - 1])
    else s
  }

  lemma Surrounded(c: string, lead: string, core: string, tail: string) returns (longer: string)
    requires IsBlank(c) && IsBlank(lead)
    ensures longer + core + tail == c + (lead + core + tail) && IsBlank(longer)
  {
    longer := c + lead;
  }

  lemma Followed(c: string, lead: string, core: string, tail: string) returns (longer: string)
    requires IsBlank(c) && IsBlank(tail)
    ensures lead + core + longer == (lead + core + tail) + c && IsBlank(longer)
  {
    longer := tail + c;
  }

  /** Trimming takes white space, and all of it, off both ends. */
  lemma {:induction false} TrimTakesWhiteSpace(s: string) returns (lead: string, tail: string)
    ensures s == lead + Trim(s) + tail && IsBlank(lead) && IsBlank(tail)
    ensures Trim(s) != "" ==> !IsSpace(Trim(s)[0]) && !IsSpace(Trim(s)[|Trim(s)| - 1])
    decreases |s|
  {
    if s != "" && IsSpace(s[0]) {
      lead, tail := TrimTakesWhiteSpace(s[1..]);
      lead := Surrounded([s[0]], lead, Trim(s[1..]), tail);
    } else if s != "" && IsSpace(s[|s| - 1]) {
      lead, tail := TrimTakesWhiteSpace(s[..|s| - 1]);
      assert s == s[..|s| - 1] + [s[|s| - 1]];
      tail := Followed([s[|s| - 1]], lead, Trim(s[..|s| - 1]), tail);
    } else {
      lead, tail := "", "";
    }
  }

  lemma BlankIsTrimmedAway(s: string)
    ensures IsBlank(s) <==> Trim(s) == ""
  {
    var lead, tail := TrimTakesWhiteSpace(s);
    if Trim(s) != "" {
      assert s[|lead|] == Trim(s)[0];
      assert !IsSpace(s[|lead|]) && s[|lead|] in s;
    } else {
      assert s == lead + tail;
    }
  }
}
