/** Agent slugs: validation, case folding, and the binding match used by the
    identity and visibility checks (`src/validation.rs`, `src/auth.rs`). */
module Slugs {
  import opened Prelude

  predicate IsAscii(s: string) {
    forall i :: 0 <= i < |s| ==> s[i] < 128 as char
  }

  /** A text column or parameter. Every slug the system stores is ASCII. */
  type Text = s: string | IsAscii(s)

  // ---------- case folding ----------

  function LowerChar(c: char): char {
    if 'A' <= c <= 'Z' then (c as int + 32) as char else c
  }

  function Lower(s: Text): (l: Text)
    ensures |l| == |s|
    ensures forall i :: 0 <= i < |s| ==> l[i] == LowerChar(s[i])
  {
    seq(|s|, i requires 0 <= i < |s| => LowerChar(s[i]))
  }

  predicate EqFold(a: Text, b: Text) {
    Lower(a) == Lower(b)
  }

  lemma LowerPrefix(s: Text, n: nat)
    requires n <= |s|
    ensures IsAscii(s[..n]) && Lower(s[..n]) == Lower(s)[..n]
  {
  }

  // ---------- trimming and validation ----------

  /** Unicode White_Space, which is what Rust's `trim` removes. */
  predicate IsWhite(c: char) {
    var n := c as int;
    || 0x09 <= n <= 0x0D || n == 0x20 || n == 0x85 || n == 0xA0 || n == 0x1680
    || 0x2000 <= n <= 0x200A || n == 0x2028 || n == 0x2029 || n == 0x202F
    || n == 0x205F || n == 0x3000
  }

  function TrimStart(s: string): string {
    if s != "" && IsWhite(s[0]) then TrimStart(s[1..]) else s
  }

  function TrimEnd(s: string): string {
    if s != "" && IsWhite(s[|s| - 1]) then TrimEnd(s[..|s| - 1]) else s
  }

  function Trim(s: string): string {
    TrimEnd(TrimStart(s))
  }

  predicate Blank(s: string) {
    Trim(s) == ""
  }

  lemma TrimEndEnds(s: string)
    ensures TrimEnd(s) <= s
    ensures TrimEnd(s) != "" ==> !IsWhite(TrimEnd(s)[|TrimEnd(s)| - 1])
  {
  }

  lemma TrimStartStarts(s: string)
    ensures TrimStart(s) != "" ==> !IsWhite(TrimStart(s)[0])
  {
  }

  /** Trimming twice changes nothing, so a trimmed, non-empty text is not blank. */
  lemma TrimIdempotent(s: string)
    ensures Trim(Trim(s)) == Trim(s)
  {
    TrimStartStarts(s);
    TrimEndEnds(TrimStart(s));
    TrimEndEnds(Trim(s));
  }

  predicate SlugChar(c: char) {
    'a' <= c <= 'z' || 'A' <= c <= 'Z' || '0' <= c <= '9' || c == '-' || c == '_' || c == '.'
  }

  predicate ValidSlug(s: string) {
    1 <= |s| <= 80 && forall i :: 0 <= i < |s| ==> SlugChar(s[i])
  }

  function ValidateAgentName(input: string): Option<Text> {
    var trimmed := Trim(input);
    if ValidSlug(trimmed) then Some(trimmed) else None
  }

  lemma ValidSlugIsTrimmed(s: string)
    requires ValidSlug(s)
    ensures Trim(s) == s
  {
  }

  // ---------- bindings ----------

  predicate IsFamily(binding: string) {
    |binding| >= 2 && binding[|binding| - 2] == '-' && binding[|binding| - 1] == '*'
  }

  function FamilyBase(binding: Text): Text
    requires IsFamily(binding)
  {
    binding[..|binding| - 2]
  }

  /** What token parsing produces: a slug, or a slug family `<base>-*`. */
  predicate ValidBinding(binding: Text) {
    ValidSlug(binding) || (IsFamily(binding) && ValidSlug(FamilyBase(binding)))
  }

  predicate SlugMatches(binding: Text, slug: Text) {
    if IsFamily(binding) then
      var base := FamilyBase(binding);
      || EqFold(slug, base)
      || (var b, s := Lower(base), Lower(slug);
          |s| > |b| + 1 && s[..|b|] == b && s[|b|] == '-')
    else
      EqFold(binding, slug)
  }

  lemma ValidSlugIsNoFamily(s: string)
    requires ValidSlug(s)
    ensures !IsFamily(s)
  {
  }

  /** The binding match depends on the slug only up to ASCII case. */
  lemma SlugMatchesFolds(binding: Text, a: Text, b: Text)
    requires EqFold(a, b)
    ensures SlugMatches(binding, a) <==> SlugMatches(binding, b)
  {
  }

  /** A family `<base>-*` covers the base itself and every `<base>-<suffix>` with
      a non-empty suffix, and nothing else. */
  lemma FamilyCoversBaseAndMembers(base: Text, slug: Text)
    ensures IsAscii(base + "-*")
    ensures SlugMatches(base + "-*", slug) <==>
            EqFold(slug, base)
            || exists suffix: Text :: |suffix| > 0 && Lower(slug) == Lower(base) + "-" + suffix
  {
    var binding: string := base + "-*";
    assert IsFamily(binding) && FamilyBase(binding) == base;
    var b, s := Lower(base), Lower(slug);
    if |s| > |b| + 1 && s[..|b|] == b && s[|b|] == '-' {
      var suffix := s[|b| + 1..];
      assert s == b + "-" + suffix;
    }
    forall suffix: Text | |suffix| > 0 && s == b + "-" + suffix
      ensures |s| > |b| + 1 && s[..|b|] == b && s[|b|] == '-'
    {
    }
  }

  /** Two texts fold together exactly when they differ, place by place, only in the
      case of letters. */
  lemma FoldsExactly(a: Text, b: Text)
    ensures EqFold(a, b) <==>
            && |a| == |b|
            && forall i :: 0 <= i < |a| ==>
                 || a[i] == b[i]
                 || ('A' <= a[i] <= 'Z' && b[i] as int == a[i] as int + 32)
                 || ('A' <= b[i] <= 'Z' && a[i] as int == b[i] as int + 32)
  {
    if EqFold(a, b) {
      assert |Lower(a)| == |Lower(b)|;
      forall i | 0 <= i < |a| ensures LowerChar(a[i]) == LowerChar(b[i]) {
        assert Lower(a)[i] == Lower(b)[i];
      }
    }
  }

  /** A name is taken exactly when, trimmed, it is 1 to 80 letters, digits, dashes,
      underscores and dots; it is kept trimmed. */
  lemma NamesAreTakenExactly(input: string)
    ensures ValidateAgentName(input).Some? <==>
            && 1 <= |Trim(input)| <= 80
            && forall c :: c in Trim(input) ==>
                 'a' <= c <= 'z' || 'A' <= c <= 'Z' || '0' <= c <= '9' || c in "-_."
    ensures ValidateAgentName(input).Some? ==> ValidateAgentName(input).value == Trim(input)
  {
    var name := Trim(input);
    forall i | 0 <= i < |name| ensures name[i] in name {
    }
    assert forall c :: c in "-_." <==> c == '-' || c == '_' || c == '.';
  }
}
