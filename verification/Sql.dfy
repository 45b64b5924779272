/** The fragment of SQL the handoff queries use, with NULLs and three-valued
    logic. A NULL text is `None`; a row is selected only when its WHERE clause
    is `Yes`. */
module Sql {
  import opened Prelude
  import opened Slugs

  datatype Tri = Yes | No | Unknown

  function Truth(b: bool): Tri {
    if b then Yes else No
  }

  function And(a: Tri, b: Tri): Tri {
    if a == No || b == No then No else if a == Yes && b == Yes then Yes else Unknown
  }

  function Or(a: Tri, b: Tri): Tri {
    if a == Yes || b == Yes then Yes else if a == No && b == No then No else Unknown
  }

  function Not(a: Tri): Tri {
    match a
    case Yes => No
    case No => Yes
    case Unknown => Unknown
  }

  function Coalesce(a: Tri, default: bool): Tri {
    if a == Unknown then Truth(default) else a
  }

  function IsNull<T>(a: Option<T>): Tri {
    Truth(a.None?)
  }

  function EqText(a: Option<Text>, b: Option<Text>): Tri {
    if a.None? || b.None? then Unknown else Truth(a.value == b.value)
  }

  function LowerOf(a: Option<Text>): Option<Text> {
    if a.None? then None else Some(Lower(a.value))
  }

  /** `LOWER(a) = LOWER(b)`, the comparison every agent filter uses. */
  function EqLower(a: Option<Text>, b: Option<Text>): Tri {
    EqText(LowerOf(a), LowerOf(b))
  }

  function LengthOf(a: Option<Text>): Option<int> {
    if a.None? then None else Some(|a.value|)
  }

  function Minus(a: Option<int>, n: int): Option<int> {
    if a.None? then None else Some(a.value - n)
  }

  function Greater(a: Option<int>, b: Option<int>): Tri {
    if a.None? || b.None? then Unknown else Truth(a.value > b.value)
  }

  /** `LEFT(a, -n)`: all but the last `n` characters, empty when there are fewer. */
  function LeftLess(a: Option<Text>, n: nat): Option<Text> {
    if a.None? then None
    else if |a.value| <= n then Some("")
    else Some(a.value[..|a.value| - n])
  }

  /** `RIGHT(a, n)`: the last `n` characters, the whole text when it is shorter. */
  function Right(a: Option<Text>, n: nat): Option<Text> {
    if a.None? then None
    else if |a.value| <= n then a
    else Some(a.value[|a.value| - n..])
  }

  function StartsWith(a: Option<Text>, prefix: Option<Text>): Tri {
    if a.None? || prefix.None? then Unknown else Truth(prefix.value <= a.value)
  }

  // ---------- party_clause ----------

  /** The disjunction `party_clause` builds for one column. */
  function PartyMatch(param: Option<Text>, col: Option<Text>): Tri {
    Or(EqLower(col, param),
       And(EqText(Right(param, 2), Some("-*")),
           Or(EqLower(col, LeftLess(param, 2)),
              And(Greater(LengthOf(col), Minus(LengthOf(param), 1)),
                  StartsWith(LowerOf(col), LowerOf(LeftLess(param, 1)))))))
  }

  function PartyClause(param: Option<Text>, fromAgent: Option<Text>, toAgent: Option<Text>): Tri {
    Or(Or(IsNull(param), PartyMatch(param, fromAgent)), PartyMatch(param, toAgent))
  }

  /** "Starts with `b-`", told by prefix and told by position. */
  lemma {:induction false} DashedPrefix(b: string, s: string, dashed: string)
    requires dashed == b + "-" && |s| > |b| + 1
    ensures dashed <= s <==> s[..|b|] == b && s[|b|] == '-'
  {
    if s[..|b|] == b && s[|b|] == '-' {
      assert s == dashed + s[|b| + 1..];
    }
    if dashed <= s {
      assert dashed == s[..|b| + 1];
      assert s[..|b| + 1][..|b|] == s[..|b|];
    }
  }

  /** The parts of a family parameter that SQL cuts out with LEFT and RIGHT. */
  lemma {:induction false} FamilyParts(binding: Text)
    requires IsFamily(binding)
    ensures var base := FamilyBase(binding);
            && Right(Some(binding), 2) == Some("-*")
            && LeftLess(Some(binding), 2) == Some(base)
            && LowerOf(LeftLess(Some(binding), 1)) == Some(Lower(base) + "-")
            && Lower(binding) == Lower(base) + "-*"
  {
    var n := |binding|;
    assert binding[n - 2..] == "-*";
    assert n == 2 ==> binding == binding[n - 2..];
    LowerPrefix(binding, n - 2);
    LowerPrefix(binding, n - 1);
    assert binding[..n - 1] == binding[..n - 2] + "-";
    assert Lower(binding[..n - 1]) == Lower(binding[..n - 2]) + "-";
  }

  lemma {:induction false} FamilyMatch(binding: Text, slug: Text)
    requires IsFamily(binding)
    ensures PartyMatch(Some(binding), Some(slug)) == Truth(SlugMatches(binding, slug))
  {
    FamilyParts(binding);
    var b, s := Lower(FamilyBase(binding)), Lower(slug);
    if |s| > |b| + 1 {
      DashedPrefix(b, s, b + "-");
    }
    if s == b + "-*" {
      assert s[..|b|] == b && s[|b|] == '-';
    }
  }

  lemma {:induction false} PlainTail(binding: Text)
    requires !IsFamily(binding)
    ensures EqText(Right(Some(binding), 2), Some("-*")) == No
  {
    var n := |binding|;
    if n >= 2 {
      assert binding[n - 2..][0] == binding[n - 2] && binding[n - 2..][1] == binding[n - 1];
    }
  }

  lemma {:induction false} PlainMatch(binding: Text, slug: Text)
    requires !IsFamily(binding)
    ensures PartyMatch(Some(binding), Some(slug)) == Truth(SlugMatches(binding, slug))
  {
    PlainTail(binding);
  }

  /** On non-NULL arguments the SQL text filter is two-valued and is the Rust
      binding match, for families and plain slugs alike. */
  lemma {:induction false} PartyMatchIsSlugMatches(binding: Text, slug: Text)
    ensures PartyMatch(Some(binding), Some(slug)) == Truth(SlugMatches(binding, slug))
  {
    if IsFamily(binding) {
      FamilyMatch(binding, slug);
    } else {
      PlainMatch(binding, slug);
    }
  }

  /** A NULL column never matches: it is `No` or `Unknown`, so never selected. */
  lemma {:induction false} PartyMatchNullColumn(binding: Text)
    ensures PartyMatch(Some(binding), None) != Yes
  {
  }
}
