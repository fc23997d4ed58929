/**
  Rust's `match` on a `Language` that yields a string: arms are tried in
  source order, the first arm whose pattern lists the language wins, and the
  final wildcard arm `_ => ...` catches every language no arm lists. A later
  arm listing a language that an earlier arm already lists can never be chosen.
 */
module LanguageMatch {
  import opened Languages

  /** One arm `L1 | L2 | ... => text`. */
  datatype Arm = Arm(patterns: seq<Language>, text: string)

  /** A whole `match`: its explicit arms in source order, then `_ => fallback`. */
  datatype Match = Match(arms: seq<Arm>, fallback: string)

  predicate Lists(arm: Arm, language: Language) {
    language in arm.patterns
  }

  /** Whether some explicit arm lists the language. */
  predicate Covers(arms: seq<Arm>, language: Language) {
    exists i :: 0 <= i < |arms| && Lists(arms[i], language)
  }

  /**
    The index of the first arm that lists the language, or `|arms|` when none
    does (the wildcard arm is taken).
   */
  function FirstArm(arms: seq<Arm>, language: Language): (k: nat)
    ensures k <= |arms|
    ensures k < |arms| ==> Lists(arms[k], language)
    ensures forall j :: 0 <= j < k ==> !Lists(arms[j], language)
    decreases |arms|
  {
    if arms == [] then 0
    else if Lists(arms[0], language) then 0
    else 1 + FirstArm(arms[1..], language)
  }

  /** The value of the `match` for the language. */
  function Resolve(m: Match, language: Language): (r: string)
    ensures !Covers(m.arms, language) ==> r == m.fallback
    ensures r == m.fallback || exists i :: 0 <= i < |m.arms| && Lists(m.arms[i], language) && r == m.arms[i].text
    ensures NonEmptyTexts(m) ==> |r| > 0
  {
    var k := FirstArm(m.arms, language);
    if k < |m.arms| then m.arms[k].text else m.fallback
  }

  predicate NonEmptyTexts(m: Match) {
    |m.fallback| > 0 && forall i :: 0 <= i < |m.arms| ==> |m.arms[i].text| > 0
  }

  /** Arm `i` is unreachable: every language it lists is listed by an earlier arm. */
  predicate Shadowed(arms: seq<Arm>, i: nat)
    requires i < |arms|
  {
    forall l :: Lists(arms[i], l) ==> exists j :: 0 <= j < i && Lists(arms[j], l)
  }

  /** The first arm listing the language decides the value. */
  lemma ResolveFirstListing(m: Match, language: Language, i: nat)
    requires i < |m.arms| && Lists(m.arms[i], language)
    requires forall j :: 0 <= j < i ==> !Lists(m.arms[j], language)
    ensures Resolve(m, language) == m.arms[i].text
  {
  }

  /** A language no arm lists gets the wildcard's text. */
  lemma ResolveUncovered(m: Match, language: Language)
    requires !Covers(m.arms, language)
    ensures Resolve(m, language) == m.fallback
  {
  }

  /** An unreachable arm's text is never the value of the `match` through that arm. */
  lemma ShadowedNeverChosen(m: Match, i: nat, language: Language)
    requires i < |m.arms| && Shadowed(m.arms, i)
    ensures FirstArm(m.arms, language) != i
  {
  }

  /**
    Every language of `languages` is listed by exactly one arm: the property
    an authored catalog entry is meant to have, with no missing and no
    duplicate arm.
   */
  predicate ExactlyOnce(arms: seq<Arm>, languages: set<Language>) {
    forall l :: l in languages ==>
      Covers(arms, l) &&
      forall i, j :: 0 <= i < j < |arms| && Lists(arms[i], l) ==> !Lists(arms[j], l)
  }
}
