/**
 * The routing-strategy resolver: the configured strategy name, trimmed and
 * lower-cased, is mapped through a small synonym table onto one of three
 * canonical strategies, and each strategy onto a credential selector.
 */
module RoutingStrategy {
  import opened Text

  const Weighted: string := "weighted"
  const RoundRobin: string := "round-robin"
  const FillFirst: string := "fill-first"

  /** The three names the resolver ever returns. */
  predicate Canonical(name: string)
  {
    name == Weighted || name == RoundRobin || name == FillFirst
  }

  /**
   * The synonym table as data: every spelling the resolver recognises,
   * mapped to the canonical strategy it stands for.
   */
  const Synonyms: map<string, string> := map[
    "fill-first" := FillFirst, "fillfirst" := FillFirst, "ff" := FillFirst,
    "round-robin" := RoundRobin, "roundrobin" := RoundRobin, "rr" := RoundRobin,
    "weighted" := Weighted, "weight" := Weighted]

  /** What the resolver compares against the table: the name trimmed, then lower-cased. */
  function Normalized(strategy: string): string
  {
    ToLower(TrimSpace(strategy))
  }

  /**
   * `normalizeRoutingStrategyWithKnown`: the canonical strategy and whether
   * the name was recognised. A blank name is the weighted default and counts
   * as recognised; an unrecognised name also falls back to weighted.
   */
  function NormalizeRoutingStrategyWithKnown(strategy: string): (r: (string, bool))
    ensures Canonical(r.0)
    ensures !r.1 ==> r.0 == Weighted
  {
    ResolveNormalized(Normalized(strategy))
  }

  /** The `switch` of `normalizeRoutingStrategyWithKnown`, on the already normalised name. */
  function ResolveNormalized(normalized: string): (string, bool)
  {
    if normalized == "" then (Weighted, true)
    else if normalized == FillFirst || normalized == "fillfirst" || normalized == "ff" then (FillFirst, true)
    else if normalized == RoundRobin || normalized == "roundrobin" || normalized == "rr" then (RoundRobin, true)
    else if normalized == Weighted || normalized == "weight" then (Weighted, true)
    else (Weighted, false)
  }

  /** `normalizeRoutingStrategy`: the canonical strategy alone. */
  function NormalizeRoutingStrategy(strategy: string): (name: string)
    ensures Canonical(name)
    ensures name == NormalizeRoutingStrategyWithKnown(strategy).0
  {
    var (normalized, _) := NormalizeRoutingStrategyWithKnown(strategy);
    normalized
  }

  /** The selector implementations a strategy can choose. */
  datatype SelectorKind = FillFirstSelector | RoundRobinSelector | WeightedSelector

  /** `selectorForRoutingStrategy`: the selector for the strategy the name resolves to. */
  function SelectorForRoutingStrategy(strategy: string): (kind: SelectorKind)
    ensures kind == FillFirstSelector <==> NormalizeRoutingStrategy(strategy) == FillFirst
    ensures kind == RoundRobinSelector <==> NormalizeRoutingStrategy(strategy) == RoundRobin
    ensures kind == WeightedSelector <==> NormalizeRoutingStrategy(strategy) == Weighted
  {
    var normalized := NormalizeRoutingStrategy(strategy);
    if normalized == FillFirst then FillFirstSelector
    else if normalized == RoundRobin then RoundRobinSelector
    else WeightedSelector
  }

  // ---------------------------------------------------------------------
  // Properties
  // ---------------------------------------------------------------------

  /**
   * The resolver agrees with the synonym table: a blank name gives the
   * recognised weighted default, a name whose normal form is in the table
   * gives its entry, recognised, and any other name gives weighted,
   * unrecognised.
   */
  lemma ResolverMatchesTable(strategy: string)
    ensures var n := Normalized(strategy);
      NormalizeRoutingStrategyWithKnown(strategy)
        == if n == "" then (Weighted, true)
           else if n in Synonyms then (Synonyms[n], true)
           else (Weighted, false)
  {
  }

  /** A name that is empty or white space only gives the recognised weighted default. */
  lemma BlankIsWeighted(strategy: string)
    requires AllSpace(strategy)
    ensures NormalizeRoutingStrategyWithKnown(strategy) == (Weighted, true)
  {
    TrimSpaceFacts(strategy);
  }

  /** A name is unrecognised exactly when it is not blank and its normal form is not in the table. */
  lemma UnknownIsWeighted(strategy: string)
    ensures !NormalizeRoutingStrategyWithKnown(strategy).1
        <==> !AllSpace(strategy) && Normalized(strategy) !in Synonyms
  {
    TrimSpaceFacts(strategy);
  }

  /** The switch sends each canonical name to itself. */
  lemma ResolveCanonical(name: string)
    requires Canonical(name)
    ensures ResolveNormalized(name) == (name, true)
  {
    if name == Weighted {
      assert ResolveNormalized(Weighted) == (Weighted, true);
    } else if name == RoundRobin {
      assert ResolveNormalized(RoundRobin) == (RoundRobin, true);
    }
  }

  /** Each canonical name resolves to itself, recognised. */
  lemma CanonicalResolvesToItself(name: string)
    requires Canonical(name)
    ensures NormalizeRoutingStrategyWithKnown(name) == (name, true)
  {
    PlainWordUnchanged(name);
    ResolveCanonical(name);
  }

  /** Resolving twice is resolving once. */
  lemma NormalizeIdempotent(strategy: string)
    ensures NormalizeRoutingStrategy(NormalizeRoutingStrategy(strategy)) == NormalizeRoutingStrategy(strategy)
  {
    CanonicalResolvesToItself(NormalizeRoutingStrategy(strategy));
  }

  /** The normal form of a normal form is itself. */
  lemma NormalizedIdempotent(strategy: string)
    ensures Normalized(Normalized(strategy)) == Normalized(strategy)
  {
    var trimmed := TrimSpace(strategy);
    TrimSpaceFacts(strategy);
    TrimSpaceFacts(trimmed);
    TrimSpaceToLower(trimmed);
    ToLowerIdempotent(trimmed);
  }

  /** The resolver looks at a name only through its normal form. */
  lemma ResolverUsesNormalForm(strategy: string)
    ensures NormalizeRoutingStrategyWithKnown(Normalized(strategy)) == NormalizeRoutingStrategyWithKnown(strategy)
  {
    NormalizedIdempotent(strategy);
  }

  /** The case of the letters of a name makes no difference. */
  lemma ResolverIgnoresCase(strategy: string)
    ensures NormalizeRoutingStrategyWithKnown(ToLower(strategy)) == NormalizeRoutingStrategyWithKnown(strategy)
  {
    TrimSpaceToLower(strategy);
    ToLowerIdempotent(TrimSpace(strategy));
  }

  /** White space around a name makes no difference. */
  lemma ResolverIgnoresPadding(strategy: string, left: string, right: string)
    requires AllSpace(left) && AllSpace(right)
    ensures NormalizeRoutingStrategyWithKnown(left + TrimSpace(strategy) + right) == NormalizeRoutingStrategyWithKnown(strategy)
  {
    TrimSpaceFacts(strategy);
    TrimSpacePadded(left, TrimSpace(strategy), right);
  }

  /** The short forms resolve to their strategies, recognised. */
  lemma ShortForms()
    ensures NormalizeRoutingStrategyWithKnown("ff") == (FillFirst, true)
    ensures NormalizeRoutingStrategyWithKnown("rr") == (RoundRobin, true)
    ensures NormalizeRoutingStrategyWithKnown("weight") == (Weighted, true)
  {
    PlainWordUnchanged("ff");
    PlainWordUnchanged("rr");
    PlainWordUnchanged("weight");
  }

  /** A name outside the table falls back to weighted, unrecognised. */
  lemma UnknownName()
    ensures NormalizeRoutingStrategyWithKnown("not-real") == (Weighted, false)
  {
    PlainWordUnchanged("not-real");
  }

  /**
   * The selector for a name: fill-first for the fill-first spellings,
   * round-robin for the round-robin spellings, weighted for everything
   * else, blank and unrecognised names included.
   */
  lemma SelectorTable(strategy: string)
    ensures var n := Normalized(strategy);
      && (SelectorForRoutingStrategy(strategy) == FillFirstSelector <==> n in Synonyms && Synonyms[n] == FillFirst)
      && (SelectorForRoutingStrategy(strategy) == RoundRobinSelector <==> n in Synonyms && Synonyms[n] == RoundRobin)
      && (SelectorForRoutingStrategy(strategy) == WeightedSelector <==> n !in Synonyms || Synonyms[n] == Weighted)
  {
    ResolverMatchesTable(strategy);
  }
}
