/**
 * The admission rule lists a chain is built with. Each rule is an opaque tag:
 * what a rule decides about an envelope is supplied by the caller as `verdict`.
 */
module Filters {

  datatype Rule =
    | EmptyRejectRule    // filter.EmptyRejectRule
    | SigFilter          // sigfilter.New(IngressPolicy, policyManager)
    | SystemChainFilter  // newSystemChainFilter(ml): recognises chain-creation transactions
    | ConfigTxFilter     // configtx.NewFilter(configManager)
    | AcceptRule         // filter.AcceptRule: the catch-all

  datatype Action = Accept | Reject | Forward

  /** createStandardFilters: the rule list of an ordinary chain. */
  function CreateStandardFilters(): (rules: seq<Rule>)
    ensures |rules| == 4 && rules[0] == EmptyRejectRule
    ensures rules[|rules| - 1] == AcceptRule && AcceptRule !in rules[..|rules| - 1]
    ensures SystemChainFilter !in rules
  {
    [EmptyRejectRule, SigFilter, ConfigTxFilter, AcceptRule]
  }

  /**
   * createSystemChainFilters: the standard list with the chain-creation rule
   * inserted after the signature check and before configuration validation.
   */
  function CreateSystemChainFilters(): (rules: seq<Rule>)
    ensures rules == CreateStandardFilters()[..2] + [SystemChainFilter] + CreateStandardFilters()[2..]
    ensures rules[1] == SigFilter && rules[2] == SystemChainFilter && rules[3] == ConfigTxFilter
    ensures rules[|rules| - 1] == AcceptRule
  {
    [EmptyRejectRule, SigFilter, SystemChainFilter, ConfigTxFilter, AcceptRule]
  }

  /**
   * A rule list evaluated left to right: the first Accept or Reject decides;
   * Forward passes to the next rule. Forward as the result means that no rule
   * decided.
   */
  function Evaluate(rules: seq<Rule>, verdict: Rule -> Action): (a: Action)
    ensures a == Forward <==> forall k | 0 <= k < |rules| :: verdict(rules[k]) == Forward
    ensures a != Forward ==>
      exists k | 0 <= k < |rules| ::
        verdict(rules[k]) == a && forall j | 0 <= j < k :: verdict(rules[j]) == Forward
  {
    if rules == [] then Forward
    else if verdict(rules[0]) != Forward then verdict(rules[0])
    else
      var rest := Evaluate(rules[1..], verdict);
      assert forall k | 1 <= k < |rules| :: rules[k] == rules[1..][k - 1];
      rest
  }

  /** A list that ends in a catch-all Accept never falls off its end. */
  lemma EndsInAcceptDecides(rules: seq<Rule>, verdict: Rule -> Action)
    requires |rules| > 0 && rules[|rules| - 1] == AcceptRule
    requires verdict(AcceptRule) == Accept
    ensures Evaluate(rules, verdict) != Forward
  {
    assert verdict(rules[|rules| - 1]) != Forward;
  }

  /** Both chain kinds always reach a decision on every envelope. */
  lemma BuiltListsDecide(verdict: Rule -> Action)
    requires verdict(AcceptRule) == Accept
    ensures Evaluate(CreateStandardFilters(), verdict) != Forward
    ensures Evaluate(CreateSystemChainFilters(), verdict) != Forward
  {
    EndsInAcceptDecides(CreateStandardFilters(), verdict);
    EndsInAcceptDecides(CreateSystemChainFilters(), verdict);
  }

  /**
   * On an envelope the chain-creation rule does not claim, the system chain
   * admits or rejects exactly as an ordinary chain does.
   */
  lemma SystemChainAgreesWhenNotClaimed(verdict: Rule -> Action)
    requires verdict(SystemChainFilter) == Forward
    ensures Evaluate(CreateSystemChainFilters(), verdict) == Evaluate(CreateStandardFilters(), verdict)
  {
    var sys, std := CreateSystemChainFilters(), CreateStandardFilters();
    assert sys[1..][1..][1..] == std[1..][1..];
  }

  /**
   * Before the inserted rule is reached the two lists agree; an envelope
   * rejected for being empty or for failing the ingress policy is rejected on
   * both kinds of chain.
   */
  lemma SystemChainSharesPrefix(verdict: Rule -> Action)
    requires verdict(EmptyRejectRule) == Reject || verdict(SigFilter) == Reject
    requires verdict(EmptyRejectRule) != Accept
    ensures Evaluate(CreateSystemChainFilters(), verdict) == Reject
    ensures Evaluate(CreateStandardFilters(), verdict) == Reject
  {
    var sys, std := CreateSystemChainFilters(), CreateStandardFilters();
    assert sys[1..][0] == SigFilter && std[1..][0] == SigFilter;
  }
}
