/**
 * First-success search over grammar rules: `choice` and the dispatch of
 * `parseApplication` on the type of the latest finished node
 * (parserUtils.kt).  A rule is seen only through whether it parses at
 * the current position.  The model assumes a rule that fails leaves the
 * builder as it found it, so that every rule is asked at the same state.
 */
module GroovyDispatch {
  import opened Common

  /** Types of the latest done marker that `parseApplication` tells apart. */
  datatype ElementType =
    | ApplicationExpression   // APPLICATION_EXPRESSION
    | MethodCallExpression    // METHOD_CALL_EXPRESSION
    | ReferenceExpression     // REFERENCE_EXPRESSION
    | ApplicationIndex        // APPLICATION_INDEX
    | OtherElement(name: string)

  /** The four rules `parseApplication` is given. */
  datatype Rule = RefRule | ApplicationRule | CallRule | IndexRule

  /**
   * The index of the first rule that parses, asking them in order and
   * stopping at the first success.
   */
  function FirstSuccess<P>(rules: seq<P>, parses: P -> bool): (r: Option<nat>)
    ensures r.Some? ==> r.value < |rules| && parses(rules[r.value])
    ensures r.Some? ==> forall j :: 0 <= j < r.value ==> !parses(rules[j])
    ensures r.None? ==> forall j :: 0 <= j < |rules| ==> !parses(rules[j])
    decreases |rules|
  {
    if rules == [] then None
    else if parses(rules[0]) then Some(0)
    else match FirstSuccess(rules[1..], parses)
      case None => None
      case Some(i) => Some(i + 1)
  }

  /** `choice`: true iff one of the rules parses. */
  function Choice<P>(rules: seq<P>, parses: P -> bool): (r: bool)
    ensures r <==> exists j :: 0 <= j < |rules| && parses(rules[j])
  {
    FirstSuccess(rules, parses).Some?
  }

  /** The rules `parseApplication` tries after a node of type `wrappee`, in order. */
  function ApplicationRules(wrappee: ElementType): (rules: seq<Rule>)
    ensures 1 <= |rules| <= 3
    ensures forall i, j :: 0 <= i < j < |rules| ==> rules[i] != rules[j]
    ensures rules[|rules| - 1] == RefRule || rules[|rules| - 1] == ApplicationRule
    ensures IndexRule in rules <==> wrappee == MethodCallExpression || wrappee == ReferenceExpression
    ensures IndexRule in rules ==> rules[0] == IndexRule
    ensures ApplicationRule in rules <==> wrappee == ReferenceExpression || wrappee.OtherElement?
    ensures RefRule in rules <==> !(ApplicationRule in rules)
    ensures CallRule in rules <==> wrappee != ApplicationExpression && !wrappee.OtherElement?
  {
    match wrappee
    case ApplicationExpression => [RefRule]
    case MethodCallExpression => [IndexRule, CallRule, RefRule]
    case ReferenceExpression => [IndexRule, CallRule, ApplicationRule]
    case ApplicationIndex => [CallRule, RefRule]
    case OtherElement(_) => [ApplicationRule]
  }

  /**
   * `parseApplication`: false without a latest done marker; otherwise
   * the first of the wrappee's rules that parses decides success.
   */
  function ParseApplication(latestDone: Option<ElementType>, parses: Rule -> bool): (r: bool)
    ensures latestDone.None? ==> !r
    ensures latestDone.Some? ==>
              (r <==> exists j :: 0 <= j < |ApplicationRules(latestDone.value)|
                                  && parses(ApplicationRules(latestDone.value)[j]))
    ensures latestDone.Some? && r ==>
              exists j :: && 0 <= j < |ApplicationRules(latestDone.value)|
                          && parses(ApplicationRules(latestDone.value)[j])
                          && FirstSuccess(ApplicationRules(latestDone.value), parses) == Some(j)
                          && forall k :: 0 <= k < j ==> !parses(ApplicationRules(latestDone.value)[k])
  {
    match latestDone
    case None => false
    case Some(wrappee) => Choice(ApplicationRules(wrappee), parses)
  }

  /**
   * Which rule `parseApplication` ends up using: for a reference
   * expression the index rule wins over the call rule, which wins over
   * the application rule.
   */
  lemma ReferenceRulePrecedence(parses: Rule -> bool)
    ensures parses(IndexRule) ==> FirstSuccess(ApplicationRules(ReferenceExpression), parses) == Some(0)
    ensures !parses(IndexRule) && parses(CallRule) ==>
              FirstSuccess(ApplicationRules(ReferenceExpression), parses) == Some(1)
    ensures !parses(IndexRule) && !parses(CallRule) && parses(ApplicationRule) ==>
              FirstSuccess(ApplicationRules(ReferenceExpression), parses) == Some(2)
  {
    var rules := ApplicationRules(ReferenceExpression);
    assert rules[0] == IndexRule && rules[1] == CallRule && rules[2] == ApplicationRule;
  }
}
