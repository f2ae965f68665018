// Which operations are excluded from tracing (rpc/tracing.go).
module OperationRules {
  import opened Wrappers
  import opened Text

  // conf.Middleware_Tracing
  datatype Rules = Rules(operations: seq<string>, prefixes: seq<string>)

  // The rules as a set: order, repetition, padding and blank rules do not show.
  function RuleSet(rules: seq<string>): set<string> {
    (set rule | rule in rules :: TrimSpace(rule)) - {""}
  }

  /** The meaning of a rule list: an operation is excluded when, trimmed, it is one of
      the exact rules or extends one of the prefix rules. */
  predicate Excludes(rules: Rules, operation: string) {
    var op := TrimSpace(operation);
    || op in RuleSet(rules.operations)
    || (op != "" && exists prefix :: prefix in RuleSet(rules.prefixes) && HasPrefix(op, prefix))
  }

  /** In the rules as they are written: the trimmed operation is not empty, and it is the
      trimmed text of some exact rule or begins with the non-empty trimmed text of some
      prefix rule. Either list may be empty. */
  lemma ExcludesByIndex(rules: Rules, operation: string)
    ensures Excludes(rules, operation) <==>
              && TrimSpace(operation) != ""
              && (|| (exists i :: 0 <= i < |rules.operations| && TrimSpace(rules.operations[i]) == TrimSpace(operation))
                  || (exists j :: 0 <= j < |rules.prefixes| && TrimSpace(rules.prefixes[j]) != ""
                                  && TrimSpace(rules.prefixes[j]) <= TrimSpace(operation)))
  {
    var op := TrimSpace(operation);
    if j :| 0 <= j < |rules.prefixes| && TrimSpace(rules.prefixes[j]) != "" && TrimSpace(rules.prefixes[j]) <= op {
      assert TrimSpace(rules.prefixes[j]) in RuleSet(rules.prefixes) && HasPrefix(op, TrimSpace(rules.prefixes[j]));
    }
    if prefix :| prefix in RuleSet(rules.prefixes) && HasPrefix(op, prefix) {
      var rule :| rule in rules.prefixes && TrimSpace(rule) == prefix;
      var j :| 0 <= j < |rules.prefixes| && rules.prefixes[j] == rule;
    }
    if i :| 0 <= i < |rules.operations| && TrimSpace(rules.operations[i]) == op {
      assert rules.operations[i] in rules.operations;
    }
  }

  // The early-return test of tracingWithOperationSkipper: without any rule there is nothing
  // to wrap.
  predicate Wraps(rules: Option<Rules>) {
    rules.Some? && !(|rules.value.operations| == 0 && |rules.value.prefixes| == 0)
  }

  // traceOperationMatches
  method TraceOperationMatches(operation: string, exactOperations: seq<string>, operationPrefixes: seq<string>)
    returns (matches: bool)
    ensures matches <==> Excludes(Rules(exactOperations, operationPrefixes), operation)
    ensures matches <==>
              && TrimSpace(operation) != ""
              && (|| (exists i :: 0 <= i < |exactOperations| && TrimSpace(exactOperations[i]) == TrimSpace(operation))
                  || (exists j :: 0 <= j < |operationPrefixes| && TrimSpace(operationPrefixes[j]) != ""
                                  && TrimSpace(operationPrefixes[j]) <= TrimSpace(operation)))
  {
    ghost var rules := Rules(exactOperations, operationPrefixes);
    var op := TrimSpace(operation);
    if op == "" {
      return false;
    }
    for i := 0 to |exactOperations|
      invariant forall k :: 0 <= k < i ==> TrimSpace(exactOperations[k]) != op
    {
      if op == TrimSpace(exactOperations[i]) {
        return true;
      }
    }
    for i := 0 to |operationPrefixes|
      invariant forall k :: 0 <= k < i ==>
        TrimSpace(operationPrefixes[k]) == "" || !HasPrefix(op, TrimSpace(operationPrefixes[k]))
    {
      var prefix := TrimSpace(operationPrefixes[i]);
      if prefix != "" && HasPrefix(op, prefix) {
        assert prefix in RuleSet(operationPrefixes);
        return true;
      }
    }
    return false;
  }

  /** Adding rules only adds excluded operations, and lists that agree as rule sets
      (reordered, repeated, padded or trimmed beforehand) exclude the same operations. */
  lemma MoreRulesExcludeMore(few: Rules, many: Rules, operation: string)
    requires RuleSet(few.operations) <= RuleSet(many.operations)
    requires RuleSet(few.prefixes) <= RuleSet(many.prefixes)
    ensures Excludes(few, operation) ==> Excludes(many, operation)
    ensures RuleSet(few.operations) == RuleSet(many.operations) && RuleSet(few.prefixes) == RuleSet(many.prefixes)
            ==> (Excludes(few, operation) <==> Excludes(many, operation))
  {
  }

  /** Every rule may be replaced by a padded or trimmed spelling of itself. */
  lemma PaddedRulesAreTheSameRules(rules: seq<string>, padded: seq<string>, left: seq<string>, right: seq<string>)
    requires |rules| == |padded| == |left| == |right|
    requires forall i :: 0 <= i < |rules| ==>
      Blank(left[i]) && Blank(right[i]) && padded[i] == left[i] + rules[i] + right[i]
    ensures RuleSet(padded) == RuleSet(rules)
  {
    forall i | 0 <= i < |rules| ensures TrimSpace(padded[i]) == TrimSpace(rules[i]) {
      TrimSpaceIgnoresPadding(left[i], rules[i], right[i]);
    }
    forall r | r in RuleSet(rules) ensures r in RuleSet(padded) {
      var i :| 0 <= i < |rules| && r == TrimSpace(rules[i]);
      assert padded[i] in padded;
    }
    forall r | r in RuleSet(padded) ensures r in RuleSet(rules) {
      var i :| 0 <= i < |padded| && r == TrimSpace(padded[i]);
      assert rules[i] in rules;
    }
  }

  /** The operation itself may be padded as well. */
  lemma PaddedOperationIsTheSameOperation(rules: Rules, left: string, operation: string, right: string)
    requires Blank(left) && Blank(right)
    ensures Excludes(rules, left + operation + right) <==> Excludes(rules, operation)
  {
    TrimSpaceIgnoresPadding(left, operation, right);
  }
}
