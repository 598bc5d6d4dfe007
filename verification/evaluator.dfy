/**
  The evaluator (logic.go:163-229): `eval` matches one token, `evalNeg` decides
  `none_of`, `evalPos` decides the counting verbs, and `Eval` dispatches on the verb.
  The specification functions count the true operands; the methods are the source's
  loops with their early returns.
*/
module Evaluator {
  import opened Expressions

  /**
    The regular-expression engine, which is not part of this model:
    `search(p, f)` is whether the compiled pattern `p` matches somewhere in `f`
    (`regexp.MustCompile(p).MatchString(f)`).
  */
  type Matcher = (string, string) -> bool

  /** A token with a leading `~` is a pattern; the rest of it is the regular expression. */
  predicate IsPattern(token: string) {
    |token| > 0 && token[0] == '~'
  }

  /** A literal token is present when some feature equals it; a pattern when it matches some feature. */
  predicate TokenMatches(token: string, features: seq<string>, search: Matcher) {
    if IsPattern(token) then exists i :: 0 <= i < |features| && search(token[1..], features[i])
    else token in features
  }

  /** The truth of one operand. */
  predicate Truth(o: Operand, features: seq<string>, search: Matcher)
    decreases o
  {
    match o
    case Feature(t) => TokenMatches(t, features, search)
    case Sub(e) => Holds(e, features, search)
  }

  /** How many of the first `n` operands are true. */
  function Count(subj: seq<Operand>, n: nat, features: seq<string>, search: Matcher): (c: nat)
    requires n <= |subj|
    ensures c <= n
    decreases subj, n
  {
    if n == 0 then 0
    else Count(subj, n - 1, features, search) + (if Truth(subj[n - 1], features, search) then 1 else 0)
  }

  /** The effective threshold: the stored rate, or the operand count for the sentinel -1. */
  function Threshold(rate: int, operands: nat): int {
    if rate < 0 then operands else rate
  }

  /**
    The value of an expression: `none_of` holds when no operand is true; every other
    verb holds when the list is non-empty and at least the threshold of operands are true.
  */
  predicate Holds(x: Expression, features: seq<string>, search: Matcher)
    decreases x
  {
    var hits := Count(x.subj, |x.subj|, features, search);
    if x.verb == "none_of" then hits == 0
    else |x.subj| > 0 && hits >= Threshold(x.rate, |x.subj|)
  }

  /** `eval`: match one token against the feature list, returning at the first match. */
  method EvalToken(token: string, features: seq<string>, search: Matcher) returns (b: bool)
    ensures b == TokenMatches(token, features, search)
  {
    if IsPattern(token) {
      var pattern := token[1..];
      for i := 0 to |features|
        invariant forall k :: 0 <= k < i ==> !search(pattern, features[k])
      {
        if search(pattern, features[i]) {
          return true;
        }
      }
      return false;
    }
    for i := 0 to |features|
      invariant token !in features[..i]
    {
      if features[i] == token {
        return true;
      }
    }
    assert features[..|features|] == features;
    return false;
  }

  /** `evalNeg`: false at the first true operand, true when none is. */
  method EvalNeg(subj: seq<Operand>, features: seq<string>, search: Matcher) returns (b: bool)
    ensures b == (Count(subj, |subj|, features, search) == 0)
    decreases subj
  {
    for i := 0 to |subj|
      invariant Count(subj, i, features, search) == 0
    {
      var res: bool;
      match subj[i] {
        case Feature(t) =>
          res := EvalToken(t, features, search);
        case Sub(e) =>
          res := Eval(e, features, search);
      }
      if res {
        CountMonotone(subj, i + 1, |subj|, features, search);
        return false;
      }
    }
    return true;
  }

  /**
    `evalPos`: count true operands and return true as soon as the count reaches the
    threshold, false when the list runs out first. The early exit gives the same
    answer as counting every operand; the check sits inside the loop, so an empty
    list is false.
  */
  method EvalPos(x: Expression, subj: seq<Operand>, features: seq<string>, search: Matcher) returns (b: bool)
    ensures b == (|subj| > 0 && Count(subj, |subj|, features, search) >= Threshold(x.rate, |subj|))
    decreases subj
  {
    var rate := x.rate;
    if rate < 0 {
      rate := |subj|;
    }
    var hit := 0;
    for i := 0 to |subj|
      invariant hit == Count(subj, i, features, search)
      invariant i > 0 ==> hit < rate
    {
      var res: bool;
      match subj[i] {
        case Feature(t) =>
          res := EvalToken(t, features, search);
        case Sub(e) =>
          res := Eval(e, features, search);
      }
      if res {
        hit := hit + 1;
      }
      if hit >= rate {
        CountMonotone(subj, i + 1, |subj|, features, search);
        return true;
      }
    }
    return false;
  }

  /** `Eval`: `none_of` goes to `evalNeg`, every other verb to `evalPos`. */
  method Eval(x: Expression, features: seq<string>, search: Matcher) returns (b: bool)
    ensures b == Holds(x, features, search)
    decreases Sub(x)  // measured as the operand it is inside its parent's list
  {
    if x.verb == "none_of" {
      b := EvalNeg(x.subj, features, search);
    } else {
      b := EvalPos(x, x.subj, features, search);
    }
  }

  /** The count of true operands never decreases along the list. */
  lemma {:induction false} CountMonotone(subj: seq<Operand>, i: nat, j: nat, features: seq<string>, search: Matcher)
    requires i <= j <= |subj|
    ensures Count(subj, i, features, search) <= Count(subj, j, features, search)
    decreases j
  {
    if i < j {
      CountMonotone(subj, i, j - 1, features, search);
    }
  }

  /** No operand among the first `n` is true exactly when none of them is counted. */
  lemma {:induction false} CountZero(subj: seq<Operand>, n: nat, features: seq<string>, search: Matcher)
    requires n <= |subj|
    ensures Count(subj, n, features, search) == 0 <==> forall i :: 0 <= i < n ==> !Truth(subj[i], features, search)
  {
    if n > 0 {
      CountZero(subj, n - 1, features, search);
    }
  }

  /** Every operand among the first `n` is true exactly when all of them are counted. */
  lemma {:induction false} CountAll(subj: seq<Operand>, n: nat, features: seq<string>, search: Matcher)
    requires n <= |subj|
    ensures Count(subj, n, features, search) == n <==> forall i :: 0 <= i < n ==> Truth(subj[i], features, search)
  {
    if n > 0 {
      CountAll(subj, n - 1, features, search);
    }
  }

  /** `none_of` holds exactly when no operand is true; an empty list holds. */
  lemma NoneOfMeaning(x: Expression, features: seq<string>, search: Matcher)
    requires x.verb == "none_of"
    ensures Holds(x, features, search) <==> forall i :: 0 <= i < |x.subj| ==> !Truth(x.subj[i], features, search)
  {
    CountZero(x.subj, |x.subj|, features, search);
  }

  /** The sentinel rate -1 (`all_of`) holds exactly when the list is non-empty and every operand is true. */
  lemma AllOfMeaning(x: Expression, features: seq<string>, search: Matcher)
    requires x.verb != "none_of" && x.rate < 0
    ensures Holds(x, features, search) <==>
      |x.subj| > 0 && forall i :: 0 <= i < |x.subj| ==> Truth(x.subj[i], features, search)
  {
    CountAll(x.subj, |x.subj|, features, search);
  }

  /** Rate 1 (`any_of`, `1_of`) holds exactly when some operand is true. */
  lemma AnyOfMeaning(x: Expression, features: seq<string>, search: Matcher)
    requires x.verb != "none_of" && x.rate == 1
    ensures Holds(x, features, search) <==> exists i :: 0 <= i < |x.subj| && Truth(x.subj[i], features, search)
  {
    CountZero(x.subj, |x.subj|, features, search);
  }

  /** A counting verb whose threshold exceeds the number of operands never holds. */
  lemma ThresholdOutOfReach(x: Expression, features: seq<string>, search: Matcher)
    requires x.verb != "none_of" && Threshold(x.rate, |x.subj|) > |x.subj|
    ensures !Holds(x, features, search)
  {
  }

  /**
    With no operands only `none_of` holds: a counting verb is false on an empty list,
    `all_of: []` included, because the threshold is only compared inside the loop.
  */
  lemma EmptyOperands(x: Expression, features: seq<string>, search: Matcher)
    requires x.subj == []
    ensures Holds(x, features, search) <==> x.verb == "none_of"
  {
  }

  /** Either kind of token is false on an empty feature list. */
  lemma NoFeatures(token: string, search: Matcher)
    ensures !TokenMatches(token, [], search)
  {
  }
}
