/**
  The operator spellings that mean the same thing (logic.go:16-20): `not`, `none_of`
  and `0_of` build the same tree; `or` and `any_of` build the same tree and `1_of`
  one that evaluates identically; `and` and `all_of` build the same tree and `k_of`,
  for a list of k >= 1 operands, one that evaluates identically.
*/
module Spellings {
  import opened Wrappers
  import opened Document
  import opened Expressions
  import opened Verbs
  import opened Builder
  import opened Evaluator

  lemma NotSpellings(js: seq<Node>)
    ensures Build(map["not" := List(js)]) == Build(map["none_of" := List(js)])
    ensures Build(map["0_of" := List(js)]) == Build(map["none_of" := List(js)])
  {
    BuildLiteral("not", List(js));
    BuildLiteral("none_of", List(js));
    BuildLiteral("0_of", List(js));
    NamedVerbs();
    DecimalCountVerb(0);
    assert Decimal(0) + "_of" == "0_of";
  }

  lemma OrSpellings(js: seq<Node>, features: seq<string>, search: Matcher)
    ensures Build(map["or" := List(js)]) == Build(map["any_of" := List(js)])
    ensures Build(map["or" := List(js)]).Ok? <==> Build(map["1_of" := List(js)]).Ok?
    ensures Build(map["or" := List(js)]).Ok? ==>
      Holds(Build(map["or" := List(js)]).value, features, search) ==
      Holds(Build(map["1_of" := List(js)]).value, features, search)
  {
    BuildLiteral("or", List(js));
    BuildLiteral("any_of", List(js));
    BuildLiteral("1_of", List(js));
    NamedVerbs();
    DecimalCountVerb(1);
    assert Decimal(1) + "_of" == "1_of";
  }

  lemma AndSpellings(js: seq<Node>, features: seq<string>, search: Matcher)
    requires |js| >= 1
    ensures Build(map["and" := List(js)]) == Build(map["all_of" := List(js)])
    ensures Build(map["and" := List(js)]).Ok? <==> Build(map[Decimal(|js|) + "_of" := List(js)]).Ok?
    ensures Build(map["and" := List(js)]).Ok? ==>
      Holds(Build(map["and" := List(js)]).value, features, search) ==
      Holds(Build(map[Decimal(|js|) + "_of" := List(js)]).value, features, search)
  {
    var k := Decimal(|js|) + "_of";
    BuildLiteral("and", List(js));
    BuildLiteral("all_of", List(js));
    BuildLiteral(k, List(js));
    NamedVerbs();
    DecimalCountVerb(|js|);
    if Build(map["and" := List(js)]).Ok? {
      BuildItemsOk(js, 0, Build(map["and" := List(js)]).value.subj);
    }
  }
}
