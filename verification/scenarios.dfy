/**
  The two expressions of logic_test.go, loaded, exported and evaluated.

  A: `and: [item1, {or: [item2, item3]}, {not: [~extra]}]`
  B: `all_of: [item1, {2_of: [item2, item3, item4]}]`

  The pattern `extra` has no regular-expression metacharacters, so an unanchored
  match of it is an occurrence of the text `extra`; the lemmas that need the
  pattern's answers ask this of the matcher.
*/
module Scenarios {
  import opened Wrappers
  import opened Document
  import opened Expressions
  import opened Verbs
  import opened Builder
  import opened Exporter
  import opened Evaluator

  /** `p` occurs in `f` at position `k`. */
  predicate OccursAt(p: string, f: string, k: nat) {
    k + |p| <= |f| && f[k..k + |p|] == p
  }

  /** `p` occurs somewhere in `f`. */
  predicate Occurs(p: string, f: string) {
    exists k: nat | k <= |f| :: OccursAt(p, f, k)
  }

  /** On every feature of the list, `search` answers for `p` as a substring search would. */
  predicate SearchesLiterally(search: Matcher, p: string, features: seq<string>) {
    forall i :: 0 <= i < |features| ==> (search(p, features[i]) <==> Occurs(p, features[i]))
  }

  function DocA(): map<string, Node> {
    map["and" := List([
      Str("item1"),
      Mapping(map["or" := List([Str("item2"), Str("item3")])]),
      Mapping(map["not" := List([Str("~extra")])])])]
  }

  function ExprA(): Expression {
    Expression("all_of", -1, [
      Feature("item1"),
      Sub(Expression("any_of", 1, [Feature("item2"), Feature("item3")])),
      Sub(Expression("none_of", 0, [Feature("~extra")]))])
  }

  function DocB(): map<string, Node> {
    map["all_of" := List([
      Str("item1"),
      Mapping(map["2_of" := List([Str("item2"), Str("item3"), Str("item4")])])])]
  }

  function ExprB(): Expression {
    Expression("all_of", -1, [
      Feature("item1"),
      Sub(Expression("2_of", 2, [Feature("item2"), Feature("item3"), Feature("item4")]))])
  }

  /** Document A loads, with its verbs normalised. */
  lemma LoadA()
    ensures Build(DocA()) == Ok(ExprA())
  {
    NamedVerbs();
    var x := ExprA();
    var js := DocA()["and"].items;
    var orItems := [Str("item2"), Str("item3")];
    var notItems := [Str("~extra")];
    BuildLiteral("or", List(orItems));
    BuildItemsOk(orItems, 0, x.subj[1].expr.subj);
    BuildLiteral("not", List(notItems));
    BuildItemsOk(notItems, 0, x.subj[2].expr.subj);
    assert ItemResult(js[1]) == Ok(x.subj[1]);
    assert ItemResult(js[2]) == Ok(x.subj[2]);
    BuildLiteral("and", List(js));
    BuildItemsOk(js, 0, x.subj);
  }

  /** Document B loads; `2_of` keeps its spelling with threshold 2. */
  lemma LoadB()
    ensures Build(DocB()) == Ok(ExprB())
  {
    NamedVerbs();
    DecimalCountVerb(2);
    assert Decimal(2) + "_of" == "2_of";
    var x := ExprB();
    var js := DocB()["all_of"].items;
    var twoItems := [Str("item2"), Str("item3"), Str("item4")];
    BuildLiteral("2_of", List(twoItems));
    BuildItemsOk(twoItems, 0, x.subj[1].expr.subj);
    assert ItemResult(js[1]) == Ok(x.subj[1]);
    BuildLiteral("all_of", List(js));
    BuildItemsOk(js, 0, x.subj);
  }

  /** The export of A uses the normalised verbs and keeps the operands in order. */
  lemma ExportA()
    ensures Canonical(ExprA()) == map["all_of" := List([
      Str("item1"),
      Mapping(map["any_of" := List([Str("item2"), Str("item3")])]),
      Mapping(map["none_of" := List([Str("~extra")])])])]
  {
    var x := ExprA();
    assert CanonicalItems(x.subj[1].expr.subj) == [Str("item2"), Str("item3")];
    assert CanonicalItems(x.subj[2].expr.subj) == [Str("~extra")];
    assert CanonicalItems(x.subj) == [
      Str("item1"),
      Mapping(map["any_of" := List([Str("item2"), Str("item3")])]),
      Mapping(map["none_of" := List([Str("~extra")])])];
  }

  /** A holds exactly when item1 is present, item2 or item3 is, and no feature matches `extra`. */
  lemma MeaningA(features: seq<string>, search: Matcher)
    ensures Holds(ExprA(), features, search) <==>
      "item1" in features && ("item2" in features || "item3" in features) &&
      forall i :: 0 <= i < |features| ==> !search("extra", features[i])
  {
    var x := ExprA();
    var any := x.subj[1].expr;
    var none := x.subj[2].expr;
    AllOfMeaning(x, features, search);
    AnyOfMeaning(any, features, search);
    NoneOfMeaning(none, features, search);
    assert "~extra"[1..] == "extra";
    assert Truth(x.subj[1], features, search) <==> "item2" in features || "item3" in features;
  }

  /** B holds exactly when item1 is present and at least two of item2, item3, item4 are. */
  lemma MeaningB(features: seq<string>, search: Matcher)
    ensures Holds(ExprB(), features, search) <==>
      "item1" in features &&
      (if "item2" in features then 1 else 0) + (if "item3" in features then 1 else 0) +
      (if "item4" in features then 1 else 0) >= 2
  {
    var x := ExprB();
    AllOfMeaning(x, features, search);
  }

  /** logic_test.go:48 — features item1, item2: true. */
  lemma EvalItem1Item2(search: Matcher)
    requires SearchesLiterally(search, "extra", ["item1", "item2"])
    ensures Holds(ExprA(), ["item1", "item2"], search)
  {
    MeaningA(["item1", "item2"], search);
    NoExtra("item1");
    NoExtra("item2");
  }

  /** logic_test.go:58 — features item1, item3: true. */
  lemma EvalItem1Item3(search: Matcher)
    requires SearchesLiterally(search, "extra", ["item1", "item3"])
    ensures Holds(ExprA(), ["item1", "item3"], search)
  {
    MeaningA(["item1", "item3"], search);
    NoExtra("item1");
    NoExtra("item3");
  }

  /** logic_test.go:68 — feature item2 alone: false, item1 is missing. */
  lemma EvalItem2(search: Matcher)
    ensures !Holds(ExprA(), ["item2"], search)
  {
    MeaningA(["item2"], search);
  }

  /** logic_test.go:78 — features item1, item2, extra_item: false, `~extra` matches extra_item. */
  lemma EvalWithExtra(search: Matcher)
    requires SearchesLiterally(search, "extra", ["item1", "item2", "extra_item"])
    ensures !Holds(ExprA(), ["item1", "item2", "extra_item"], search)
  {
    MeaningA(["item1", "item2", "extra_item"], search);
    assert OccursAt("extra", "extra_item", 0);
    assert ["item1", "item2", "extra_item"][2] == "extra_item";
  }

  /** logic_test.go:123 — features item2, item3, extra_item: false. */
  lemma EvalExampleFalse(search: Matcher)
    ensures !Holds(ExprA(), ["item2", "item3", "extra_item"], search)
  {
    MeaningA(["item2", "item3", "extra_item"], search);
  }

  /** logic_test.go:88 — features item1, item2, item4: true, two of the three are present. */
  lemma EvalMulti(search: Matcher)
    ensures Holds(ExprB(), ["item1", "item2", "item4"], search)
  {
    MeaningB(["item1", "item2", "item4"], search);
  }

  /** Features item1, item2: false, only one of item2, item3, item4 is present. */
  lemma EvalMultiShort(search: Matcher)
    ensures !Holds(ExprB(), ["item1", "item2"], search)
  {
    MeaningB(["item1", "item2"], search);
  }

  /** A five-letter feature other than `extra` does not contain it. */
  lemma NoExtra(f: string)
    requires |f| == 5 && f != "extra"
    ensures !Occurs("extra", f)
  {
  }
}
