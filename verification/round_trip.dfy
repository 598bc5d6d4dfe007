/**
  Loading the canonical document of a tree gives the tree back: after one `load`,
  `export` followed by `load` changes nothing.
*/
module RoundTrip {
  import opened Wrappers
  import opened Document
  import opened Expressions
  import opened Builder
  import opened Exporter

  /** Every well-formed tree is rebuilt exactly from its canonical document. */
  lemma {:induction false} ExportThenLoad(e: Expression)
    requires WellFormed(e)
    ensures Build(Canonical(e)) == Ok(e)
    decreases e, 1
  {
    BuildLiteral(e.verb, List(CanonicalItems(e.subj)));
    OperandsRoundTrip(e, 0);
    assert e.subj[0..] == e.subj;
  }

  /** The exported operands of `e` from position `i` on are rebuilt exactly. */
  lemma {:induction false} OperandsRoundTrip(e: Expression, i: nat)
    requires WellFormed(e) && i <= |e.subj|
    ensures BuildItems(CanonicalItems(e.subj), i) == Ok(e.subj[i..])
    decreases e, 0, |e.subj| - i
  {
    var js := CanonicalItems(e.subj);
    if i < |e.subj| {
      OperandsRoundTrip(e, i + 1);
      assert e.subj[i..] == [e.subj[i]] + e.subj[i + 1..];
      match e.subj[i]
      case Feature(t) =>
        assert ItemResult(js[i]) == Ok(Feature(t));
      case Sub(c) =>
        ExportThenLoad(c);
        assert ItemResult(js[i]) == Ok(Sub(c));
    }
  }

  /** For any tree `load` builds, loading its export yields the same tree. */
  lemma LoadExportLoad(ms: map<string, Node>, e: Expression)
    requires Build(ms) == Ok(e)
    ensures Build(Canonical(e)) == Ok(e)
  {
    BuildWellFormed(ms, e);
    ExportThenLoad(e);
  }
}
