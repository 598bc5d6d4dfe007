/**
  The exporter `export` (logic.go:50-67): a tree back to the canonical document, a
  one-entry mapping from the stored verb to the sequence of exported operands.
*/
module Exporter {
  import opened Document
  import opened Expressions

  /** The canonical document of an expression. */
  function Canonical(x: Expression): map<string, Node>
    decreases x
  {
    map[x.verb := List(CanonicalItems(x.subj))]
  }

  /** The exported operands, one per operand and in order. */
  function CanonicalItems(subj: seq<Operand>): seq<Node>
    decreases subj
  {
    seq(|subj|, i requires 0 <= i < |subj| => CanonicalOperand(subj[i]))
  }

  /** A feature token is exported unchanged, a sub-expression as its canonical mapping. */
  function CanonicalOperand(o: Operand): Node
    decreases o
  {
    match o
    case Feature(t) => Str(t)
    case Sub(e) => Mapping(Canonical(e))
  }

  /**
    `export`: the loop appends one node per operand. The result is never missing:
    it is the one-entry mapping `{x.verb: operands}`, with each string kept and each
    sub-expression exported recursively.
  */
  method Export(x: Expression) returns (r: map<string, Node>)
    ensures r == Canonical(x)
    ensures r.Keys == {x.verb} && r[x.verb].List? && |r[x.verb].items| == |x.subj|
    ensures forall i :: 0 <= i < |x.subj| && x.subj[i].Feature? ==> r[x.verb].items[i] == Str(x.subj[i].token)
    ensures forall i :: 0 <= i < |x.subj| && x.subj[i].Sub? ==> r[x.verb].items[i] == Mapping(Canonical(x.subj[i].expr))
    decreases x
  {
    var subj: seq<Node> := [];
    for i := 0 to |x.subj|
      invariant |subj| == i
      invariant forall k :: 0 <= k < i ==> subj[k] == CanonicalOperand(x.subj[k])
    {
      match x.subj[i] {
        case Feature(t) =>
          subj := subj + [Str(t)];
        case Sub(e) =>
          var m := Export(e);
          subj := subj + [Mapping(m)];
      }
    }
    assert subj == CanonicalItems(x.subj);
    return map[x.verb := List(subj)];
  }
}
