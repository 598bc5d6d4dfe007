/**
  The builder `load` (logic.go:81-133): it validates a decoded mapping and builds
  the typed expression tree, or fails with the first error it meets.
*/
module Builder {
  import opened Wrappers
  import opened Document
  import opened Expressions
  import opened Verbs

  /** The four errors `load` reports, in the order it checks for them. */
  datatype LoadError =
    | WrongArity(count: nat)      // the mapping does not hold exactly one verb
    | InvalidVerb(verb: string)   // the key is not a known operator spelling
    | NotSlice                    // the verb's value is not a sequence
    | InvalidItem(item: Node)     // an operand is neither a string nor a mapping

  /** What `load` returns for a mapping. */
  ghost function Build(ms: map<string, Node>): Result<Expression, LoadError>
    decreases Mapping(ms), 3
  {
    if |ms| != 1 then Err(WrongArity(|ms|))
    else
      var v :| v in ms;
      BuildEntry(v, ms[v])
  }

  /** The single entry `v: subj` of a mapping: normalise the verb, then build the operands. */
  ghost function BuildEntry(v: string, subj: Node): Result<Expression, LoadError>
    decreases subj, 2
  {
    match NormalizeVerb(v)
    case None => Err(InvalidVerb(v))
    case Some((verb, rate)) =>
      if !subj.List? then Err(NotSlice)
      else
        match BuildItems(subj.items, 0)
        case Err(e) => Err(e)
        case Ok(s) => Ok(Expression(verb, rate, s))
  }

  /** The operands built from `js[i..]`, left to right, stopping at the first error. */
  ghost function BuildItems(js: seq<Node>, i: nat): Result<seq<Operand>, LoadError>
    requires i <= |js|
    decreases List(js), 1, |js| - i
  {
    if i == |js| then Ok([])
    else
      match ItemResult(js[i])
      case Err(e) => Err(e)
      case Ok(o) => Prepend([o], BuildItems(js, i + 1))
  }

  /** One sequence element: a string is kept verbatim, a mapping is built recursively. */
  ghost function ItemResult(j: Node): Result<Operand, LoadError>
    decreases j, 4
  {
    match j
    case Str(t) => Ok(Feature(t))
    case Mapping(m) =>
      (match Build(m)
       case Ok(e) => Ok(Sub(e))
       case Err(err) => Err(err))
    case _ => Err(InvalidItem(j))
  }

  function Prepend(s: seq<Operand>, r: Result<seq<Operand>, LoadError>): Result<seq<Operand>, LoadError> {
    match r
    case Ok(rest) => Ok(s + rest)
    case Err(e) => Err(e)
  }

  /** The trees `load` can build: every verb is its own normal form, at every depth. */
  ghost predicate WellFormed(e: Expression)
    decreases e
  {
    NormalizeVerb(e.verb) == Some((e.verb, e.rate)) &&
    forall i :: 0 <= i < |e.subj| ==> (e.subj[i].Sub? ==> WellFormed(e.subj[i].expr))
  }

  /** A mapping with one entry has no key but that entry's. */
  lemma OnlyKey(ms: map<string, Node>, k: string)
    requires |ms| == 1 && k in ms
    ensures ms.Keys == {k}
  {
    forall v | v in ms
      ensures v == k
    {
      if v != k {
        assert {v, k} <= ms.Keys;
        assert |{v, k}| == 2;
        SubsetCard({v, k}, ms.Keys);
      }
    }
  }

  /** A one-entry mapping is built from its only entry. */
  lemma SingleEntry(ms: map<string, Node>, k: string)
    requires |ms| == 1 && k in ms
    ensures Build(ms) == BuildEntry(k, ms[k])
  {
    OnlyKey(ms, k);
  }

  lemma SubsetCard<T>(a: set<T>, b: set<T>)
    requires a <= b
    ensures |a| <= |b|
  {
    assert b == a + (b - a);
  }

  /** A one-entry mapping is the literal of its only entry. */
  lemma OneEntryLiteral(ms: map<string, Node>, k: string)
    requires |ms| == 1 && k in ms
    ensures ms == map[k := ms[k]]
  {
    OnlyKey(ms, k);
  }

  /** A mapping literal `{k: subj}` is built from that entry. */
  lemma BuildLiteral(k: string, subj: Node)
    ensures Build(map[k := subj]) == BuildEntry(k, subj)
  {
    SingleEntry(map[k := subj], k);
  }

  /**
    `load` with a mapping: the Go loop appends to `s` and returns the first error,
    which is the result of `Build`.
  */
  method Load(ms: map<string, Node>) returns (r: Result<Expression, LoadError>)
    ensures r == Build(ms)
    decreases Mapping(ms)
  {
    if |ms| != 1 {
      return Err(WrongArity(|ms|));
    }
    var v :| v in ms;
    SingleEntry(ms, v);
    var subj := ms[v];
    var verb: string, rate: int;
    match NormalizeVerb(v) {
      case None =>
        return Err(InvalidVerb(v));
      case Some(normal) =>
        verb, rate := normal.0, normal.1;
    }
    if !subj.List? {
      return Err(NotSlice);
    }
    var js := subj.items;
    var s: seq<Operand> := [];
    PrependNothing(BuildItems(js, 0));
    for i := 0 to |js|
      invariant BuildItems(js, 0) == Prepend(s, BuildItems(js, i))
    {
      match js[i] {
        case Str(t) =>
          PrependStep(s, Feature(t), BuildItems(js, i + 1));
          s := s + [Feature(t)];
        case Mapping(m) =>
          var o := Load(m);
          if o.Err? {
            return Err(o.error);
          }
          PrependStep(s, Sub(o.value), BuildItems(js, i + 1));
          s := s + [Sub(o.value)];
        case _ =>
          return Err(InvalidItem(js[i]));
      }
    }
    assert s + [] == s;
    return Ok(Expression(verb, rate, s));
  }

  lemma PrependNothing(r: Result<seq<Operand>, LoadError>)
    ensures Prepend([], r) == r
  {
    if r.Ok? {
      assert [] + r.value == r.value;
    }
  }

  lemma PrependStep(s: seq<Operand>, o: Operand, r: Result<seq<Operand>, LoadError>)
    ensures Prepend(s, Prepend([o], r)) == Prepend(s + [o], r)
  {
    if r.Ok? {
      assert s + ([o] + r.value) == (s + [o]) + r.value;
    }
  }

  /**
    The operands of `js[i..]` build successfully exactly when every element does;
    the result then has one operand per element, in order.
  */
  lemma {:induction false} BuildItemsOk(js: seq<Node>, i: nat, s: seq<Operand>)
    requires i <= |js|
    ensures BuildItems(js, i) == Ok(s) <==>
      |s| == |js| - i && forall k :: i <= k < |js| ==> ItemResult(js[k]) == Ok(s[k - i])
    decreases |js| - i
  {
    if i < |js| {
      match ItemResult(js[i])
      case Err(e) =>
      case Ok(o) =>
        if s != [] {
          BuildItemsOk(js, i + 1, s[1..]);
          if BuildItems(js, i + 1) == Ok(s[1..]) && s[0] == o {
            assert s == [o] + s[1..];
          }
          if |s| == |js| - i && forall k :: i <= k < |js| ==> ItemResult(js[k]) == Ok(s[k - i]) {
            forall k | i + 1 <= k < |js| ensures ItemResult(js[k]) == Ok(s[1..][k - (i + 1)]) {
              assert ItemResult(js[k]) == Ok(s[k - i]);
            }
          }
        }
    }
  }

  /** Element `k` of `js` fails with `e` and every element of `js[i..k]` succeeds. */
  ghost predicate FirstError(js: seq<Node>, i: nat, k: nat, e: LoadError) {
    i <= k < |js| && ItemResult(js[k]) == Err(e) &&
    forall m :: i <= m < k ==> ItemResult(js[m]).Ok?
  }

  /**
    The operands of `js[i..]` fail with `e` exactly when some element fails with `e`
    and every element before it succeeds: the first error is passed on unchanged.
  */
  lemma {:induction false} BuildItemsErr(js: seq<Node>, i: nat, e: LoadError)
    requires i <= |js|
    ensures BuildItems(js, i) == Err(e) <==> exists k :: FirstError(js, i, k, e)
    decreases |js| - i
  {
    if i < |js| {
      BuildItemsErr(js, i + 1, e);
      if ItemResult(js[i]).Err? {
        if ItemResult(js[i]) == Err(e) {
          assert FirstError(js, i, i, e);
        }
      } else {
        if BuildItems(js, i + 1) == Err(e) {
          var k :| FirstError(js, i + 1, k, e);
          assert FirstError(js, i, k, e);
        }
        if exists k :: FirstError(js, i, k, e) {
          var k :| FirstError(js, i, k, e);
          assert FirstError(js, i + 1, k, e);
        }
      }
    }
  }

  /**
    A successful `load` of `{k: js}` stores the normalised verb and keeps the operand
    count and order: strings verbatim, mappings as the trees they build to.
  */
  lemma LoadKeepsOperands(k: string, js: seq<Node>, e: Expression)
    requires Build(map[k := List(js)]) == Ok(e)
    ensures NormalizeVerb(k) == Some((e.verb, e.rate))
    ensures |e.subj| == |js|
    ensures forall i :: 0 <= i < |js| ==> js[i].Str? || js[i].Mapping?
    ensures forall i :: 0 <= i < |js| && js[i].Str? ==> e.subj[i] == Feature(js[i].s)
    ensures forall i :: 0 <= i < |js| && js[i].Mapping? ==> e.subj[i].Sub? && Build(js[i].entries) == Ok(e.subj[i].expr)
  {
    BuildLiteral(k, List(js));
    BuildItemsOk(js, 0, e.subj);
    forall i | 0 <= i < |js|
      ensures ItemResult(js[i]) == Ok(e.subj[i])
    {
    }
  }

  /**
    `load` of `{k: js}` with a valid verb fails with `e` when the element at `i` fails
    with `e` after every earlier one succeeded; a nested mapping's error, at any depth,
    reaches the top unchanged.
  */
  lemma LoadFailsAt(k: string, js: seq<Node>, i: nat, e: LoadError)
    requires NormalizeVerb(k).Some?
    requires i < |js| && forall m :: 0 <= m < i ==> ItemResult(js[m]).Ok?
    requires (js[i].Mapping? && Build(js[i].entries) == Err(e)) || (!js[i].Str? && !js[i].Mapping? && e == InvalidItem(js[i]))
    ensures Build(map[k := List(js)]) == Err(e)
  {
    BuildLiteral(k, List(js));
    assert FirstError(js, 0, i, e);
    BuildItemsErr(js, 0, e);
  }

  /** Every tree that `load` builds is well formed. */
  lemma {:induction false} BuildWellFormed(ms: map<string, Node>, e: Expression)
    requires Build(ms) == Ok(e)
    ensures WellFormed(e)
    decreases Mapping(ms), 1
  {
    var v :| v in ms;
    SingleEntry(ms, v);
    var js := ms[v].items;
    BuildItemsOk(js, 0, e.subj);
    NormalizeIdempotent(v);
    forall i | 0 <= i < |e.subj| && e.subj[i].Sub?
      ensures WellFormed(e.subj[i].expr)
    {
      assert ItemResult(js[i]) == Ok(e.subj[i]);
      BuildWellFormed(js[i].entries, e.subj[i].expr);
    }
  }
}
