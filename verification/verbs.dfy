/**
  Operator-name normalisation (logic.go:88-112): the key of an expression mapping
  is turned into the stored verb and its threshold, or rejected.
*/
module Verbs {
  import opened Wrappers

  predicate IsDigit(c: char) { '0' <= c <= '9' }

  function DigitValue(c: char): nat
    requires IsDigit(c)
  {
    (c as int) - ('0' as int)
  }

  /** One or more decimal digits. */
  predicate AllDigits(s: string) {
    |s| > 0 && forall i :: 0 <= i < |s| ==> IsDigit(s[i])
  }

  /** The value of a string of decimal digits, read most significant first. */
  function DigitsValue(s: string): nat
    requires forall i :: 0 <= i < |s| ==> IsDigit(s[i])
  {
    if s == [] then 0 else DigitsValue(s[..|s| - 1]) * 10 + DigitValue(s[|s| - 1])
  }

  /**
    `strconv.Atoi` on an unbounded integer: an optional `+` or `-` followed by one
    or more decimal digits; anything else is a syntax error (`None`).
  */
  function Atoi(s: string): Option<int> {
    if |s| > 0 && (s[0] == '+' || s[0] == '-') then
      if AllDigits(s[1..]) then
        var magnitude: int := DigitsValue(s[1..]);
        Some(if s[0] == '-' then -magnitude else magnitude)
      else None
    else if AllDigits(s) then Some(DigitsValue(s))
    else None
  }

  /** The usual decimal spelling of a natural number, without sign or leading zeros. */
  function Decimal(n: nat): (s: string)
    ensures AllDigits(s)
  {
    if n < 10 then ["0123456789"[n]] else Decimal(n / 10) + ["0123456789"[n % 10]]
  }

  predicate HasSuffix(s: string, suffix: string) {
    |suffix| <= |s| && s[|s| - |suffix|..] == suffix
  }

  /**
    The verb table of the builder. `not`/`none_of`, `and`/`all_of` and `or`/`any_of`
    are renamed; `<n>_of` with a non-negative `n` keeps its spelling and takes `n` as
    its threshold, except that `n = 0` is renamed `none_of`. Every other key is
    rejected. The result pairs the stored verb with its threshold.
  */
  function NormalizeVerb(v: string): (r: Option<(string, int)>)
    ensures r.Some? ==> -1 <= r.value.1
    ensures r.Some? ==> (r.value.1 == -1 <==> r.value.0 == "all_of")
    ensures r.Some? ==> (r.value.1 == 0 <==> r.value.0 == "none_of")
    ensures r.Some? && r.value.0 != v ==> r.value.0 in {"none_of", "all_of", "any_of"}
  {
    if v == "not" || v == "none_of" then Some(("none_of", 0))
    else if v == "and" || v == "all_of" then Some(("all_of", -1))
    else if v == "or" || v == "any_of" then Some(("any_of", 1))
    else if HasSuffix(v, "_of") then
      match Atoi(v[..|v| - 3])
      case Some(c) => if c >= 0 then Some((if c == 0 then "none_of" else v, c)) else None
      case None => None
    else None
  }

  /** Every natural number spelled in decimal is read back by `Atoi`. */
  lemma {:induction false} DecimalParses(n: nat)
    ensures Atoi(Decimal(n)) == Some(n)
  {
    DecimalValue(n);
  }

  lemma {:induction false} DecimalValue(n: nat)
    ensures DigitsValue(Decimal(n)) == n
  {
    var s := Decimal(n);
    if n >= 10 {
      DecimalValue(n / 10);
      assert s[..|s| - 1] == Decimal(n / 10);
    }
  }

  /** The six named spellings and their normal forms. */
  lemma NamedVerbs()
    ensures NormalizeVerb("not") == Some(("none_of", 0)) && NormalizeVerb("none_of") == Some(("none_of", 0))
    ensures NormalizeVerb("and") == Some(("all_of", -1)) && NormalizeVerb("all_of") == Some(("all_of", -1))
    ensures NormalizeVerb("or") == Some(("any_of", 1)) && NormalizeVerb("any_of") == Some(("any_of", 1))
  {
  }

  /**
    A key `<p>_of` whose prefix `p` is an integer for `Atoi` is accepted exactly when
    that integer is non-negative; it becomes `none_of` when it is zero and otherwise
    keeps its spelling, whatever form `p` takes (`+2`, `02`, `-0`).
  */
  lemma CountVerb(p: string)
    requires Atoi(p).Some?
    ensures var c := Atoi(p).value;
      NormalizeVerb(p + "_of") == if c < 0 then None else Some((if c == 0 then "none_of" else p + "_of", c))
  {
  }

  /** Every `<n>_of` written with the decimal spelling of a natural number `n` is accepted with threshold `n`. */
  lemma DecimalCountVerb(n: nat)
    ensures NormalizeVerb(Decimal(n) + "_of") == Some((if n == 0 then "none_of" else Decimal(n) + "_of", n))
  {
    DecimalParses(n);
    CountVerb(Decimal(n));
  }

  /** Keys that are rejected: an unknown word, an empty count, a negative count. */
  lemma RejectedVerbs()
    ensures NormalizeVerb("xor") == None
    ensures NormalizeVerb("_of") == None
    ensures NormalizeVerb("-1_of") == None
    ensures NormalizeVerb("+_of") == None
    ensures NormalizeVerb("two_of") == None
  {
  }

  /**
    The verb table accepts a key exactly when it is one of the six named spellings or
    `<p>_of` with a prefix `p` that `Atoi` reads as a non-negative integer; every other
    key is rejected.
  */
  lemma AcceptedVerbs(v: string)
    ensures NormalizeVerb(v).Some? <==>
      v in {"not", "none_of", "and", "all_of", "or", "any_of"} ||
      exists p :: v == p + "_of" && Atoi(p).Some? && Atoi(p).value >= 0
  {
    if HasSuffix(v, "_of") {
      assert v == v[..|v| - 3] + "_of";
    }
    forall p | v == p + "_of"
      ensures p == v[..|v| - 3] && HasSuffix(v, "_of")
    {
    }
  }

  /** A normalised verb normalises to itself with the same threshold. */
  lemma NormalizeIdempotent(v: string)
    requires NormalizeVerb(v).Some?
    ensures NormalizeVerb(NormalizeVerb(v).value.0) == NormalizeVerb(v)
  {
  }
}
