# go-logic: a verified model of the boolean-expression engine

This project models `logic.go` of go-logic. The library reads a nested document
such as

    and:
    - item1
    - or: [item2, item3]
    - not: [~extra]

and builds a typed `Expression` tree from it. It evaluates that tree against a list
of feature strings and exports it back to a canonical document. The model has
three parts:

- **Builder** (`load`, module `Builder`). A decoded mapping must have exactly one
  entry. Its key is normalised by the verb table (module `Verbs`): `not`/`none_of`,
  `and`/`all_of`, `or`/`any_of`, and `<n>_of` with `n >= 0`. Its value must be a
  sequence of strings and nested mappings. The first error ends the build and is
  returned unchanged. `Build` is the specification; `Load` is the source's loop,
  proved equal to it.
- **Evaluator** (`eval`, `evalNeg`, `evalPos`, `Eval`, module `Evaluator`). A
  token matches a feature literally, or as a regular expression when it starts
  with `~`. `none_of` holds when no operand is true. Every other verb holds when
  the list is non-empty and the number of true operands reaches the threshold.
  The threshold is the stored rate, or the operand count for the rate -1 of
  `all_of`. The methods are the source's loops with their early returns.
  `EvalToken` is proved equal to `TokenMatches`. `EvalNeg` and `EvalPos` are
  proved equal to the `none_of` and counting branches of `Holds` for an operand
  list. `Eval` is proved equal to the counting specification `Holds`.
- **Exporter** (`export`, module `Exporter`). A tree becomes the one-entry mapping
  from its stored verb to its operands. `RoundTrip` proves that loading the
  export of any tree built by `load` gives back the same tree.

`Spellings` proves which operator spellings are interchangeable. `Scenarios`
proves the two expressions of the test file: they load, they export, and they
evaluate as the tests expect.

The document is the datatype `Document.Node`: a string, a sequence, a mapping with
string keys, or another scalar. The regular-expression engine is a parameter
`search: Matcher`; `search(p, f)` says whether pattern `p` matches somewhere in `f`.

Behaviour kept as the code has it:
- An empty operand list under a counting verb is false, `all_of: []` included.
  `evalPos` compares the count with the threshold only inside its loop
  (logic.go:203-218), so the vacuous reading "all of nothing holds" does not apply.
  `none_of: []` is true. The model follows the code (`Evaluator.EmptyOperands`).
- `<n>_of` keeps its spelling as written (`2_of`, `1_of`, `+2_of`, `02_of`).
  Only `n = 0` is renamed, to `none_of`. So `1_of` exports as `1_of`, not `any_of`.
- String operands are stored verbatim. A `~` pattern is not checked when the tree
  is built.

## Model

| member | source | states |
|---|---|---|
| `Verbs.NormalizeVerb` | logic.go:90-112 | an accepted key yields a rate of at least -1; the rate is -1 exactly for `all_of` and 0 exactly for `none_of`; a key is only ever renamed to `none_of`, `all_of` or `any_of` |
| `Verbs.NamedVerbs` | logic.go:91-99 | `not`/`none_of` give (`none_of`, 0), `and`/`all_of` give (`all_of`, -1), `or`/`any_of` give (`any_of`, 1) |
| `Verbs.CountVerb` | logic.go:100-110 | a key `<p>_of` whose prefix is an integer is accepted iff the integer is non-negative; at 0 it becomes `none_of`, otherwise it keeps its spelling, with the integer as its rate |
| `Verbs.DecimalParses` | logic.go:102 | the integer parser reads back the decimal spelling of every natural number |
| `Verbs.DecimalCountVerb` | logic.go:100-110 | `<n>_of` in decimal is accepted with rate n for every n >= 0 |
| `Verbs.AcceptedVerbs` | logic.go:90-111 | a key is accepted iff it is one of the six named spellings or `<p>_of` with `Atoi(p)` a non-negative integer; every other key is an invalid verb |
| `Verbs.RejectedVerbs` | logic.go:100-111 | `xor`, `_of`, `-1_of`, `+_of` and `two_of` are rejected |
| `Verbs.NormalizeIdempotent` | logic.go:90-112 | a stored verb normalises to itself with the same rate |
| `Builder.OnlyKey` | logic.go:82-88 | a mapping that passes the entry-count check has exactly one key |
| `Builder.OneEntryLiteral` | logic.go:82-88 | a mapping that passes the entry-count check is the literal `{k: value}` of its only entry |
| `Builder.SingleEntry` | logic.go:82-88 | a one-entry mapping is built from its only entry, whatever the iteration order |
| `Builder.Load` | logic.go:81-133 | the loop with its early returns computes `Build`: a wrong entry count, an unknown verb, a non-sequence value or the first failing operand ends it with that error and no tree |
| `Builder.BuildItemsOk` | logic.go:117-130 | the operands build iff every element does; the result then has one operand per element, in order |
| `Builder.BuildItemsErr` | logic.go:117-130 | the operands fail with e iff some element fails with e and every earlier element succeeds |
| `Builder.LoadKeepsOperands` | logic.go:113-132 | a successful load stores the normalised verb and rate, keeps the operand count and order, and stores strings verbatim and mappings as their nested trees |
| `Builder.LoadFailsAt` | logic.go:121-128 | the first failing element's error, including one from a nested mapping at any depth, is the error of the whole load |
| `Builder.BuildWellFormed` | logic.go:81-133 | every tree that load builds stores verbs that are their own normal form, at every depth |
| `Exporter.Export` | logic.go:50-67 | the result is never missing: it is the one-entry mapping from the stored verb to the operands in order, strings unchanged and subtrees exported recursively |
| `RoundTrip.ExportThenLoad` | logic.go:50-67 | loading the export of a well-formed tree gives back the same tree |
| `RoundTrip.OperandsRoundTrip` | logic.go:52-65 | the exported operands of a well-formed tree are rebuilt exactly, from any position on |
| `RoundTrip.LoadExportLoad` | logic_test.go:96-111 | for every tree that load builds, loading its export gives back that tree |
| `Evaluator.EvalToken` | logic.go:163-179 | a token without `~` is true iff it equals some feature; a `~` token is true iff its pattern matches some feature; the first match ends the scan |
| `Evaluator.NoFeatures` | logic.go:163-179 | either kind of token is false on an empty feature list |
| `Evaluator.EvalNeg` | logic.go:181-195 | the early `return false` gives the same answer as counting every operand: true iff no operand is true |
| `Evaluator.EvalPos` | logic.go:197-219 | the early `return true` gives the same answer as a full count: true iff the list is non-empty and the true operands reach the effective threshold |
| `Evaluator.Eval` | logic.go:221-229 | the result is `Holds`: `none_of` takes the negative path and every other verb the counting path |
| `Evaluator.Count` | logic.go:202-213 | the count of true operands among the first n is at most n |
| `Evaluator.CountMonotone` | logic.go:211-216 | the running count never decreases, so once it reaches the threshold it stays there |
| `Evaluator.CountZero` | logic.go:182-194 | the count is zero iff no operand is true |
| `Evaluator.CountAll` | logic.go:198-216 | the count equals the number of operands iff every operand is true |
| `Evaluator.NoneOfMeaning` | logic.go:181-195 | `none_of` holds iff no operand is true, and so holds on an empty list |
| `Evaluator.AllOfMeaning` | logic.go:197-219 | the rate -1 holds iff the list is non-empty and every operand is true |
| `Evaluator.AnyOfMeaning` | logic.go:197-219 | the rate 1 holds iff some operand is true |
| `Evaluator.ThresholdOutOfReach` | logic.go:16-20 | a counting verb whose threshold exceeds the operand count is always false |
| `Evaluator.EmptyOperands` | logic.go:203-218 | with no operands only `none_of` holds; `all_of: []` is false |
| `Spellings.NotSpellings` | logic.go:90-108 | `not`, `none_of` and `0_of` build the same result from any value |
| `Spellings.OrSpellings` | logic.go:16-20 | `or` and `any_of` build the same result; `1_of` builds iff they do, and evaluates identically on every feature list |
| `Spellings.AndSpellings` | logic.go:16-20 | `and` and `all_of` build the same result; for k >= 1 operands `k_of` builds iff they do, and evaluates identically on every feature list |
| `Scenarios.LoadA` | logic_test.go:12-18 | the first test document loads to `all_of` over item1, `any_of` [item2, item3] and `none_of` [~extra] |
| `Scenarios.LoadB` | logic_test.go:19-27 | the second test document loads to `all_of` over item1 and `2_of` [item2, item3, item4] |
| `Scenarios.ExportA` | logic_test.go:104-111 | the first test tree exports with the normalised verbs `all_of`, `any_of`, `none_of` |
| `Scenarios.MeaningA` | logic_test.go:12-18 | the first expression holds iff item1 is present, item2 or item3 is, and no feature matches `extra` |
| `Scenarios.MeaningB` | logic_test.go:19-27 | the second expression holds iff item1 is present and at least two of item2, item3, item4 are |
| `Scenarios.EvalItem1Item2` | logic_test.go:48 | item1, item2 evaluates to true |
| `Scenarios.EvalItem1Item3` | logic_test.go:58 | item1, item3 evaluates to true |
| `Scenarios.EvalItem2` | logic_test.go:68 | item2 alone evaluates to false |
| `Scenarios.EvalWithExtra` | logic_test.go:78 | item1, item2, extra_item evaluates to false, because `~extra` matches extra_item |
| `Scenarios.EvalExampleFalse` | logic_test.go:123 | item2, item3, extra_item evaluates to false |
| `Scenarios.EvalMulti` | logic_test.go:88 | item1, item2, item4 evaluates to true under `2_of` |
| `Scenarios.EvalMultiShort` | logic_test.go:19-27 | item1, item2 evaluates to false: only one of the three is present |

## Left out

- YAML decoding and encoding: `Load`, `Parse`, `Save`, `String`, `MarshalYAML` and `UnmarshalYAML` (logic.go:33-48, 69-79, 149-161). They are calls into gopkg.in/yaml.v2. The model starts from the decoded `Document.Node` and ends at the exported one.
- The nil dereference in `UnmarshalYAML` when `load` fails (logic.go:40-41). It belongs to the YAML wrapper, not to the builder.
- The regular-expression engine (logic.go:165-167). RE2 matching is the `Matcher` parameter. The panic of `regexp.MustCompile` on an invalid pattern is not modelled: the matcher is total.
- Scenarios.EvalItem1Item2, Scenarios.EvalItem1Item3 and Scenarios.EvalWithExtra assume one thing about the matcher: on the features they use, the pattern `extra` matches exactly where the text `extra` occurs. The other scenarios hold for every matcher.
- Mapping keys that are not strings, which panic at the `verb.(string)` assertion (logic.go:89). Keys are strings in the model.
- The 64-bit range of `strconv.Atoi` (logic.go:102). The model reads an optional sign and one or more digits into an unbounded integer.
- The `nil` and `default` branches of `export` (logic.go:58-63) and the `*Expression` type assertions (logic.go:188, 209). The closed `Operand` type makes them unreachable.
- Go's map iteration order (logic.go:88). It cannot matter with exactly one entry (`Builder.SingleEntry`).
- The text of the error messages. The four errors are the variants of `Builder.LoadError`, with the count, key or element each message prints.
- The types of the round trip. In memory, `export` produces `map[string]interface{}` and `load` expects `map[interface{}]interface{}`, so the round trip only closes through the YAML encoder and decoder. The model identifies the two map kinds as `Document.Mapping`.
- The unused receiver of `evalNeg`. `Evaluator.EvalNeg` takes only the operand list and the features.
