# Flow-statement DSL: compactor, incrementer and repeat combinator

This project models the core of a small flow-statement language in Dafny. A script
is a flow-type tag followed by statements of the form `a0 --x--> b0:y`. Each
statement is a directed edge between two steps. A step is a name with an integer
index. The tree-to-AST transformer produces a `Flowchart`. On the way it makes three
normalisations: the start rule returns its single child, integer tokens get their
numeric value, and newline tokens are dropped from child lists.

After the transform, the interpreter reduces each script to an ordered list of
compact edges `((src_name, src_num), (dst_name, dst_num))`, dropping the labels.
`apply` then repeats the two scripts `times` times. Each round appends the current
first-script edges, then the current then-script edges, and afterwards raises every
step index by one.

Files:
- `wrappers.dfy` (module `Wrappers`): the `Result` type used for parse and transform failures.
- `dsl_ast.dfy` (module `DslAst`): the AST datatypes (`FlowStep`, `SrcLabel`, `DstLabel`,
  `FlowStatement`, `FlowStatements`, `Flowchart`), tokens, and the `start`, `INT` and
  `NEWLINE` callbacks as functions, with their laws.
- `interpret.dfy` (module `Interpret`): `mk_compact`, `inc_compact` and
  `DslInterpreter.apply` as methods with loops. Each is proved against the
  specification functions `Compact`, `Shift` and `Rounds`, and lemmas about those
  functions give the length, ordering and shift laws.

The field `var` of `FlowStep` is called `name`, because `var` is a Dafny keyword. The
source reads a step's name and number through the tokens' `.value` (interpret.py:13-14).
The model stores them directly as a `string` and an `int`. Both the pairs built by
`mk_compact` and the tuples built by `inc_compact` are modelled as sequences of steps
(`Edge`). This is because `inc_compact` walks whatever steps a statement has.

Two points where the code decides the behaviour:
- `while times:` with `times -= 1` never ends for a negative `times` (interpret.py:39, 44),
  so `Apply` requires `times >= 0`. Like the source, `times` defaults to 1 (interpret.py:32).
- `FlowStep.num` is a plain `int` (dsl_ast.py:19). Indices produced by `IntToken` are
  non-negative.

## Model

| member | source | states |
|---|---|---|
| `DslAst.Start` | dsl_ast.py:46-48 | the start callback succeeds exactly when it gets one child and then returns that child unchanged; any other number of children is an arity error |
| `DslAst.IntToken` | dsl_ast.py:49-51 | an INT token keeps its terminal type, line and column; its value becomes the non-negative number whose decimal text is the token's text with leading zeros dropped ("007" gives 7), which fixes the value for every digit string |
| `DslAst.LeadingZeroValue` | dsl_ast.py:51 | a leading zero does not change the value `int()` reads from a digit string |
| `DslAst.StripZerosKeepsValue` | dsl_ast.py:51 | dropping leading zeros leaves canonical digits with the same value |
| `DslAst.DecimalRoundTrip` | dsl_ast.py:49-51 | reading back the decimal text of any natural number gives that number |
| `DslAst.DecimalTextOfValue` | dsl_ast.py:49-51 | printing the value of a canonical digit string gives back the same string, so digit text and value are in one-to-one correspondence |
| `DslAst.DecimalTextIsCanonical` | dsl_ast.py:49-51 | the printed form of a number is a non-empty digit string with no leading zero, unless the number is zero |
| `DslAst.DiscardNewlines` | dsl_ast.py:52-53 | no newline token is left after the NEWLINE discard; a node survives exactly when it was a child and is not a newline token |
| `DslAst.DiscardNewlinesAppend` | dsl_ast.py:52-53 | discarding distributes over concatenation, so the kept children stay in their original relative order |
| `DslAst.DiscardNewlinesKeepsOthers` | dsl_ast.py:52-53 | a child list without newline tokens is returned unchanged |
| `DslAst.DiscardNewlinesIdempotent` | dsl_ast.py:52-53 | discarding newlines twice is the same as discarding them once |
| `DslAst.DiscardNewlinesLength` | dsl_ast.py:52-53 | the list shrinks by exactly the number of newline tokens it held |
| `Interpret.MkCompact` | interpret.py:10-16 | one edge per statement, in source order; edge i is `[(src.name, src.num), (dst.name, dst.num)]` of statement i |
| `Interpret.CompactIgnoresLabels` | interpret.py:13-15 | two flowcharts whose statements have the same steps compact to the same list, whatever their labels and flow types |
| `Interpret.IncCompact` | interpret.py:18-26 | a new list of the same length, with each edge keeping its number of steps; each step keeps its name and its index rises by exactly one |
| `Interpret.ShiftZero` | interpret.py:37-38 | before the first round, the compacted lists are the round-0 lists (a shift by zero changes nothing) |
| `Interpret.ShiftShift` | interpret.py:42-43 | incrementing a list shifted by `a` gives the list shifted by `a + 1`: after k increments every index is the original plus k |
| `Interpret.Apply` | interpret.py:32-45 | `times` defaults to 1; a parse failure of the first script, or else of the then-script, is returned with no output; otherwise the output is exactly `Rounds(compact(first), compact(then), times)`, whose length is `times` times the two scripts' statement counts added together |
| `Interpret.RoundsLength` | interpret.py:39-45 | `n` rounds give `n * w` edges, where `w` is the number of edges in `fi` plus the number in `th`; zero rounds give the empty list |
| `Interpret.RoundsPrefix` | interpret.py:39-44 | more rounds only append: the output of m rounds is a prefix of the output of any n >= m rounds |
| `Interpret.RoundsBlock` | interpret.py:40-43 | round k occupies the k-th block of `w` edges (`w` = edges of `fi` plus edges of `th`): the first script's edges shifted by k, then the then-script's edges shifted by k |
| `Interpret.RoundsStepShift` | interpret.py:40-43 | with `w` the total edge count of `fi` and `th`: in round k, step s of first-script edge j (at position `k * w + j`) and step s of then-script edge j (at position `k * w` plus the edge count of `fi` plus `j`) each keep their name and have index `original + k` |
| `Interpret.TwoRoundsExample` | interpret.py:32-45 | two rounds of `a0 -> b0` and `c0 -> d0` give `a0->b0, c0->d0, a1->b1, c1->d1` |

## Left out

- Reading `grammar.lark` from disk at import time (interpret.py:6-7) is file I/O and is not modelled.
- The Lark parser and the transformer built by `ast_utils.create_transformer` through the `sys.modules` lookup (interpret.py:5, 29-30, 34-35) are not modelled. `Apply` takes the composed parse-and-transform step as a total function parameter returning `Result<Flowchart, SyntaxError>`. The grammar is not part of this model.
- The per-rule callbacks that `ast_utils` derives from the dataclasses are not modelled. The model has the datatypes they build and the three explicit callbacks `start`, `INT` and `NEWLINE`.
- The `meta` position field of `Flowchart` (dsl_ast.py:12) is diagnostic only and is left out. Token positions are kept only as far as `IntToken` preserves them.
- The `Discard` sentinel protocol (dsl_ast.py:53) is modelled as the filter `DiscardNewlines` over a child list.
- `Apply`: a negative `times` is excluded by `requires times >= 0`. The source loops forever in that case, and non-termination cannot be expressed by a terminating method.
- `IntToken`: requires digits-only text, which is what the INT terminal lexes. The other forms Python's `int()` accepts (a sign, underscores, surrounding whitespace) and its error on other text are not modelled.
- In-place list mutation and aliasing: the `append`/`extend` calls become reassignments of `seq` values. `inc_compact` not mutating its argument therefore holds by construction rather than by proof.
