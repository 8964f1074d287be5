/** The compact edge form of a script and the combinator that repeats two
  * scripts with their step indices shifted by one per round. */
module Interpret {
  import opened Wrappers
  import opened DslAst

  /** A step reduced to its name and index. */
  type Step = (string, int)

  /** A compact edge: the steps of one statement, labels dropped. The compactor
    * makes pairs; the incrementer works on any number of steps. */
  type Edge = seq<Step>

  /** What the parser reports when a script does not match the grammar. */
  datatype SyntaxError = SyntaxError(line: nat, column: nat, expected: string, found: string)

  // ---------------------------------------------------------------------------
  // Specification functions

  function StepOf(s: FlowStep): Step { (s.name, s.num) }

  /** The compact form of one statement: its source and destination steps. */
  function EdgeOf(st: FlowStatement): Edge { [StepOf(st.src), StepOf(st.dst)] }

  /** The compact form of a script, one edge per statement in source order. */
  function Compact(chart: Flowchart): seq<Edge>
  {
    var stmts := chart.flowStatements.statements;
    seq(|stmts|, i requires 0 <= i < |stmts| => EdgeOf(stmts[i]))
  }

  /** Every step index of an edge list raised by `k`, names unchanged. */
  function ShiftStep(s: Step, k: int): Step { (s.0, s.1 + k) }

  function ShiftEdge(e: Edge, k: int): Edge
  {
    seq(|e|, j requires 0 <= j < |e| => ShiftStep(e[j], k))
  }

  function Shift(es: seq<Edge>, k: int): seq<Edge>
  {
    seq(|es|, i requires 0 <= i < |es| => ShiftEdge(es[i], k))
  }

  /** The output of `n` rounds: round `k` is `fi` shifted by `k` followed by
    * `th` shifted by `k`, rounds in increasing order. */
  function Rounds(fi: seq<Edge>, th: seq<Edge>, n: nat): seq<Edge>
  {
    if n == 0 then [] else Rounds(fi, th, n - 1) + Shift(fi, n - 1) + Shift(th, n - 1)
  }

  // ---------------------------------------------------------------------------
  // Operations

  /** mk_compact: one (src, dst) edge per statement, in order; labels and the
    * flow type do not reach the result. */
  method MkCompact(ast: Flowchart) returns (edges: seq<Edge>)
    ensures |edges| == |ast.flowStatements.statements|
    ensures forall i :: 0 <= i < |edges| ==>
      var st := ast.flowStatements.statements[i];
      edges[i] == [(st.src.name, st.src.num), (st.dst.name, st.dst.num)]
    ensures edges == Compact(ast)
  {
    var stmts := ast.flowStatements.statements;
    edges := [];
    for i := 0 to |stmts|
      invariant |edges| == i
      invariant forall p :: 0 <= p < i ==> edges[p] == EdgeOf(stmts[p])
    {
      var s := (stmts[i].src.name, stmts[i].src.num);
      var d := (stmts[i].dst.name, stmts[i].dst.num);
      edges := edges + [[s, d]];
    }
  }

  /** inc_compact: a new list of the same shape in which every step keeps its
    * name and has its index raised by exactly one. */
  method IncCompact(compact: seq<Edge>) returns (incremented: seq<Edge>)
    ensures |incremented| == |compact|
    ensures forall i :: 0 <= i < |compact| ==> |incremented[i]| == |compact[i]|
    ensures forall i, j :: 0 <= i < |compact| && 0 <= j < |compact[i]| ==>
      incremented[i][j].0 == compact[i][j].0 && incremented[i][j].1 == compact[i][j].1 + 1
    ensures incremented == Shift(compact, 1)
  {
    incremented := [];
    for i := 0 to |compact|
      invariant |incremented| == i
      invariant forall p :: 0 <= p < i ==> incremented[p] == ShiftEdge(compact[p], 1)
    {
      var statement: Edge := [];
      for j := 0 to |compact[i]|
        invariant |statement| == j
        invariant forall q :: 0 <= q < j ==> statement[q] == ShiftStep(compact[i][q], 1)
      {
        var step := (compact[i][j].0, compact[i][j].1 + 1);
        statement := statement + [step];
      }
      incremented := incremented + [statement];
    }
  }

  /** DslInterpreter.apply: parse both scripts (the first one first), compact
    * them, then run `times` rounds, each appending the current first-script
    * edges and then-script edges and incrementing both. A parse failure of
    * either script aborts the call with that failure and no output. */
  method Apply(parse: string -> Result<Flowchart, SyntaxError>, firstScript: string, thenScript: string, times: int := 1)
    returns (r: Result<seq<Edge>, SyntaxError>)
    requires times >= 0
    ensures parse(firstScript).Err? ==> r == Err(parse(firstScript).error)
    ensures parse(firstScript).Ok? && parse(thenScript).Err? ==> r == Err(parse(thenScript).error)
    ensures parse(firstScript).Ok? && parse(thenScript).Ok? ==>
      r == Ok(Rounds(Compact(parse(firstScript).value), Compact(parse(thenScript).value), times))
    ensures r.Ok? ==>
      |r.value| == times * (|parse(firstScript).value.flowStatements.statements|
                            + |parse(thenScript).value.flowStatements.statements|)
  {
    var firstAst := parse(firstScript);
    if firstAst.Err? {
      return Err(firstAst.error);
    }
    var thenAst := parse(thenScript);
    if thenAst.Err? {
      return Err(thenAst.error);
    }
    var out: seq<Edge> := [];
    var fi := MkCompact(firstAst.value);
    var th := MkCompact(thenAst.value);
    ghost var fi0, th0 := fi, th;
    ShiftZero(fi0);
    ShiftZero(th0);
    var remaining := times;
    while remaining != 0
      invariant 0 <= remaining <= times
      invariant out == Rounds(fi0, th0, times - remaining)
      invariant fi == Shift(fi0, times - remaining) && th == Shift(th0, times - remaining)
      decreases remaining
    {
      ghost var done := times - remaining;
      out := out + fi;
      out := out + th;
      fi := IncCompact(fi);
      th := IncCompact(th);
      ShiftShift(fi0, done, 1);
      ShiftShift(th0, done, 1);
      remaining := remaining - 1;
    }
    RoundsLength(fi0, th0, times);
    return Ok(out);
  }

  // ---------------------------------------------------------------------------
  // Laws

  /** Shifting by zero changes nothing. */
  lemma ShiftZero(es: seq<Edge>)
    ensures Shift(es, 0) == es
  {
    forall i | 0 <= i < |es| ensures Shift(es, 0)[i] == es[i] {
      assert ShiftEdge(es[i], 0) == es[i];
    }
  }

  /** Shifting by `a` and then by `b` is shifting by `a + b`: one increment per
    * round accumulates to a shift by the round number. */
  lemma ShiftShift(es: seq<Edge>, a: int, b: int)
    ensures Shift(Shift(es, a), b) == Shift(es, a + b)
  {
    forall i | 0 <= i < |es|
      ensures Shift(Shift(es, a), b)[i] == Shift(es, a + b)[i]
    {
      assert ShiftEdge(ShiftEdge(es[i], a), b) == ShiftEdge(es[i], a + b);
    }
  }

  /** `n` rounds hold `n * (|fi| + |th|)` edges; zero rounds give nothing. */
  lemma {:induction false} RoundsLength(fi: seq<Edge>, th: seq<Edge>, n: nat)
    ensures |Rounds(fi, th, n)| == n * (|fi| + |th|)
  {
    if n > 0 {
      RoundsLength(fi, th, n - 1);
      calc {
        |Rounds(fi, th, n)|;
        (n - 1) * (|fi| + |th|) + |fi| + |th|;
        { assert (n - 1) * (|fi| + |th|) + (|fi| + |th|) == n * (|fi| + |th|); }
        n * (|fi| + |th|);
      }
    }
  }

  /** Running more rounds only appends: the output of `m` rounds is a prefix of
    * the output of `n >= m` rounds. */
  lemma {:induction false} RoundsPrefix(fi: seq<Edge>, th: seq<Edge>, m: nat, n: nat)
    requires m <= n
    ensures Rounds(fi, th, m) <= Rounds(fi, th, n)
  {
    if m < n {
      RoundsPrefix(fi, th, m, n - 1);
    }
  }

  /** Round `k` starts at position `start == k * (|fi| + |th|)`: first the first
    * script's edges shifted by `k`, then the then-script's edges shifted by `k`. */
  lemma {:induction false} RoundsBlock(fi: seq<Edge>, th: seq<Edge>, n: nat, k: nat, start: nat)
    requires k < n && start == k * (|fi| + |th|)
    ensures start + |fi| + |th| <= |Rounds(fi, th, n)|
    ensures Rounds(fi, th, n)[start .. start + |fi|] == Shift(fi, k)
    ensures Rounds(fi, th, n)[start + |fi| .. start + |fi| + |th|] == Shift(th, k)
  {
    RoundsLength(fi, th, k);
    RoundsPrefix(fi, th, k + 1, n);
    var whole := Rounds(fi, th, n);
    var upto := Rounds(fi, th, k + 1);
    var before := Rounds(fi, th, k);
    assert upto == before + Shift(fi, k) + Shift(th, k);
    assert |before| == start;
    assert upto[start .. start + |fi|] == Shift(fi, k);
    assert upto[start + |fi| .. start + |fi| + |th|] == Shift(th, k);
    assert whole[start .. start + |fi|] == upto[start .. start + |fi|];
    assert whole[start + |fi| .. start + |fi| + |th|] == upto[start + |fi| .. start + |fi| + |th|];
  }

  /** Every step of round `k` keeps its name and has the original index plus `k`:
    * edge `j` of the first script sits at position `start + j` of round `k`, and
    * edge `j` of the then-script at position `start + |fi| + j`. */
  lemma RoundsStepShift(fi: seq<Edge>, th: seq<Edge>, n: nat, k: nat, start: nat, j: nat, s: nat)
    requires k < n && start == k * (|fi| + |th|)
    ensures j < |fi| && s < |fi[j]| ==>
      start + j < |Rounds(fi, th, n)| &&
      |Rounds(fi, th, n)[start + j]| == |fi[j]| &&
      Rounds(fi, th, n)[start + j][s] == (fi[j][s].0, fi[j][s].1 + k)
    ensures j < |th| && s < |th[j]| ==>
      start + |fi| + j < |Rounds(fi, th, n)| &&
      |Rounds(fi, th, n)[start + |fi| + j]| == |th[j]| &&
      Rounds(fi, th, n)[start + |fi| + j][s] == (th[j][s].0, th[j][s].1 + k)
  {
    RoundsBlock(fi, th, n, k, start);
    var all := Rounds(fi, th, n);
    if j < |fi| {
      var block := all[start .. start + |fi|];
      assert all[start + j] == block[j];
    }
    if j < |th| {
      var block := all[start + |fi| .. start + |fi| + |th|];
      assert all[start + |fi| + j] == block[j];
    }
  }

  /** Two scripts with the same steps compact alike, whatever their labels and
    * flow types: labels never reach the compact form. */
  lemma CompactIgnoresLabels(a: Flowchart, b: Flowchart)
    requires |a.flowStatements.statements| == |b.flowStatements.statements|
    requires forall i :: 0 <= i < |a.flowStatements.statements| ==>
      a.flowStatements.statements[i].src == b.flowStatements.statements[i].src &&
      a.flowStatements.statements[i].dst == b.flowStatements.statements[i].dst
    ensures Compact(a) == Compact(b)
  {
    forall i | 0 <= i < |Compact(a)| ensures Compact(a)[i] == Compact(b)[i] {
    }
  }

  /** Two rounds of the one-statement scripts `a0 -> b0` and `c0 -> d0`. */
  lemma TwoRoundsExample()
    ensures Rounds([[("a", 0), ("b", 0)]], [[("c", 0), ("d", 0)]], 2) ==
      [[("a", 0), ("b", 0)], [("c", 0), ("d", 0)], [("a", 1), ("b", 1)], [("c", 1), ("d", 1)]]
  {
    var fi: seq<Edge> := [[("a", 0), ("b", 0)]];
    var th: seq<Edge> := [[("c", 0), ("d", 0)]];
    ShiftZero(fi);
    ShiftZero(th);
    assert ShiftEdge(fi[0], 1) == [("a", 1), ("b", 1)];
    assert ShiftEdge(th[0], 1) == [("c", 1), ("d", 1)];
    assert Rounds(fi, th, 1) == fi + th;
  }
}
