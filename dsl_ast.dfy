/** The typed AST of a flow-statement script, and the three normalisations the
  * tree-to-AST transformer applies: the start rule yields its single child,
  * integer tokens get their numeric value, and newline tokens are dropped from
  * every child list. */
module DslAst {
  import opened Wrappers

  /** One endpoint of an edge: a step name and its index. (The source field
    * `var` is a keyword here, so it is called `name`.) */
  datatype FlowStep = FlowStep(name: string, num: int)

  /** Annotations on the source and destination ends of a statement. */
  datatype SrcLabel = SrcLabel(text: string)
  datatype DstLabel = DstLabel(text: string)

  /** One directed edge `src --slabel--> dst : dlabel`. */
  datatype FlowStatement = FlowStatement(src: FlowStep, slabel: SrcLabel, dst: FlowStep, dlabel: DstLabel)

  /** The statements of a script, in source order. */
  datatype FlowStatements = FlowStatements(statements: seq<FlowStatement>)

  /** The root node: a flow-type tag and the statement list. */
  datatype Flowchart = Flowchart(flowType: string, flowStatements: FlowStatements)

  /** Every node class of the AST, as one variant type. */
  datatype Ast =
    | FlowchartAst(chart: Flowchart)
    | StatementsAst(statements: FlowStatements)
    | StatementAst(statement: FlowStatement)
    | StepAst(step: FlowStep)
    | SrcLabelAst(srcLabel: SrcLabel)
    | DstLabelAst(dstLabel: DstLabel)

  /** Lexer tokens: the terminal type, the value (text as lexed, or a number once
    * converted) and the position the parser recorded. */
  datatype TokenKind = IntKind | NewlineKind | OtherKind(typeName: string)
  datatype TokenValue = Text(text: string) | Number(n: int)
  datatype Token = Token(kind: TokenKind, value: TokenValue, line: nat, column: nat)

  /** A child of a parse-tree node while the transformer runs: a token or an
    * already-built AST node. */
  datatype Node = TokenNode(tok: Token) | AstNode(ast: Ast)

  /** The transformer's only failure: a rule callback given the wrong number of children. */
  datatype TransformError = ArityMismatch(expected: nat, got: nat)

  // ---------------------------------------------------------------------------
  // start: the start rule is transformed with its children passed inline, so it
  // accepts exactly one child and returns it unchanged.

  function Start(children: seq<Node>): (r: Result<Node, TransformError>)
    ensures r.Ok? <==> |children| == 1
    ensures r.Ok? ==> r.value == children[0]
    ensures r.Err? ==> r.error == ArityMismatch(1, |children|)
  {
    if |children| == 1 then Ok(children[0]) else Err(ArityMismatch(1, |children|))
  }

  // ---------------------------------------------------------------------------
  // INT: decimal digit text to integer value.

  predicate IsDigit(c: char) { '0' <= c <= '9' }

  predicate AllDigits(s: string) { forall i :: 0 <= i < |s| ==> IsDigit(s[i]) }

  /** The text of the INT terminal: one or more decimal digits. */
  predicate IsIntText(s: string) { |s| > 0 && AllDigits(s) }

  /** Digits without superfluous leading zeros: the text a number prints as. */
  predicate IsCanonical(s: string) { IsIntText(s) && (s[0] == '0' ==> |s| == 1) }

  function DigitValue(c: char): nat
    requires IsDigit(c)
  {
    c as int - '0' as int
  }

  function DigitChar(d: nat): char
    requires d < 10
  {
    ('0' as int + d) as char
  }

  /** The value of a digit string, most significant digit first. */
  function DecimalValue(s: string): nat
    requires AllDigits(s)
  {
    if |s| == 0 then 0 else 10 * DecimalValue(s[..|s| - 1]) + DigitValue(s[|s| - 1])
  }

  /** The canonical decimal text of a natural number. */
  function DecimalText(n: nat): string
  {
    if n < 10 then [DigitChar(n)] else DecimalText(n / 10) + [DigitChar(n % 10)]
  }

  /** Digit text with its superfluous leading zeros dropped ("007" to "7", "00" to "0"). */
  function StripZeros(s: string): string
  {
    if |s| > 1 && s[0] == '0' then StripZeros(s[1..]) else s
  }

  /** The INT callback: the token keeps its terminal type and position and its
    * text is replaced by the number it denotes, never negative; printing that
    * number gives the token's text without its leading zeros. */
  function IntToken(tok: Token): (r: Token)
    requires tok.value.Text? && IsIntText(tok.value.text)
    ensures r.kind == tok.kind && r.line == tok.line && r.column == tok.column
    ensures r.value.Number? && r.value.n >= 0
    ensures DecimalText(r.value.n) == StripZeros(tok.value.text)
  {
    StripZerosKeepsValue(tok.value.text);
    DecimalTextOfValue(StripZeros(tok.value.text));
    tok.(value := Number(DecimalValue(tok.value.text)))
  }

  /** A leading zero does not change the value of a digit string. */
  lemma {:induction false} LeadingZeroValue(s: string)
    requires AllDigits(s)
    ensures AllDigits(['0'] + s) && DecimalValue(['0'] + s) == DecimalValue(s)
  {
    if |s| > 0 {
      var t := ['0'] + s;
      assert t[..|t| - 1] == ['0'] + s[..|s| - 1];
      assert t[|t| - 1] == s[|s| - 1];
      LeadingZeroValue(s[..|s| - 1]);
    } else {
      assert (['0'] + s)[..0] == [];
    }
  }

  /** Dropping leading zeros gives canonical digits of the same value. */
  lemma {:induction false} StripZerosKeepsValue(s: string)
    requires IsIntText(s)
    ensures IsCanonical(StripZeros(s)) && DecimalValue(StripZeros(s)) == DecimalValue(s)
  {
    if |s| > 1 && s[0] == '0' {
      StripZerosKeepsValue(s[1..]);
      assert s == ['0'] + s[1..];
      LeadingZeroValue(s[1..]);
    }
  }

  lemma {:induction false} DecimalTextIsCanonical(n: nat)
    ensures IsCanonical(DecimalText(n))
    ensures n >= 1 ==> DecimalText(n)[0] != '0'
  {
    if n >= 10 {
      DecimalTextIsCanonical(n / 10);
      var s := DecimalText(n / 10) + [DigitChar(n % 10)];
      assert s[0] == DecimalText(n / 10)[0];
      assert forall i :: 0 <= i < |s| - 1 ==> s[i] == DecimalText(n / 10)[i];
    }
  }

  /** Printing a number and reading it back gives the number. */
  lemma {:induction false} DecimalRoundTrip(n: nat)
    ensures AllDigits(DecimalText(n)) && DecimalValue(DecimalText(n)) == n
  {
    DecimalTextIsCanonical(n);
    if n >= 10 {
      DecimalRoundTrip(n / 10);
      var s := DecimalText(n);
      assert s[..|s| - 1] == DecimalText(n / 10);
    }
  }

  /** A digit string whose first digit is not zero denotes a positive number. */
  lemma {:induction false} LeadingDigitPositive(s: string)
    requires IsIntText(s) && s[0] != '0'
    ensures DecimalValue(s) >= 1
  {
    if |s| > 1 {
      LeadingDigitPositive(s[..|s| - 1]);
    }
  }

  /** Reading canonical digits and printing the value gives back the same text. */
  lemma {:induction false} DecimalTextOfValue(s: string)
    requires IsIntText(s)
    ensures IsCanonical(s) ==> DecimalText(DecimalValue(s)) == s
  {
    if IsCanonical(s) && |s| > 1 {
      var p := s[..|s| - 1];
      LeadingDigitPositive(p);
      DecimalTextOfValue(p);
      var v := DecimalValue(s);
      assert v / 10 == DecimalValue(p) && v % 10 == DigitValue(s[|s| - 1]);
      assert s == p + [s[|s| - 1]];
    }
  }

  // ---------------------------------------------------------------------------
  // NEWLINE: newline tokens are discarded from every child list.

  predicate IsNewline(n: Node) { n.TokenNode? && n.tok.kind == NewlineKind }

  function DiscardNewlines(children: seq<Node>): (r: seq<Node>)
    ensures forall i :: 0 <= i < |r| ==> !IsNewline(r[i])
    ensures forall x :: x in r <==> x in children && !IsNewline(x)
  {
    if children == [] then []
    else if IsNewline(children[0]) then DiscardNewlines(children[1..])
    else [children[0]] + DiscardNewlines(children[1..])
  }

  /** Filtering distributes over concatenation, so the relative order of the kept
    * children is the order they had. */
  lemma {:induction false} DiscardNewlinesAppend(a: seq<Node>, b: seq<Node>)
    ensures DiscardNewlines(a + b) == DiscardNewlines(a) + DiscardNewlines(b)
  {
    if a != [] {
      assert (a + b)[1..] == a[1..] + b;
      DiscardNewlinesAppend(a[1..], b);
    } else {
      assert a + b == b;
    }
  }

  /** A list without newline tokens is left exactly as it is. */
  lemma {:induction false} DiscardNewlinesKeepsOthers(children: seq<Node>)
    requires forall i :: 0 <= i < |children| ==> !IsNewline(children[i])
    ensures DiscardNewlines(children) == children
  {
    if children != [] {
      DiscardNewlinesKeepsOthers(children[1..]);
    }
  }

  /** Discarding twice is the same as discarding once. */
  lemma DiscardNewlinesIdempotent(children: seq<Node>)
    ensures DiscardNewlines(DiscardNewlines(children)) == DiscardNewlines(children)
  {
    DiscardNewlinesKeepsOthers(DiscardNewlines(children));
  }

  /** Exactly the newline tokens are removed: the length drops by their number. */
  function NewlineCount(children: seq<Node>): nat
  {
    if children == [] then 0 else (if IsNewline(children[0]) then 1 else 0) + NewlineCount(children[1..])
  }

  lemma {:induction false} DiscardNewlinesLength(children: seq<Node>)
    ensures |DiscardNewlines(children)| == |children| - NewlineCount(children)
  {
    if children != [] {
      DiscardNewlinesLength(children[1..]);
    }
  }
}
