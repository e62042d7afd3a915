/**
 * The AST printer: an expression tree rendered in a LISP-like prefix form,
 * each compound node as a parenthesised list of its name and its
 * children, e.g. `(* (- 123) (group 45.67))`.
 */
module AstPrinter {
  import opened Text
  import opened Tokens

  /**
   * The value a literal node holds. A Java `Double` is kept as the text
   * its `toString` produces; the other values are rendered here.
   */
  datatype Value =
    | NilValue
    | BoolValue(b: bool)
    | StringValue(s: string)
    | IntegerValue(i: int)
    | DoubleValue(shown: string)

  /** The six expression nodes the printer visits. */
  datatype Expr =
    | Binary(left: Expr, operator: Token, right: Expr)
    | Grouping(expression: Expr)
    | Literal(literal: Value)
    | Unary(operator: Token, right: Expr)
    | Variable(name: Token)
    | Assign(name: Token, value: Expr)

  /** The nodes with a parenthesised rendering. */
  predicate IsCompound(e: Expr) {
    e.Binary? || e.Grouping? || e.Unary? || e.Assign?
  }

  /** The number of nodes, which bounds the printer's recursion. */
  function Size(e: Expr): (n: nat)
    ensures n >= 1
  {
    match e
    case Binary(left, _, right) => 1 + Size(left) + Size(right)
    case Grouping(inner) => 1 + Size(inner)
    case Literal(_) => 1
    case Unary(_, right) => 1 + Size(right)
    case Variable(_) => 1
    case Assign(_, value) => 1 + Size(value)
  }

  function SizeAll(es: seq<Expr>): nat {
    if es == [] then 0 else SizeAll(es[..|es| - 1]) + Size(es[|es| - 1])
  }

  lemma {:induction false} SizeAllBounds(es: seq<Expr>, k: nat)
    requires k < |es|
    ensures Size(es[k]) <= SizeAll(es)
    ensures SizeAll(es[..k]) < SizeAll(es)
    decreases |es|
  {
    if k < |es| - 1 {
      SizeAllBounds(es[..|es| - 1], k);
      assert es[..|es| - 1][..k] == es[..k];
    } else {
      assert es[..k] == es[..|es| - 1];
    }
  }

  lemma SizeAllOne(a: Expr)
    ensures SizeAll([a]) == Size(a)
  {
    assert [a][..0] == [];
  }

  lemma SizeAllPair(a: Expr, b: Expr)
    ensures SizeAll([a, b]) == Size(a) + Size(b)
  {
    SizeAllOne(a);
    assert [a, b][..1] == [a];
  }

  /** A literal's text: "nil" for null, else the value's `toString`. */
  function ShowValue(v: Value): string {
    match v
    case NilValue => "nil"
    case BoolValue(b) => if b then "true" else "false"
    case StringValue(s) => s
    case IntegerValue(i) => IntToString(i)
    case DoubleValue(shown) => shown
  }

  /** `print`, through the `visit*Expr` method of each node. */
  function Rendered(e: Expr): (r: string)
    ensures IsCompound(e) ==> |r| >= 2 && r[0] == '(' && r[|r| - 1] == ')'
    decreases Size(e), 0
  {
    match e
    case Binary(left, operator, right) =>
      SizeAllPair(left, right);
      Parenthesized(operator.lexeme, [left, right])
    case Grouping(inner) =>
      SizeAllOne(inner);
      Parenthesized("group", [inner])
    case Literal(value) => ShowValue(value)
    case Unary(operator, right) =>
      SizeAllOne(right);
      Parenthesized(operator.lexeme, [right])
    case Variable(name) => name.lexeme
    case Assign(name, value) =>
      SizeAllOne(value);
      Parenthesized("assign " + name.lexeme, [value])
  }

  /** `parenthesize(name, exprs)`: `(`, the name, a space and the rendering of each child, `)`. */
  function Parenthesized(name: string, es: seq<Expr>): (r: string)
    ensures |r| >= 2 && r[0] == '(' && r[|r| - 1] == ')'
    decreases SizeAll(es), 2
  {
    "(" + name + Spaced(es) + ")"
  }

  /** The children, each after one space. */
  function Spaced(es: seq<Expr>): string
    decreases SizeAll(es), 1
  {
    if es == [] then ""
    else
      SizeAllBounds(es, |es| - 1);
      Spaced(es[..|es| - 1]) + " " + Rendered(es[|es| - 1])
  }

  /** `print`, the visitor form: one method per node kind, dispatched by the node. */
  method Print(e: Expr) returns (s: string)
    ensures s == Rendered(e)
    decreases Size(e), 0
  {
    match e {
      case Binary(left, operator, right) =>
        SizeAllPair(left, right);
        s := Parenthesize(operator.lexeme, [left, right]);
      case Grouping(inner) =>
        SizeAllOne(inner);
        s := Parenthesize("group", [inner]);
      case Literal(value) =>
        s := ShowValue(value);
      case Unary(operator, right) =>
        SizeAllOne(right);
        s := Parenthesize(operator.lexeme, [right]);
      case Variable(name) =>
        s := name.lexeme;
      case Assign(name, value) =>
        SizeAllOne(value);
        s := Parenthesize("assign " + name.lexeme, [value]);
    }
  }

  /** `parenthesize`: the `StringBuilder` loop over the children. */
  method Parenthesize(name: string, exprs: seq<Expr>) returns (s: string)
    ensures s == Parenthesized(name, exprs)
    decreases SizeAll(exprs), 2
  {
    var builder := "(" + name;
    for k := 0 to |exprs|
      invariant builder == "(" + name + Spaced(exprs[..k])
    {
      SizeAllBounds(exprs, k);
      builder := builder + " ";
      var part := Print(exprs[k]);
      assert exprs[..k + 1][..k] == exprs[..k];
      builder := builder + part;
    }
    assert exprs[..|exprs|] == exprs;
    s := builder + ")";
  }

  // ---------------------------------------------------------------------
  // What each node renders as
  // ---------------------------------------------------------------------

  lemma SpacedPair(a: Expr, b: Expr)
    ensures Spaced([a, b]) == " " + Rendered(a) + " " + Rendered(b)
  {
    SpacedOne(a);
    assert [a, b][..1] == [a];
  }

  lemma SpacedOne(a: Expr)
    ensures Spaced([a]) == " " + Rendered(a)
  {
    assert [a][..0] == [];
  }

  /** A binary node: `(op left right)`. */
  lemma RenderBinary(left: Expr, operator: Token, right: Expr)
    ensures Rendered(Binary(left, operator, right))
         == "(" + operator.lexeme + " " + Rendered(left) + " " + Rendered(right) + ")"
  {
    SpacedPair(left, right);
  }

  /** A grouping: `(group inner)`. */
  lemma RenderGrouping(inner: Expr)
    ensures Rendered(Grouping(inner)) == "(group " + Rendered(inner) + ")"
  {
    SpacedOne(inner);
  }

  /** A unary node: `(op operand)`. */
  lemma RenderUnary(operator: Token, right: Expr)
    ensures Rendered(Unary(operator, right)) == "(" + operator.lexeme + " " + Rendered(right) + ")"
  {
    SpacedOne(right);
  }

  /** An assignment: `(assign name value)`. */
  lemma RenderAssign(name: Token, value: Expr)
    ensures Rendered(Assign(name, value)) == "(assign " + name.lexeme + " " + Rendered(value) + ")"
  {
    SpacedOne(value);
  }

  // ---------------------------------------------------------------------
  // The parentheses of a rendering
  // ---------------------------------------------------------------------

  predicate ParenFree(s: string) {
    '(' !in s && ')' !in s
  }

  /** No operator, name or literal text of the tree holds a parenthesis. */
  predicate AtomsParenFree(e: Expr) {
    match e
    case Binary(left, operator, right) => ParenFree(operator.lexeme) && AtomsParenFree(left) && AtomsParenFree(right)
    case Grouping(inner) => AtomsParenFree(inner)
    case Literal(value) => ParenFree(ShowValue(value))
    case Unary(operator, right) => ParenFree(operator.lexeme) && AtomsParenFree(right)
    case Variable(name) => ParenFree(name.lexeme)
    case Assign(name, value) => ParenFree(name.lexeme) && AtomsParenFree(value)
  }

  /** The number of compound nodes in the tree. */
  function Compounds(e: Expr): nat {
    match e
    case Binary(left, _, right) => 1 + Compounds(left) + Compounds(right)
    case Grouping(inner) => 1 + Compounds(inner)
    case Literal(_) => 0
    case Unary(_, right) => 1 + Compounds(right)
    case Variable(_) => 0
    case Assign(_, value) => 1 + Compounds(value)
  }

  /**
   * When the atoms hold no parentheses, the rendering has one `(` and one
   * `)` per compound node: every parenthesis in it delimits a node.
   */
  lemma {:induction false} ParenCount(e: Expr)
    requires AtomsParenFree(e)
    ensures ParensMatchNodes(e)
    decreases e, 1
  {
    match e {
      case Binary(_, _, _) => ParenCountBinary(e);
      case Grouping(_) => ParenCountGrouping(e);
      case Literal(value) => Atom(e, ShowValue(value));
      case Unary(_, _) => ParenCountUnary(e);
      case Variable(name) => Atom(e, name.lexeme);
      case Assign(_, _) => ParenCountAssign(e);
    }
  }

  lemma {:induction false} ParenCountBinary(e: Expr)
    requires e.Binary? && AtomsParenFree(e)
    ensures ParensMatchNodes(e)
    decreases e, 0
  {
    ParenCount(e.left);
    ParenCount(e.right);
    RenderBinary(e.left, e.operator, e.right);
    WrapTwo(e.operator.lexeme, Rendered(e.left), Rendered(e.right));
  }

  lemma {:induction false} ParenCountGrouping(e: Expr)
    requires e.Grouping? && AtomsParenFree(e)
    ensures ParensMatchNodes(e)
    decreases e, 0
  {
    ParenCount(e.expression);
    WrapOne(e, "group", e.expression);
  }

  lemma {:induction false} ParenCountUnary(e: Expr)
    requires e.Unary? && AtomsParenFree(e)
    ensures ParensMatchNodes(e)
    decreases e, 0
  {
    ParenCount(e.right);
    WrapOne(e, e.operator.lexeme, e.right);
  }

  lemma {:induction false} ParenCountAssign(e: Expr)
    requires e.Assign? && AtomsParenFree(e)
    ensures ParensMatchNodes(e)
    decreases e, 0
  {
    ParenCount(e.value);
    assert ParenFree("assign " + e.name.lexeme);
    WrapOne(e, "assign " + e.name.lexeme, e.value);
  }

  /** One `(` and one `)` per compound node. */
  predicate ParensMatchNodes(e: Expr) {
    multiset(Rendered(e))['('] == Compounds(e) && multiset(Rendered(e))[')'] == Compounds(e)
  }

  /** A leaf rendered as parenthesis-free text has none. */
  lemma Atom(e: Expr, text: string)
    requires ParenFree(text) && Rendered(e) == text && Compounds(e) == 0
    ensures ParensMatchNodes(e)
  {
    ParenFreeCount(text);
  }

  /** A node `(name child)` holds its own pair of parentheses and those of its child. */
  lemma WrapOne(e: Expr, name: string, child: Expr)
    requires ParenFree(name) && ParensMatchNodes(child)
    requires Rendered(e) == Parenthesized(name, [child])
    requires Compounds(e) == 1 + Compounds(child)
    ensures ParensMatchNodes(e)
  {
    SpacedCount(child);
    WrapCount(name, Spaced([child]), Rendered(child));
  }

  /** The children part of a one-child node has the child's parentheses. */
  lemma SpacedCount(child: Expr)
    ensures multiset(Spaced([child]))['('] == multiset(Rendered(child))['(']
    ensures multiset(Spaced([child]))[')'] == multiset(Rendered(child))[')']
  {
    SpacedOne(child);
  }

  /** `(name children)` adds one pair to the parentheses of its children part. */
  lemma WrapCount(name: string, spaced: string, r: string)
    requires ParenFree(name)
    requires multiset(spaced)['('] == multiset(r)['('] && multiset(spaced)[')'] == multiset(r)[')']
    ensures multiset("(" + name + spaced + ")")['('] == 1 + multiset(r)['(']
    ensures multiset("(" + name + spaced + ")")[')'] == 1 + multiset(r)[')']
  {
    ParenFreeCount(name);
  }

  lemma ParenFreeCount(s: string)
    requires ParenFree(s)
    ensures multiset(s)['('] == 0 && multiset(s)[')'] == 0
  {
  }

  /** The parentheses of `(name x y)`: its own pair and those of `x` and `y`. */
  lemma WrapTwo(name: string, x: string, y: string)
    requires ParenFree(name)
    ensures var m := multiset("(" + name + " " + x + " " + y + ")");
      && m['('] == 1 + multiset(x)['('] + multiset(y)['(']
      && m[')'] == 1 + multiset(x)[')'] + multiset(y)[')']
  {
    ParenFreeCount(name);
  }

  // ---------------------------------------------------------------------
  // The sample tree of the printer's `main`
  // ---------------------------------------------------------------------

  /** `-123 * (45.67)` as the parser would build it. */
  function Sample(): Expr {
    Binary(
      Unary(Token(MINUS, "-", NoLiteral, 1), Literal(IntegerValue(123))),
      Token(STAR, "*", NoLiteral, 1),
      Grouping(Literal(DoubleValue("45.67"))))
  }

  lemma SampleRendering()
    ensures Rendered(Sample()) == "(* (- 123) (group 45.67))"
  {
    var minus := Unary(Token(MINUS, "-", NoLiteral, 1), Literal(IntegerValue(123)));
    var group := Grouping(Literal(DoubleValue("45.67")));
    SampleNegation();
    SampleGrouping();
    RenderBinary(minus, Token(STAR, "*", NoLiteral, 1), group);
    SampleText();
  }

  /** The pieces of the sample's rendering, put together. */
  lemma SampleText()
    ensures "(" + "*" + " " + "(- 123)" + " " + "(group 45.67)" + ")" == "(* (- 123) (group 45.67))"
  {
  }

  lemma SampleNegation()
    ensures Rendered(Unary(Token(MINUS, "-", NoLiteral, 1), Literal(IntegerValue(123)))) == "(- 123)"
  {
    assert IntToString(123) == "123" by {
      assert NatToString(12) == "12" by {
        assert NatToString(1) == "1";
      }
    }
    RenderUnary(Token(MINUS, "-", NoLiteral, 1), Literal(IntegerValue(123)));
  }

  lemma SampleGrouping()
    ensures Rendered(Grouping(Literal(DoubleValue("45.67")))) == "(group 45.67)"
  {
    RenderGrouping(Literal(DoubleValue("45.67")));
  }
}
