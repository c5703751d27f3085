/**
 * `SkSL::dsl::DSLExpression` of src/sksl/dsl/DSLExpression.h: a move-only
 * holder of an optional SkSL expression. It is empty when default-constructed
 * or once released; built from a null expression it holds Poison, which is a
 * value but not a valid one.
 *
 * Expressions are objects, and each records (as ghost state) the holder that
 * owns it, so that "at most one holder owns an expression" can be stated:
 * `owner == null` means the expression is owned by a bare `unique_ptr`.
 */
module DSL {

  /** `SkSL::Position`: an opaque source location. */
  datatype Position = Position(offset: int)

  /** A variable (`DSLVarBase`), by identity. */
  datatype Variable = Variable(id: int)

  /**
   * What an `SkSL::Expression` is, reduced to the distinction the holder
   * makes: Poison, which stands for an expression built with errors, or a
   * real expression.
   */
  datatype ExpressionKind =
    | Poison(position: Position)
    | VariableReference(variable: Variable, position: Position)
    | Node(node: int, position: Position)

  /** `SkSL::Expression`. */
  class Expression {
    const kind: ExpressionKind
    /** The holder whose `fExpression` points here; `null` when none does. */
    ghost var owner: DSLExpression?

    constructor (kind: ExpressionKind)
      ensures this.kind == kind && owner == null
    {
      this.kind := kind;
      owner := null;
    }
  }

  class DSLExpression {
    /** `fExpression`; `null` is the empty `unique_ptr`. */
    var expression: Expression?

    /** The held expression knows this holder as its only owner. */
    ghost predicate Valid()
      reads this, expression
    {
      expression != null ==> expression.owner == this
    }

    /** `DSLExpression()`: the empty holder. */
    constructor Empty()
      ensures Valid() && !HasValue()
    {
      expression := null;
    }

    /** `DSLExpression(DSLVarBase&, Position)`: a new reference to `v`. */
    constructor FromVariable(v: Variable, pos: Position)
      ensures Valid() && HasValue() && IsValid()
      ensures fresh(expression) && expression.kind == VariableReference(v, pos)
    {
      expression := new Expression(VariableReference(v, pos));
      new;
      expression.owner := this;
    }

    /**
     * `DSLExpression(std::unique_ptr<Expression>, Position)`: takes over an
     * expression that no holder owns; a null expression yields Poison.
     */
    constructor FromExpression(e: Expression?, pos: Position)
      requires e != null ==> e.owner == null
      modifies e
      ensures Valid() && HasValue()
      ensures e == null ==> !IsValid() && fresh(expression) && expression.kind == Poison(pos)
      ensures e != null ==> expression == e
    {
      if e == null {
        expression := new Expression(Poison(pos));
      } else {
        expression := e;
      }
      new;
      expression.owner := this;
    }

    /** `DSLExpression(DSLExpression&&)`: takes `other`'s expression and leaves it empty. */
    constructor Move(other: DSLExpression)
      requires other.Valid()
      modifies other, other.expression
      ensures Valid() && other.Valid()
      ensures expression == old(other.expression)
      ensures !other.HasValue()
    {
      expression := other.expression;
      new;
      other.expression := null;
      if expression != null {
        expression.owner := this;
      }
    }

    /**
     * `hasValue()`: the held pointer is not null. A holder of Poison has a
     * value (`IsValid` states that a holder without a value is not valid).
     */
    predicate HasValue()
      reads this
      ensures expression != null && expression.kind.Poison? ==> HasValue()
    {
      expression != null
    }

    /** `isValid()`: the holder has an expression and it is not Poison. */
    predicate IsValid()
      reads this
      ensures IsValid() ==> HasValue()
    {
      expression != null && !expression.kind.Poison?
    }

    /** `release()`: hands the expression to the caller; the holder is empty afterwards. */
    method Release() returns (e: Expression)
      requires Valid() && HasValue()
      modifies this, expression
      ensures Valid() && !HasValue()
      ensures e == old(expression) && e.owner == null
    {
      e := expression;
      e.owner := null;
      expression := null;
    }

    /** `releaseIfPossible()`: never fails; null when there was nothing to release. */
    method ReleaseIfPossible() returns (e: Expression?)
      requires Valid()
      modifies this, expression
      ensures Valid() && !HasValue()
      ensures e == old(expression)
      ensures old(HasValue()) <==> e != null
      ensures e != null ==> e.owner == null
    {
      e := expression;
      if e != null {
        e.owner := null;
      }
      expression := null;
    }

    /** `swap(other)`: the two holders exchange their expressions. */
    method Swap(other: DSLExpression)
      requires Valid() && other.Valid()
      modifies this, other, expression, other.expression
      ensures Valid() && other.Valid()
      ensures expression == old(other.expression) && other.expression == old(expression)
    {
      expression, other.expression := other.expression, expression;
      if expression != null {
        expression.owner := this;
      }
      if other.expression != null {
        other.expression.owner := other;
      }
    }
  }

  /** `DSLExpression::Poison(pos)`: a holder with a value that is not valid. */
  method MakePoison(pos: Position) returns (r: DSLExpression)
    ensures fresh(r) && r.Valid()
    ensures r.HasValue() && !r.IsValid()
    ensures fresh(r.expression) && r.expression.kind == Poison(pos)
  {
    r := new DSLExpression.FromExpression(null, pos);
  }

  /** Two valid holders of the same expression are the same holder: ownership is exclusive. */
  lemma ExclusiveOwnership(a: DSLExpression, b: DSLExpression)
    requires a.Valid() && b.Valid()
    requires a.HasValue() && a.expression == b.expression
    ensures a == b
  {
  }
}
