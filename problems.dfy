/**
 * The problem generator of the quiz page (`generateProblem`): a case split
 * over the topic name, with every `Math.random()` draw passed in.
 *
 * The question is kept as a structured `Question`, rendered to the page's
 * text by `Text`; `Solves` says what it means for a number to answer it,
 * independently of how the generator computes its answer.
 */
module Problems {
  import opened Wrappers
  import opened Numbers

  datatype Difficulty = Easy | Normal | Hard

  /** Operand scale and point multiplier of a difficulty. */
  function Multiplier(d: Difficulty): (m: nat)
    ensures 1 <= m <= 3
  {
    match d
    case Easy => 1
    case Normal => 2
    case Hard => 3
  }

  const TopicNames: seq<string> :=
    ["Addition", "Subtraction", "Multiplication", "Division", "Algebra", "Geometry"]

  predicate IsKnownTopic(topic: string)
  {
    topic in TopicNames
  }

  /** The draws one call of the generator makes, in the order it makes them. */
  datatype Rolls = Rolls(first: real, second: real, pick: real, u: real, v: real)

  predicate ValidRolls(r: Rolls)
  {
    Unit(r.first) && Unit(r.second) && Unit(r.pick) && Unit(r.u) && Unit(r.v)
  }

  datatype Question =
    | Sum(a: nat, b: nat)
    | Difference(total: nat, subtrahend: nat)
    | Product(a: nat, b: nat)
    | Quotient(dividend: nat, divisor: nat)
    | Linear(coefficient: nat, offset: nat, rhs: nat)
    | SquareOf(square: nat)
    | Progression(t0: nat, t1: nat, t2: nat, t3: nat)
    | RectangleArea(width: nat, height: nat)
    | SquarePerimeter(side: nat)
    | CircleCircumference(radius: nat)
    | TriangleArea(base: nat, height: nat)
    | CubeVolume(side: nat)

  /** The generated problem: the page shows `Text(statement)` and compares input with `answer`. */
  datatype Problem = Problem(statement: Question, answer: real)

  /** The integer-valued approximation of pi the circle question tells the player to use. */
  const Pi: nat := 3

  /**
   * What it means for `x` to answer `q`, read off the question the player
   * sees. Equations over whole numbers ask for a whole-number `x`.
   */
  predicate Solves(q: Question, x: real)
  {
    match q
    case Sum(a, b) => x == (a + b) as real
    case Difference(total, s) => (total - s) as real == x
    case Product(a, b) => x == (a * b) as real
    case Quotient(dividend, divisor) => IsInteger(x) && divisor > 0 && x.Floor * divisor == dividend
    case Linear(c, b, rhs) => IsInteger(x) && c * x.Floor + b == rhs
    case SquareOf(k) => IsInteger(x) && x > 0.0 && x.Floor * x.Floor == k
    case Progression(t0, t1, t2, t3) =>
      t1 - t0 == t2 - t1 == t3 - t2 && x - t3 as real == (t3 - t2) as real
    case RectangleArea(w, h) => x == (w * h) as real
    case SquarePerimeter(side) => x == (4 * side) as real
    case CircleCircumference(r) => x == (2 * Pi * r) as real
    case TriangleArea(b, h) => 2.0 * x == (b * h) as real
    case CubeVolume(side) => x == (side * side * side) as real
  }

  /** The topic whose button produces questions of this kind. */
  function TopicOf(q: Question): (topic: string)
  {
    match q
    case Sum(_, _) => "Addition"
    case Difference(_, _) => "Subtraction"
    case Product(_, _) => "Multiplication"
    case Quotient(_, _) => "Division"
    case Linear(_, _, _) => "Algebra"
    case SquareOf(_) => "Algebra"
    case Progression(_, _, _, _) => "Algebra"
    case _ => "Geometry"
  }

  predicate IsInteger(x: real)
  {
    x.Floor as real == x
  }

  predicate Between(k: int, lo: int, hi: int)
  {
    lo <= k <= hi
  }

  /** The operand ranges the draws allow, for difficulty multiplier `m`. */
  predicate WithinDrawRanges(p: Problem, m: nat)
  {
    var top := 10 * m;
    match p.statement
    case Sum(a, b) => Between(a, 1, top) && Between(b, 1, top)
    case Difference(total, s) => Between(s, 1, top) && Between(total - s, 1, top)
    case Product(a, b) => Between(a, 1, top) && Between(b, 1, top)
    case Quotient(_, divisor) => Between(divisor, 1, top) && Between(p.answer.Floor, 1, top)
    case Linear(c, b, _) => Between(c, 1, top) && Between(b, 1, 20) && Between(p.answer.Floor, 1, 10)
    case SquareOf(_) => Between(p.answer.Floor, 1, 5)
    case Progression(t0, t1, _, _) => Between(t0, 1, 5) && Between(t1 - t0, 2, 4)
    case RectangleArea(w, h) => Between(w, 1, top) && Between(h, 1, top)
    case SquarePerimeter(side) => Between(side, 1, top)
    case CircleCircumference(r) => Between(r, 1, top)
    case TriangleArea(b, h) => Between(b, 1, top) && Between(h, 1, top)
    case CubeVolume(side) => Between(side, 1, top)
  }

  /**
   * Everything a generated problem promises for multiplier `m`: its answer
   * solves the question shown, the operands lie in their draw ranges, and
   * the answer is positive and whole, or half of a whole for a triangle.
   */
  predicate WellFormed(p: Problem, m: nat)
  {
    && Solves(p.statement, p.answer)
    && WithinDrawRanges(p, m)
    && p.answer > 0.0
    && IsInteger(2.0 * p.answer)
    && (!p.statement.TriangleArea? ==> IsInteger(p.answer))
  }

  lemma WholeIsInteger(n: int)
    ensures IsInteger(n as real) && IsInteger(2.0 * n as real)
  {
    assert 2.0 * n as real == (2 * n) as real;
  }

  lemma ProductAtLeastOne(a: nat, b: nat)
    requires a >= 1 && b >= 1
    ensures a * b >= 1 && a * b >= a
  {
  }

  /** The four arithmetic topics, built from the two operands. */
  function ArithmeticProblem(topic: string, num1: nat, num2: nat, m: nat): (p: Problem)
    requires topic in ["Addition", "Subtraction", "Multiplication", "Division"]
    requires Between(num1, 1, 10 * m) && Between(num2, 1, 10 * m)
    ensures WellFormed(p, m) && TopicOf(p.statement) == topic
  {
    if topic == "Addition" then
      WholeIsInteger(num1 + num2);
      Problem(Sum(num1, num2), (num1 + num2) as real)
    else if topic == "Subtraction" then
      WholeIsInteger(num2);
      Problem(Difference(num1 + num2, num1), num2 as real)
    else if topic == "Multiplication" then
      ProductAtLeastOne(num1, num2);
      WholeIsInteger(num1 * num2);
      Problem(Product(num1, num2), (num1 * num2) as real)
    else
      var dividend := num1 * num2;
      WholeIsInteger(num2);
      Problem(Quotient(dividend, num1), num2 as real)
  }

  /** The three algebra sub-generators: linear equation, square, number sequence. */
  function AlgebraProblem(num1: nat, kind: nat, u: real, v: real, m: nat): (p: Problem)
    requires kind < 3 && Unit(u) && Unit(v) && Between(num1, 1, 10 * m)
    ensures WellFormed(p, m) && TopicOf(p.statement) == "Algebra"
  {
    if kind == 0 then LinearProblem(num1, RandInt(u, 10), RandInt(v, 20), m)
    else if kind == 1 then SquareProblem(RandInt(u, 5), m)
    else SequenceProblem(RandInt(u, 5), RandInt(v, 3) + 1, m)
  }

  /** "Solve for x: num1 x + b = num1 * x + b", with x in 1..10 and b in 1..20. */
  function LinearProblem(num1: nat, x: nat, b: nat, m: nat): (p: Problem)
    requires Between(num1, 1, 10 * m) && Between(x, 1, 10) && Between(b, 1, 20)
    ensures WellFormed(p, m) && p.statement.Linear?
  {
    WholeIsInteger(x);
    Problem(Linear(num1, b, num1 * x + b), x as real)
  }

  /** "Find x: x² = x * x", with x in 1..5. */
  function SquareProblem(x: nat, m: nat): (p: Problem)
    requires Between(x, 1, 5)
    ensures WellFormed(p, m) && p.statement.SquareOf?
  {
    WholeIsInteger(x);
    Problem(SquareOf(x * x), x as real)
  }

  /** Four terms of the sequence from `start` with step `diff`; the fifth is expected. */
  function SequenceProblem(start: nat, diff: nat, m: nat): (p: Problem)
    requires Between(start, 1, 5) && Between(diff, 2, 4)
    ensures WellFormed(p, m) && p.statement.Progression?
  {
    WholeIsInteger(start + 4 * diff);
    Problem(Progression(start, start + diff, start + 2 * diff, start + 3 * diff), (start + 4 * diff) as real)
  }

  /** The shape records the geometry branch builds before picking one. */
  datatype Shape =
    | Rectangle(w: nat, h: nat)
    | Square(side: nat)
    | Circle(radius: nat)
    | Triangle(base: nat, height: nat)
    | Cube(side: nat)

  /** The five shapes; with both operands at least 1 none of them has a zero dimension. */
  function Shapes(num1: nat, num2: nat): (r: seq<Shape>)
    ensures |r| == 5
    ensures num1 >= 1 && num2 >= 1 ==> forall k :: 0 <= k < |r| ==> !HasZeroDimension(r[k])
  {
    [Rectangle(num1, num2), Square(num1), Circle(num1), Triangle(num1, num2), Cube(num1)]
  }

  predicate HasZeroDimension(s: Shape)
  {
    match s
    case Rectangle(w, h) => w == 0 || h == 0
    case Square(side) => side == 0
    case Circle(r) => r == 0
    case Triangle(b, h) => b == 0 || h == 0
    case Cube(side) => side == 0
  }

  /** Every dimension of the shape lies in 1..10m. */
  predicate ShapeInRange(s: Shape, m: nat)
  {
    match s
    case Rectangle(w, h) => Between(w, 1, 10 * m) && Between(h, 1, 10 * m)
    case Square(side) => Between(side, 1, 10 * m)
    case Circle(r) => Between(r, 1, 10 * m)
    case Triangle(b, h) => Between(b, 1, 10 * m) && Between(h, 1, 10 * m)
    case Cube(side) => Between(side, 1, 10 * m)
  }

  /**
   * The per-shape formula behind the source's guard against a missing
   * (falsy) dimension: the guard fires exactly on a zero dimension.
   */
  function GeometryProblem(s: Shape, ghost m: nat): (p: Option<Problem>)
    ensures p.None? <==> HasZeroDimension(s)
    ensures p.Some? ==> TopicOf(p.value.statement) == "Geometry"
    ensures p.Some? && ShapeInRange(s, m) ==> WellFormed(p.value, m)
  {
    match s
    case Rectangle(w, h) =>
      if w == 0 || h == 0 then None
      else
        ProductAtLeastOne(w, h);
        WholeIsInteger(w * h);
        Some(Problem(RectangleArea(w, h), (w * h) as real))
    case Square(side) =>
      if side == 0 then None
      else
        WholeIsInteger(side * 4);
        Some(Problem(SquarePerimeter(side), (side * 4) as real))
    case Circle(r) =>
      if r == 0 then None
      else
        WholeIsInteger(2 * 3 * r);
        Some(Problem(CircleCircumference(r), (2 * 3 * r) as real))
    case Triangle(b, h) =>
      if b == 0 || h == 0 then None
      else
        ProductAtLeastOne(b, h);
        WholeIsInteger(b * h);
        Some(Problem(TriangleArea(b, h), (b * h) as real / 2.0))
    case Cube(side) =>
      if side == 0 then None
      else
        ProductAtLeastOne(side, side);
        ProductAtLeastOne(side * side, side);
        WholeIsInteger(side * side * side);
        Some(Problem(CubeVolume(side), (side * side * side) as real))
  }

  /**
   * `generateProblem(topic)` under difficulty `d`. Only a name outside the
   * six topics yields no problem, so the geometry guards never fire; any
   * problem generated is well formed and belongs to the topic asked for.
   */
  function GenerateProblem(topic: string, d: Difficulty, r: Rolls): (p: Option<Problem>)
    requires ValidRolls(r)
    ensures p.None? <==> !IsKnownTopic(topic)
    ensures p.Some? ==> WellFormed(p.value, Multiplier(d)) && TopicOf(p.value.statement) == topic
  {
    var m := Multiplier(d);
    var num1 := RandInt(r.first, 10 * m);
    var num2 := RandInt(r.second, 10 * m);
    if topic in ["Addition", "Subtraction", "Multiplication", "Division"] then
      Some(ArithmeticProblem(topic, num1, num2, m))
    else if topic == "Algebra" then
      Some(AlgebraProblem(num1, RandIndex(r.pick, 3), r.u, r.v, m))
    else if topic == "Geometry" then
      var shape := Shapes(num1, num2)[RandIndex(r.pick, 5)];
      assert ShapeInRange(shape, m);
      GeometryProblem(shape, m)
    else
      None
  }

  /**
   * A division question's dividend leaves no remainder, and the integer
   * quotient is the expected answer.
   */
  lemma DivisionIsExact(p: Problem)
    requires p.statement.Quotient? && Solves(p.statement, p.answer)
    ensures p.statement.dividend % p.statement.divisor == 0
    ensures p.statement.dividend / p.statement.divisor == p.answer.Floor
  {
    var d, k := p.statement.divisor, p.answer.Floor;
    ExactQuotient(k * d, d, k);
  }

  /** Euclidean division of `k * d` by `d` gives `k` with no remainder. */
  lemma ExactQuotient(n: int, d: int, k: int)
    requires d > 0 && n == k * d
    ensures n % d == 0 && n / d == k
  {
    var q, r := n / d, n % d;
    assert n == q * d + r && 0 <= r < d;
    Distribute(k, q, d);
    if k > q {
      AtLeastMultiplier(k - q, d);
    } else if k < q {
      AtLeastMultiplier(q - k, d);
    }
  }

  lemma Distribute(a: int, b: int, d: int)
    ensures a * d - b * d == (a - b) * d
  {
  }

  lemma AtLeastMultiplier(t: int, d: int)
    requires t >= 1 && d > 0
    ensures t * d >= d
  {
  }

  /** The question text the page shows for `q`. */
  function Text(q: Question): (text: string)
  {
    match q
    case Sum(a, b) => NatToString(a) + " + " + NatToString(b) + " = ?"
    case Difference(total, s) => NatToString(total) + " - " + NatToString(s) + " = ?"
    case Product(a, b) => NatToString(a) + " \U{D7} " + NatToString(b) + " = ?"
    case Quotient(dividend, divisor) => NatToString(dividend) + " \U{F7} " + NatToString(divisor) + " = ?"
    case Linear(c, b, rhs) =>
      "Solve for x: " + NatToString(c) + "x + " + NatToString(b) + " = " + NatToString(rhs)
    case SquareOf(k) => "Find x: x\U{B2} = " + NatToString(k)
    case Progression(t0, t1, t2, t3) =>
      "What comes next: " + NatToString(t0) + ", " + NatToString(t1) + ", " + NatToString(t2) + ", "
      + NatToString(t3) + ", ?"
    case RectangleArea(w, h) =>
      "Find the area of a rectangle with width " + NatToString(w) + " and height " + NatToString(h)
    case SquarePerimeter(side) => "Find the perimeter of a square with side length " + NatToString(side)
    case CircleCircumference(r) =>
      "Find the approximate circumference of a circle with radius " + NatToString(r) + " (use 3 for \U{3C0})"
    case TriangleArea(b, h) =>
      "Find the area of a triangle with base " + NatToString(b) + " and height " + NatToString(h)
    case CubeVolume(side) => "Find the volume of a cube with side length " + NatToString(side)
  }

  /** Two numbers joined by an operator that starts with a non-digit, as the arithmetic questions show them. */
  lemma BinaryTextUnique(a: nat, b: nat, c: nat, d: nat, op: string)
    requires op != [] && !IsDigit(op[0])
    requires NatToString(a) + op + NatToString(b) + " = ?" == NatToString(c) + op + NatToString(d) + " = ?"
    ensures a == c && b == d
  {
    var na, nb, nc, nd := NatToString(a), NatToString(b), NatToString(c), NatToString(d);
    Regroup(na, op, nb, " = ?");
    Regroup(nc, op, nd, " = ?");
    assert (op + (nb + " = ?"))[0] == op[0] && (op + (nd + " = ?"))[0] == op[0];
    NumeralPrefixUnique(a, op + (nb + " = ?"), c, op + (nd + " = ?"));
    DropCommonPrefix(op, nb + " = ?", nd + " = ?");
    NumeralPrefixUnique(b, " = ?", d, " = ?");
  }

  lemma Regroup(w: string, x: string, y: string, z: string)
    ensures w + x + y + z == w + (x + (y + z))
  {
  }

  lemma DropCommonPrefix(p: string, s: string, t: string)
    requires p + s == p + t
    ensures s == t
  {
    assert s == (p + s)[|p|..];
  }

  /** An arithmetic question's text determines the question: the player sees both operands. */
  lemma ArithmeticTextShowsOperands(q1: Question, q2: Question)
    requires q1.Sum? || q1.Difference? || q1.Product? || q1.Quotient?
    requires q2.Sum? || q2.Difference? || q2.Product? || q2.Quotient?
    requires TopicOf(q1) == TopicOf(q2) && Text(q1) == Text(q2)
    ensures q1 == q2
  {
    match q1
    case Sum(a, b) => BinaryTextUnique(a, b, q2.a, q2.b, " + ");
    case Difference(a, b) => BinaryTextUnique(a, b, q2.total, q2.subtrahend, " - ");
    case Product(a, b) => BinaryTextUnique(a, b, q2.a, q2.b, " \U{D7} ");
    case Quotient(a, b) => BinaryTextUnique(a, b, q2.dividend, q2.divisor, " \U{F7} ");
  }

  /** Addition on normal difficulty with operands 3 and 4 shows "3 + 4 = ?" and expects 7. */
  lemma AdditionScenario()
    ensures GenerateProblem("Addition", Normal, Rolls(0.1, 0.15, 0.0, 0.0, 0.0)) == Some(Problem(Sum(3, 4), 7.0))
    ensures Text(Sum(3, 4)) == "3 + 4 = ?"
  {
    assert RandInt(0.1, 20) == 3;
    assert RandInt(0.15, 20) == 4;
  }

  /** A triangle with base 1 and height 1 expects 0.5: not every answer is an integer. */
  lemma TriangleAnswerCanBeFractional()
    ensures GenerateProblem("Geometry", Easy, Rolls(0.0, 0.0, 0.6, 0.0, 0.0)) == Some(Problem(TriangleArea(1, 1), 0.5))
    ensures !IsInteger(0.5)
  {
    assert RandIndex(0.6, 5) == 3;
  }
}
