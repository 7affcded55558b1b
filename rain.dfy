/**
 * The falling-digit background: a pool of digit records laid out in
 * columns 20 px apart, 8 per column, advanced once per display frame at
 * most every 16 ms, and recycled at the top of their column once they
 * fall past the bottom of the window. Every `Math.random()` draw is passed
 * in; the window size and the frame timestamp are parameters.
 */
module Rain {
  import opened Numbers

  datatype Digit = Digit(id: real, x: int, y: real, speed: real, bright: bool, value: int)

  /** The draws `createDigit` makes, in the order it makes them. */
  datatype DigitRolls = DigitRolls(id: real, y: real, speed: real, bright: real, value: real)

  predicate ValidDigitRolls(r: DigitRolls)
  {
    Unit(r.id) && Unit(r.y) && Unit(r.speed) && Unit(r.bright) && Unit(r.value)
  }

  /** The draws one frame makes for one digit: a full respawn, or the shimmer test and its new value. */
  datatype FrameRolls = FrameRolls(spawn: DigitRolls, shimmer: real, value: real)

  predicate ValidFrameRolls(r: FrameRolls)
  {
    ValidDigitRolls(r.spawn) && Unit(r.shimmer) && Unit(r.value)
  }

  predicate AllValidDigitRolls(rolls: seq<DigitRolls>)
  {
    forall k :: 0 <= k < |rolls| ==> ValidDigitRolls(rolls[k])
  }

  predicate AllValidFrameRolls(rolls: seq<FrameRolls>)
  {
    forall k :: 0 <= k < |rolls| ==> ValidFrameRolls(rolls[k])
  }

  const ColumnWidth: nat := 20
  const PerColumn: nat := 8
  const FrameGate: real := 16.0

  /** What every newly spawned digit satisfies: above the screen, speed in [3, 8), a digit 0..9. */
  predicate Spawned(d: Digit)
  {
    -100.0 < d.y <= 0.0 && 3.0 <= d.speed < 8.0 && 0 <= d.value <= 9
  }

  /** `createDigit(x)`. */
  function CreateDigit(x: real, r: DigitRolls): (d: Digit)
    requires ValidDigitRolls(r)
    ensures d.id == r.id
    ensures x - 0.5 < d.x as real <= x + 0.5
    ensures Spawned(d)
    ensures d.bright <==> r.bright > 0.8
  {
    Digit(r.id, Round(x), r.y * -100.0, 3.0 + r.speed * 5.0, r.bright > 0.8, RandIndex(r.value, 10))
  }

  /** The number of columns for a window `width` pixels wide. */
  function Columns(width: nat): (n: nat)
    ensures n * ColumnWidth <= width < (n + 1) * ColumnWidth
  {
    width / ColumnWidth
  }

  /** The pool `initDigits` builds: digit k sits in column k / 8. */
  function Grid(width: nat, rolls: seq<DigitRolls>): (g: seq<Digit>)
    requires |rolls| == Columns(width) * PerColumn && AllValidDigitRolls(rolls)
    ensures |g| == Columns(width) * PerColumn
    ensures forall k :: 0 <= k < |g| ==> g[k].x == ColumnWidth * (k / PerColumn)
    ensures forall k :: 0 <= k < |g| ==> Spawned(g[k]) && g[k].id == rolls[k].id
  {
    seq(|rolls|, k requires 0 <= k < |rolls| => Spawn(k, rolls[k]))
  }

  /** The `k`-th digit pushed: `createDigit(i * 20)` for column i = k / 8. */
  function Spawn(k: nat, r: DigitRolls): (d: Digit)
    requires ValidDigitRolls(r)
    ensures d.x == ColumnWidth * (k / PerColumn) && Spawned(d) && d.id == r.id
  {
    RoundIntegral(ColumnWidth * (k / PerColumn));
    CreateDigit((ColumnWidth * (k / PerColumn)) as real, r)
  }

  /** The eight digits at indices 8i..8i+7 all stand in column i, at x = 20i. */
  lemma GridColumns(width: nat, rolls: seq<DigitRolls>, i: nat, j: nat)
    requires |rolls| == Columns(width) * PerColumn && AllValidDigitRolls(rolls)
    requires i < Columns(width) && j < PerColumn
    ensures PerColumn * i + j < |Grid(width, rolls)|
    ensures Grid(width, rolls)[PerColumn * i + j].x == ColumnWidth * i
  {
    var k := PerColumn * i + j;
    assert k / PerColumn == i;
  }

  /** Where a digit would be after `dt` ms: speed is in pixels per 16 ms. */
  function Fallen(d: Digit, dt: real): (y: real)
    ensures d.speed >= 0.0 && dt >= 0.0 ==> y >= d.y
  {
    d.y + d.speed * dt / FrameGate
  }

  /**
   * One digit's update in an eligible frame: past the bottom it restarts
   * as a fresh digit of the same column with the same id; otherwise it
   * falls, keeps speed and brightness, and now and then shows a new value.
   */
  function StepDigit(d: Digit, dt: real, height: int, r: FrameRolls): (e: Digit)
    requires ValidFrameRolls(r)
    ensures e.id == d.id && e.x == d.x
    ensures Fallen(d, dt) > height as real ==> Spawned(e)
    ensures Fallen(d, dt) <= height as real ==>
      && e.y == Fallen(d, dt) && e.speed == d.speed && e.bright == d.bright
      && (e.value == d.value || 0 <= e.value <= 9)
    ensures Fallen(d, dt) <= height as real && e.value != d.value ==> r.shimmer > 0.95
    ensures Fallen(d, dt) <= height as real && d.speed >= 0.0 && dt >= 0.0 ==> e.y >= d.y
  {
    var newY := Fallen(d, dt);
    if newY > height as real then
      RoundIntegral(d.x);
      CreateDigit(d.x as real, r.spawn).(id := d.id)
    else
      d.(y := newY, value := if r.shimmer > 0.95 then RandIndex(r.value, 10) else d.value)
  }

  /** The `digits.map` of an eligible frame. */
  function Frame(ds: seq<Digit>, dt: real, height: int, rolls: seq<FrameRolls>): (es: seq<Digit>)
    requires |rolls| == |ds| && AllValidFrameRolls(rolls)
    ensures |es| == |ds|
    ensures forall k :: 0 <= k < |ds| ==> es[k].id == ds[k].id && es[k].x == ds[k].x
  {
    seq(|ds|, k requires 0 <= k < |ds| => StepDigit(ds[k], dt, height, rolls[k]))
  }

  /** Digit `k` of a well-formed pool: in column k / 8, below y = -100, speed and value in range. */
  predicate InPlace(d: Digit, k: nat)
  {
    d.x == ColumnWidth * (k / PerColumn) && -100.0 < d.y && 3.0 <= d.speed < 8.0 && 0 <= d.value <= 9
  }

  /** An eligible frame keeps every digit in place: columns fixed, y never decreasing below its start. */
  lemma StepKeepsInPlace(d: Digit, k: nat, dt: real, height: int, r: FrameRolls)
    requires ValidFrameRolls(r) && InPlace(d, k) && dt >= FrameGate
    ensures InPlace(StepDigit(d, dt, height, r), k)
  {
  }

  /** `initDigits()`: nested loops pushing 8 digits per column, column by column. */
  method InitDigits(width: nat, rolls: seq<DigitRolls>) returns (a: array<Digit>)
    requires |rolls| == Columns(width) * PerColumn && AllValidDigitRolls(rolls)
    ensures fresh(a) && a[..] == Grid(width, rolls)
  {
    var numColumns := width / ColumnWidth;
    a := new Digit[numColumns * PerColumn];
    ghost var g := Grid(width, rolls);
    var n := 0;
    for i := 0 to numColumns
      invariant n == PerColumn * i
      invariant forall k :: 0 <= k < n ==> a[k] == g[k]
    {
      for j := 0 to PerColumn
        invariant n == PerColumn * i + j
        invariant forall k :: 0 <= k < n ==> a[k] == g[k]
      {
        assert n / PerColumn == i;
        a[n] := CreateDigit((i * ColumnWidth) as real, rolls[n]);
        RoundIntegral(i * ColumnWidth);
        n := n + 1;
      }
    }
  }

  class RainPool {
    var digits: array<Digit>
    var lastTime: real

    ghost predicate Valid()
      reads this, digits
    {
      digits.Length % PerColumn == 0 && forall k :: 0 <= k < digits.Length ==> InPlace(digits[k], k)
    }

    /** The effect's set-up: the first pool, and no frame seen yet. */
    constructor (width: nat, rolls: seq<DigitRolls>)
      requires |rolls| == Columns(width) * PerColumn && AllValidDigitRolls(rolls)
      ensures Valid() && fresh(digits) && digits[..] == Grid(width, rolls) && lastTime == 0.0
    {
      var a := InitDigits(width, rolls);
      digits := a;
      lastTime := 0.0;
    }

    /**
     * `animate(currentTime)`: the first call only records the time; a frame
     * less than 16 ms after the last processed one changes nothing; an
     * eligible frame steps every digit and records its time.
     */
    method Animate(currentTime: real, height: int, rolls: seq<FrameRolls>)
      requires Valid() && |rolls| == digits.Length && AllValidFrameRolls(rolls)
      modifies this, digits
      ensures Valid() && digits == old(digits)
      ensures var last := if old(lastTime) == 0.0 then currentTime else old(lastTime);
        var dt := currentTime - last;
        if dt >= FrameGate then digits[..] == Frame(old(digits[..]), dt, height, rolls) && lastTime == currentTime
        else digits[..] == old(digits[..]) && lastTime == last
    {
      if lastTime == 0.0 {
        lastTime := currentTime;
      }
      var deltaTime := currentTime - lastTime;
      if deltaTime >= FrameGate {
        ghost var before := digits[..];
        var i := 0;
        while i < digits.Length
          invariant digits == old(digits) && deltaTime == currentTime - lastTime
          invariant 0 <= i <= digits.Length && |before| == digits.Length
          invariant forall k :: 0 <= k < i ==> digits[k] == StepDigit(before[k], deltaTime, height, rolls[k])
          invariant forall k :: i <= k < digits.Length ==> digits[k] == before[k]
          invariant forall k :: 0 <= k < digits.Length ==> InPlace(digits[k], k)
        {
          StepKeepsInPlace(digits[i], i, deltaTime, height, rolls[i]);
          digits[i] := StepDigit(digits[i], deltaTime, height, rolls[i]);
          i := i + 1;
        }
        lastTime := currentTime;
      }
    }

    /** `handleResize`: the whole pool is rebuilt for the new width. */
    method Resize(width: nat, rolls: seq<DigitRolls>)
      requires |rolls| == Columns(width) * PerColumn && AllValidDigitRolls(rolls)
      modifies this
      ensures Valid() && fresh(digits) && digits[..] == Grid(width, rolls) && lastTime == old(lastTime)
    {
      digits := InitDigits(width, rolls);
    }
  }
}
