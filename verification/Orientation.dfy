/**
  sc_orientation_apply() of src/util/options.cpp against what an orientation does to an image: a
  horizontal flip if bit 2 is set, then as many quarter turns as the two low bits say.
 */
module Orientation {

  type Orientation = o: bv8 | o < 8

  function Apply(src: Orientation, transform: Orientation): Orientation {
    var transformHflip := transform & 4;
    var transformRotation := transform & 3;
    var srcHflip := src & 4;
    var srcRotation := if (src & 1) != 0 && transformHflip != 0 then (src & 3) + 2 else src & 3;
    (srcHflip ^ transformHflip) | ((transformRotation + srcRotation) % 4)
  }

  // ----- images

  /** Rows of pixels; an image without rows still has a width. */
  datatype Image<T> = Image(width: nat, height: nat, rows: seq<seq<T>>) {
    ghost predicate Valid() {
      |rows| == height && forall y :: 0 <= y < height ==> |rows[y]| == width
    }

    function At(x: nat, y: nat): T
      requires Valid() && x < width && y < height
    {
      rows[y][x]
    }
  }

  /** A quarter turn clockwise. */
  function Turn<T>(i: Image<T>): (r: Image<T>)
    requires i.Valid()
    ensures r.Valid() && r.width == i.height && r.height == i.width
    ensures forall x, y :: 0 <= x < r.width && 0 <= y < r.height ==> r.At(x, y) == i.At(y, i.height - 1 - x)
  {
    Image(i.height, i.width,
      seq(i.width, y requires 0 <= y < i.width =>
        seq(i.height, x requires 0 <= x < i.height => i.At(y, i.height - 1 - x))))
  }

  function Flip<T>(i: Image<T>): (r: Image<T>)
    requires i.Valid()
    ensures r.Valid() && r.width == i.width && r.height == i.height
    ensures forall x, y :: 0 <= x < r.width && 0 <= y < r.height ==> r.At(x, y) == i.At(i.width - 1 - x, y)
  {
    Image(i.width, i.height,
      seq(i.height, y requires 0 <= y < i.height =>
        seq(i.width, x requires 0 <= x < i.width => i.At(i.width - 1 - x, y))))
  }

  function Turns<T>(n: nat, i: Image<T>): (r: Image<T>)
    requires i.Valid()
    ensures r.Valid()
  {
    if n == 0 then i else Turn(Turns(n - 1, i))
  }

  function Hflip(o: Orientation): bool {
    o & 4 != 0
  }

  function Rotation(o: Orientation): nat {
    if o & 3 == 0 then 0 else if o & 3 == 1 then 1 else if o & 3 == 2 then 2 else 3
  }

  function Transform<T>(o: Orientation, i: Image<T>): (r: Image<T>)
    requires i.Valid()
    ensures r.Valid()
  {
    Turns(Rotation(o), if Hflip(o) then Flip(i) else i)
  }

  // ----- the laws of turns and flips

  lemma SameImage<T>(a: Image<T>, b: Image<T>)
    requires a.Valid() && b.Valid() && a.width == b.width && a.height == b.height
    requires forall x, y :: 0 <= x < a.width && 0 <= y < a.height ==> a.At(x, y) == b.At(x, y)
    ensures a == b
  {
    forall y | 0 <= y < a.height ensures a.rows[y] == b.rows[y] {
      forall x | 0 <= x < a.width ensures a.rows[y][x] == b.rows[y][x] {
        assert a.At(x, y) == b.At(x, y);
      }
    }
  }

  lemma FlipTwice<T>(i: Image<T>)
    requires i.Valid()
    ensures Flip(Flip(i)) == i
  {
    SameImage(Flip(Flip(i)), i);
  }

  lemma TurnTwice<T>(i: Image<T>)
    requires i.Valid()
    ensures var r := Turn(Turn(i));
      r.width == i.width && r.height == i.height &&
      forall x, y :: 0 <= x < i.width && 0 <= y < i.height ==> r.At(x, y) == i.At(i.width - 1 - x, i.height - 1 - y)
  {
  }

  lemma FourTurns<T>(i: Image<T>)
    requires i.Valid()
    ensures Turn(Turn(Turn(Turn(i)))) == i
  {
    TurnTwice(i);
    TurnTwice(Turn(Turn(i)));
    SameImage(Turn(Turn(Turn(Turn(i)))), i);
  }

  /** A flip after a quarter turn is a flip before a turn the other way. */
  lemma FlipAfterTurn<T>(i: Image<T>)
    requires i.Valid()
    ensures Flip(Turn(i)) == Turn(Turn(Turn(Flip(i))))
  {
    TurnTwice(Turn(Flip(i)));
    SameImage(Flip(Turn(i)), Turn(Turn(Turn(Flip(i)))));
  }

  lemma {:induction false} TurnsAdd<T>(m: nat, n: nat, i: Image<T>)
    requires i.Valid()
    ensures Turns(m, Turns(n, i)) == Turns(m + n, i)
    decreases m
  {
    if m > 0 {
      TurnsAdd(m - 1, n, i);
    }
  }

  lemma {:induction false} TurnsModFour<T>(n: nat, i: Image<T>)
    requires i.Valid()
    ensures Turns(n, i) == Turns(n % 4, i)
    decreases n
  {
    if n >= 4 {
      TurnsAdd(4, n - 4, i);
      var r := Turns(n - 4, i);
      assert Turns(2, r) == Turn(Turns(1, r)) == Turn(Turn(r));
      assert Turns(4, r) == Turn(Turns(3, r)) == Turn(Turn(Turns(2, r)));
      FourTurns(r);
      TurnsModFour(n - 4, i);
    }
  }

  lemma {:induction false} FlipAfterTurns<T>(n: nat, i: Image<T>)
    requires i.Valid()
    ensures Flip(Turns(n, i)) == Turns(3 * n, Flip(i))
    decreases n
  {
    if n > 0 {
      FlipAfterTurn(Turns(n - 1, i));
      FlipAfterTurns(n - 1, i);
      var r := Turns(3 * (n - 1), Flip(i));
      assert Turns(3, r) == Turn(Turns(2, r)) == Turn(Turn(Turns(1, r))) == Turn(Turn(Turn(r)));
      TurnsAdd(3, 3 * (n - 1), Flip(i));
    }
  }

  // ----- the group

  lemma ApplyParts(a: Orientation, b: Orientation)
    ensures Hflip(Apply(a, b)) == (Hflip(a) != Hflip(b))
    ensures Rotation(Apply(a, b)) == (Rotation(b) + (if Hflip(b) then 3 * Rotation(a) else Rotation(a))) % 4
  {
  }

  /** Applying the result is applying one after the other, to images of any size. */
  lemma ApplyComposes<T>(a: Orientation, b: Orientation, i: Image<T>)
    requires i.Valid()
    ensures Transform(Apply(a, b), i) == Transform(b, Transform(a, i))
  {
    var start := if Hflip(a) then Flip(i) else i;
    var ra, rb := Rotation(a), Rotation(b);
    ApplyParts(a, b);
    if Hflip(b) {
      FlipAfterTurns(ra, start);
      FlipTwice(i);
      TurnsAdd(rb, 3 * ra, Flip(start));
      TurnsModFour(rb + 3 * ra, Flip(start));
    } else {
      TurnsAdd(rb, ra, start);
      TurnsModFour(rb + ra, start);
    }
  }

  function ApplyAll(os: seq<Orientation>): Orientation {
    if os == [] then 0 else Apply(ApplyAll(os[..|os| - 1]), os[|os| - 1])
  }

  function TransformAll<T>(os: seq<Orientation>, i: Image<T>): (r: Image<T>)
    requires i.Valid()
    ensures r.Valid()
  {
    if os == [] then i else Transform(os[|os| - 1], TransformAll(os[..|os| - 1], i))
  }

  /** Any list of transforms folds to one orientation with the same effect. */
  lemma {:induction false} FoldHasSameEffect<T>(os: seq<Orientation>, i: Image<T>)
    requires i.Valid()
    ensures Transform(ApplyAll(os), i) == TransformAll(os, i)
    decreases |os|
  {
    if os != [] {
      FoldHasSameEffect(os[..|os| - 1], i);
      ApplyComposes(ApplyAll(os[..|os| - 1]), os[|os| - 1], i);
    }
  }

  function Inverse(o: Orientation): Orientation {
    if Hflip(o) then o else (4 - (o & 3)) & 3
  }

  lemma Group(a: Orientation, b: Orientation, c: Orientation)
    ensures Apply(a, Apply(b, c)) == Apply(Apply(a, b), c)
    ensures Apply(a, 0) == a && Apply(0, a) == a
    ensures Apply(a, Inverse(a)) == 0 && Apply(Inverse(a), a) == 0
  {
  }

  /** The upper two pixels of a turned 2 by 2 image. */
  lemma TopOfSquare<T>(n: nat, i: Image<T>)
    requires i.Valid() && i.width == 2 && i.height == 2 && n < 4
    ensures var r := Turns(n, i);
      r.width == 2 && r.height == 2 &&
      (r.At(0, 0), r.At(1, 0)) ==
        if n == 0 then (i.At(0, 0), i.At(1, 0))
        else if n == 1 then (i.At(0, 1), i.At(0, 0))
        else if n == 2 then (i.At(1, 1), i.At(0, 1))
        else (i.At(1, 0), i.At(1, 1))
  {
    assert Turns(1, i) == Turn(i) && Turns(2, i) == Turn(Turn(i)) && Turns(3, i) == Turn(Turn(Turn(i)));
    TurnTwice(i);
  }

  const WITNESS: Image<int> := Image(2, 2, [[0, 1], [2, 3]])

  /** The upper two pixels of the witness, flipped or not, after n quarter turns. */
  function Top(flip: bool, n: nat): (int, int)
    requires n < 4
  {
    if flip
    then if n == 0 then (1, 0) else if n == 1 then (3, 1) else if n == 2 then (2, 3) else (0, 2)
    else if n == 0 then (0, 1) else if n == 1 then (2, 0) else if n == 2 then (3, 2) else (1, 3)
  }

  lemma FlippedWitness()
    ensures var f := Flip(WITNESS); f.At(0, 0) == 1 && f.At(1, 0) == 0 && f.At(0, 1) == 3 && f.At(1, 1) == 2
  {
    assert WITNESS.rows[0] == [0, 1] && WITNESS.rows[1] == [2, 3];
    assert WITNESS.At(1, 0) == 1 && WITNESS.At(0, 0) == 0 && WITNESS.At(1, 1) == 3 && WITNESS.At(0, 1) == 2;
  }

  lemma TopOfTransformed(o: Orientation)
    ensures var r := Transform(o, WITNESS);
      r.width == 2 && r.height == 2 && (r.At(0, 0), r.At(1, 0)) == Top(Hflip(o), Rotation(o))
  {
    if Hflip(o) {
      FlippedWitness();
      TopOfSquare(Rotation(o), Flip(WITNESS));
    } else {
      TopOfSquare(Rotation(o), WITNESS);
    }
  }

  lemma PartsDetermine(a: Orientation, b: Orientation)
    requires Hflip(a) == Hflip(b) && Rotation(a) == Rotation(b)
    ensures a == b
  {
  }

  /** No two orientations do the same to an image of four colours, so the orientation of an effect is unique. */
  lemma EffectDetermines(a: Orientation, b: Orientation)
    requires Transform(a, WITNESS) == Transform(b, WITNESS)
    ensures a == b
  {
    TopOfTransformed(a);
    TopOfTransformed(b);
    assert Top(Hflip(a), Rotation(a)) == Top(Hflip(b), Rotation(b));
    PartsDetermine(a, b);
  }
}
