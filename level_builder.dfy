/**
 Background tile recycling (Assets/Runtime/Level/LevelBuilder.cs).

 The two side walls and the background are columns of tiles kept in queues.
 When the camera has risen past the lowest tile, that tile is lifted above the
 others and moved to the back of its queue; on restart every tile is put back
 in a stack starting at 0. Tiles are identities; `y` maps each to its local
 height in tile units, a wall tile being WallObjectDimension (1.4) high and a
 background tile BgObjectDimension (12.8). The right wall and the background
 each keep their lowest tile outside the queue, in `firstWall` and `firstBg`.
 */
module LevelBuilding {

  /** The chickens' starting height, in world units. */
  const TopYPozChickens: int := 12

  /** How far the chickens rise at each update, in world units. */
  const ChickensStep: int := 20

  datatype Column = LeftWall | RightWall | Backdrop

  /** One wall or background GameObject: its column and creation index. */
  datatype Tile = Tile(column: Column, index: nat)

  /** `s` turned `k` places: the first `k` elements move to the back, in order. */
  function Rotated<T>(s: seq<T>, k: nat): seq<T>
    requires k <= |s|
  {
    s[k..] + s[..k]
  }

  /** No tile appears twice. */
  ghost predicate Distinct<T>(s: seq<T>)
  {
    forall i, j :: 0 <= i < j < |s| ==> s[i] != s[j]
  }

  /** The tiles of `order` form a stack from `base` up, one tile apart, in queue order. */
  ghost predicate Stacked(order: seq<Tile>, y: map<Tile, real>, base: real)
  {
    forall k :: 0 <= k < |order| ==> order[k] in y && y[order[k]] == base + k as real
  }

  /** The lowest tile of `order` lifted by as many tile heights as the column has tiles. */
  function Lift(order: seq<Tile>, y: map<Tile, real>): map<Tile, real>
    requires |order| > 0 && order[0] in y
  {
    y[order[0] := y[order[0]] + |order| as real]
  }

  /** Turning a sequence keeps its length, its elements and its distinctness. */
  lemma RotatedFacts<T>(s: seq<T>, k: nat)
    requires k <= |s|
    ensures |Rotated(s, k)| == |s|
    ensures forall x :: x in Rotated(s, k) <==> x in s
    ensures Distinct(s) ==> Distinct(Rotated(s, k))
  {
    var r := Rotated(s, k);
    assert forall i :: 0 <= i < |s| ==> r[i] == (if i < |s| - k then s[i + k] else s[i + k - |s|]);
    if Distinct(s) {
      forall i, j | 0 <= i < j < |r| ensures r[i] != r[j] {
        var i' := if i < |s| - k then i + k else i + k - |s|;
        var j' := if j < |s| - k then j + k else j + k - |s|;
        assert r[i] == s[i'] && r[j] == s[j'] && i' != j';
      }
    }
  }

  /** Turning one more place moves the current head to the back; a full turn is no turn. */
  lemma RotateStep<T>(s: seq<T>, k: nat)
    requires k < |s|
    ensures Rotated(s, k)[0] == s[k]
    ensures Rotated(Rotated(s, k), 1) == Rotated(s, k + 1)
  {
    var r, r' := Rotated(s, k), Rotated(s, k + 1);
    assert |Rotated(r, 1)| == |r'|;
    forall i | 0 <= i < |r'| ensures Rotated(r, 1)[i] == r'[i] {
    }
  }

  /** A full turn leaves a sequence as it was. */
  lemma FullTurn<T>(s: seq<T>)
    ensures Rotated(s, |s|) == s
  {
    assert s[|s|..] + s[..|s|] == s;
  }

  /**
   Lifting the lowest tile of a stack from `base` and moving it to the back
   gives a stack from `base + 1`: a column that was contiguous stays so.
   */
  lemma LiftKeepsStack(order: seq<Tile>, y: map<Tile, real>, base: real)
    requires |order| > 0 && Distinct(order) && Stacked(order, y, base)
    ensures Stacked(Rotated(order, 1), Lift(order, y), base + 1.0)
  {
    var r := Rotated(order, 1);
    var y' := Lift(order, y);
    forall k | 0 <= k < |r| ensures r[k] in y' && y'[r[k]] == base + 1.0 + k as real {
      if k < |order| - 1 {
        assert r[k] == order[k + 1];
        assert order[k + 1] != order[0];
      } else {
        assert r[k] == order[0];
      }
    }
  }

  /** Heights after giving the first `n` tiles of `order` heights 0 to n - 1, one at a time. */
  function Restack(y: map<Tile, real>, order: seq<Tile>, n: nat): map<Tile, real>
    requires n <= |order|
  {
    if n == 0 then y else Restack(y, order, n - 1)[order[n - 1] := (n - 1) as real]
  }

  /** Heights after giving the first `n` tiles of both wall orders heights 0 to n - 1, pair by pair. */
  function RestackPair(y: map<Tile, real>, right: seq<Tile>, left: seq<Tile>, n: nat): map<Tile, real>
    requires n <= |right| && n <= |left|
  {
    if n == 0 then y else RestackPair(y, right, left, n - 1)[right[n - 1] := (n - 1) as real][left[n - 1] := (n - 1) as real]
  }

  /**
   Restacking a column of distinct tiles that all have heights stacks it from
   0 and touches no other tile's height.
   */
  lemma {:induction false} RestackFacts(y: map<Tile, real>, order: seq<Tile>, n: nat)
    requires n <= |order| && Distinct(order)
    requires forall t :: t in order ==> t in y
    ensures Restack(y, order, n).Keys == y.Keys
    ensures forall k :: 0 <= k < n ==> Restack(y, order, n)[order[k]] == k as real
    ensures forall t :: t in y && t !in order ==> Restack(y, order, n)[t] == y[t]
  {
    if n > 0 {
      RestackFacts(y, order, n - 1);
      assert order[n - 1] in order;
      forall k | 0 <= k < n - 1 ensures order[k] != order[n - 1] {
      }
    }
  }

  /**
   Restacking both walls pair by pair stacks each from 0, provided no tile is
   in both, and touches no other tile's height.
   */
  lemma {:induction false} RestackPairFacts(y: map<Tile, real>, right: seq<Tile>, left: seq<Tile>, n: nat)
    requires n <= |right| && n <= |left| && Distinct(right) && Distinct(left)
    requires forall t :: t in right ==> t in y && t !in left
    requires forall t :: t in left ==> t in y
    ensures RestackPair(y, right, left, n).Keys == y.Keys
    ensures forall k :: 0 <= k < n ==>
      RestackPair(y, right, left, n)[right[k]] == k as real && RestackPair(y, right, left, n)[left[k]] == k as real
    ensures forall t :: t in y && t !in right && t !in left ==> RestackPair(y, right, left, n)[t] == y[t]
  {
    if n > 0 {
      RestackPairFacts(y, right, left, n - 1);
      assert right[n - 1] in right && left[n - 1] in left;
      forall k | 0 <= k < n - 1 ensures right[k] != right[n - 1] && left[k] != left[n - 1] {
      }
      forall k | 0 <= k < n ensures right[k] != left[n - 1] {
        assert right[k] in right;
      }
    }
  }

  /** A stack stays a stack when none of its tiles' heights change. */
  lemma StackedFrame(order: seq<Tile>, y: map<Tile, real>, y': map<Tile, real>, base: real)
    requires Stacked(order, y, base)
    requires forall t :: t in order ==> t in y' && y'[t] == y[t]
    ensures Stacked(order, y', base)
  {
    forall k | 0 <= k < |order| ensures order[k] in y' && y'[order[k]] == base + k as real {
      assert order[k] in order;
    }
  }

  /**
   ConstructWall: `count` new tiles of one column, created bottom up
   `spacing` tile heights apart from 0, their heights added to `heights`.
   Wall tiles are one tile apart; background tiles are spaced by the
   screen's scale factor, which later lifts and resets do not use.
   */
  method ConstructWall(column: Column, count: nat, spacing: real, heights: map<Tile, real>)
    returns (objects: seq<Tile>, y: map<Tile, real>)
    requires forall t :: t in heights ==> t.column != column
    ensures |objects| == count && Distinct(objects)
    ensures forall k :: 0 <= k < count ==> objects[k] in y && y[objects[k]] == k as real * spacing
    ensures spacing == 1.0 ==> Stacked(objects, y, 0.0)
    ensures forall t :: t in objects ==> t.column == column
    ensures forall t :: t in y <==> t in heights || t in objects
    ensures forall t :: t in heights ==> y[t] == heights[t]
  {
    objects, y := [], heights;
    var nr := 0;
    while nr < count
      invariant 0 <= nr <= count && |objects| == nr
      invariant forall i :: 0 <= i < nr ==> objects[i] == Tile(column, i)
      invariant forall k :: 0 <= k < nr ==> objects[k] in y && y[objects[k]] == k as real * spacing
      invariant forall t :: t in y <==> t in heights || t in objects
      invariant forall t :: t in heights ==> y[t] == heights[t]
    {
      var wall := Tile(column, nr);
      y := y[wall := nr as real * spacing];
      objects := objects + [wall];
      nr := nr + 1;
    }
  }

  class LevelBuilder {
    /** `_firstWallObject`: the right wall's lowest tile, outside its queue. */
    var firstWall: Tile
    /** `_rightWallObjects`. */
    var rightWall: seq<Tile>
    /** `_leftWallObjects`. */
    var leftWall: seq<Tile>
    /** `_firstBgObject`: the lowest background tile, outside its queue. */
    var firstBg: Tile
    /** `_bgObjects`. */
    var bg: seq<Tile>
    /** Local height of every tile, in tile units. */
    var y: map<Tile, real>
    /** The chickens' height, in world units. */
    var chickensY: int
    /** The chickens' horizontal scale, whose sign is their facing. */
    var chickensScaleX: real

    /** The right wall from its lowest tile up. */
    function RightOrder(): seq<Tile>
      reads this
    {
      [firstWall] + rightWall
    }

    /** The background from its lowest tile up. */
    function BgOrder(): seq<Tile>
      reads this
    {
      [firstBg] + bg
    }

    /**
     Both walls have the same number of tiles, no tile is queued twice, each
     queue holds only its own column's tiles, and every tile has a height.
     */
    ghost predicate Valid()
      reads this
    {
      && |leftWall| == |rightWall| + 1
      && Distinct(RightOrder()) && Distinct(leftWall) && Distinct(BgOrder())
      && (forall t :: t in RightOrder() ==> t.column == RightWall && t in y)
      && (forall t :: t in leftWall ==> t.column == LeftWall && t in y)
      && (forall t :: t in BgOrder() ==> t.column == Backdrop && t in y)
    }

    /**
     ConstructLevel: both walls get `wallCount` tiles stacked from 0 and the
     background `bgCount` tiles spaced by its scale factor `bgScale`; one
     right-wall tile and one background tile are taken off their queues as
     the lowest ones, so the right-wall queue holds one tile less than the
     left. The background is a stack only when its scale factor is 1.
     */
    constructor (wallCount: nat, bgCount: nat, bgScale: real, chickensScale: real)
      requires wallCount >= 1 && bgCount >= 1 && bgScale >= 1.0
      ensures Valid()
      ensures |RightOrder()| == |leftWall| == wallCount && |rightWall| == wallCount - 1
      ensures |BgOrder()| == bgCount
      ensures Stacked(RightOrder(), y, 0.0) && Stacked(leftWall, y, 0.0)
      ensures forall k :: 0 <= k < bgCount ==> y[BgOrder()[k]] == k as real * bgScale
      ensures bgScale == 1.0 ==> Stacked(BgOrder(), y, 0.0)
      ensures chickensY == TopYPozChickens && chickensScaleX == chickensScale
    {
      var left, yLeft := ConstructWall(LeftWall, wallCount, 1.0, map[]);
      var right, yRight := ConstructWall(RightWall, wallCount, 1.0, yLeft);
      StackedFrame(left, yLeft, yRight, 0.0);
      var back, yAll := ConstructWall(Backdrop, bgCount, bgScale, yRight);
      StackedFrame(left, yRight, yAll, 0.0);
      StackedFrame(right, yRight, yAll, 0.0);
      leftWall := left;
      firstWall := right[0];
      rightWall := right[1..];
      firstBg := back[0];
      bg := back[1..];
      y := yAll;
      chickensY := TopYPozChickens;
      chickensScaleX := chickensScale;
      new;
      assert RightOrder() == right && BgOrder() == back;
    }

    /**
     The shared step of UpdateWallQueue and ResetWall: the right wall's lowest
     tile is placed at `rightHeight` and queued, the queue's head becoming the
     lowest; the left wall's head is placed at `leftHeight` and queued again.
     */
    method CycleWalls(rightHeight: real, leftHeight: real)
      requires Valid()
      modifies this`firstWall, this`rightWall, this`leftWall, this`y
      ensures Valid()
      ensures RightOrder() == Rotated(old(RightOrder()), 1)
      ensures leftWall == Rotated(old(leftWall), 1)
      ensures y == old(y)[old(firstWall) := rightHeight][old(leftWall[0]) := leftHeight]
    {
      ghost var right0, left0 := RightOrder(), leftWall;
      y := y[firstWall := rightHeight];
      rightWall := rightWall + [firstWall];
      firstWall := rightWall[0];
      rightWall := rightWall[1..];

      var leftObject := leftWall[0];
      leftWall := leftWall[1..];
      y := y[leftObject := leftHeight];
      leftWall := leftWall + [leftObject];

      assert RightOrder() == Rotated(right0, 1);
      RotatedFacts(right0, 1);
      RotatedFacts(left0, 1);
    }

    /** The shared step of UpdateBgQueue and ResetBg: the lowest background tile is placed at `height` and queued. */
    method CycleBg(height: real)
      requires Valid()
      modifies this`firstBg, this`bg, this`y
      ensures Valid()
      ensures BgOrder() == Rotated(old(BgOrder()), 1)
      ensures y == old(y)[old(firstBg) := height]
    {
      ghost var back0 := BgOrder();
      y := y[firstBg := height];
      bg := bg + [firstBg];
      firstBg := bg[0];
      bg := bg[1..];

      assert BgOrder() == Rotated(back0, 1);
      RotatedFacts(back0, 1);
    }

    /**
     UpdateWallQueue: the lowest tile of each wall is lifted by its column's
     tile count and moved to the back of its queue; a wall that was stacked
     stays stacked, one tile higher.
     */
    method UpdateWallQueue()
      requires Valid()
      modifies this`firstWall, this`rightWall, this`leftWall, this`y
      ensures Valid()
      ensures RightOrder() == Rotated(old(RightOrder()), 1)
      ensures leftWall == Rotated(old(leftWall), 1)
      ensures y == Lift(old(leftWall), Lift(old(RightOrder()), old(y)))
      ensures Stacked(old(RightOrder()), old(y), old(y[firstWall])) ==>
        Stacked(RightOrder(), y, old(y[firstWall]) + 1.0)
      ensures Stacked(old(leftWall), old(y), old(y[leftWall[0]])) ==>
        Stacked(leftWall, y, old(y[leftWall[0]]) + 1.0)
    {
      ghost var right0, left0, y0 := RightOrder(), leftWall, y;
      assert right0[0] in right0 && left0[0] in left0;
      assert right0[0] != left0[0];
      CycleWalls(y[firstWall] + (|rightWall| + 1) as real, y[leftWall[0]] + |leftWall| as real);

      var yRight := Lift(right0, y0);
      assert y == Lift(left0, yRight);
      if Stacked(right0, y0, y0[right0[0]]) {
        LiftKeepsStack(right0, y0, y0[right0[0]]);
        RotatedFacts(right0, 1);
        forall k | 0 <= k < |RightOrder()| ensures y[RightOrder()[k]] == yRight[RightOrder()[k]] {
          assert RightOrder()[k] in right0;
        }
      }
      if Stacked(left0, y0, y0[left0[0]]) {
        assert Stacked(left0, yRight, y0[left0[0]]) by {
          forall k | 0 <= k < |left0| ensures left0[k] in yRight && yRight[left0[k]] == y0[left0[k]] {
            assert left0[k] in left0;
          }
        }
        LiftKeepsStack(left0, yRight, y0[left0[0]]);
      }
    }

    /**
     UpdateBgQueue: the lowest background tile is lifted by the column's tile
     count and moved to the back of the queue; a stacked background stays
     stacked, one tile higher.
     */
    method UpdateBgQueue()
      requires Valid()
      modifies this`firstBg, this`bg, this`y
      ensures Valid()
      ensures BgOrder() == Rotated(old(BgOrder()), 1)
      ensures y == Lift(old(BgOrder()), old(y))
      ensures Stacked(old(BgOrder()), old(y), old(y[firstBg])) ==> Stacked(BgOrder(), y, old(y[firstBg]) + 1.0)
    {
      ghost var back0, y0 := BgOrder(), y;
      assert back0[0] in back0;
      CycleBg(y[firstBg] + (|bg| + 1) as real);
      if Stacked(back0, y0, y0[back0[0]]) {
        LiftKeepsStack(back0, y0, y0[back0[0]]);
      }
    }

    /** UpdateChickens: the chickens rise by 20 and turn around. */
    method UpdateChickens()
      modifies this`chickensY, this`chickensScaleX
      ensures chickensY == old(chickensY) + ChickensStep
      ensures chickensScaleX == -old(chickensScaleX)
    {
      chickensY := chickensY + ChickensStep;
      chickensScaleX := chickensScaleX * -1.0;
    }

    /**
     FollowPlayer: each column is recycled when the camera has passed its
     lowest element; the three comparisons with the camera are given.
     */
    method FollowPlayer(wallPassed: bool, bgPassed: bool, chickensPassed: bool)
      requires Valid()
      modifies this
      ensures Valid()
      ensures RightOrder() == (if wallPassed then Rotated(old(RightOrder()), 1) else old(RightOrder()))
      ensures leftWall == (if wallPassed then Rotated(old(leftWall), 1) else old(leftWall))
      ensures BgOrder() == (if bgPassed then Rotated(old(BgOrder()), 1) else old(BgOrder()))
      ensures var afterWalls := if wallPassed then Lift(old(leftWall), Lift(old(RightOrder()), old(y))) else old(y);
        y == (if bgPassed then Lift(old(BgOrder()), afterWalls) else afterWalls)
      ensures chickensY == old(chickensY) + (if chickensPassed then ChickensStep else 0)
      ensures chickensScaleX == (if chickensPassed then -old(chickensScaleX) else old(chickensScaleX))
    {
      if wallPassed {
        UpdateWallQueue();
      }
      if bgPassed {
        UpdateBgQueue();
      }
      if chickensPassed {
        UpdateChickens();
      }
    }

    /**
     ResetWall: one full turn of both wall queues, giving the i-th tile in
     current order height i; both walls end stacked from 0 in the order they
     had, with the same lowest right-wall tile. Background heights are kept.
     */
    method ResetWall()
      requires Valid()
      modifies this`firstWall, this`rightWall, this`leftWall, this`y
      ensures Valid()
      ensures RightOrder() == old(RightOrder()) && leftWall == old(leftWall)
      ensures Stacked(RightOrder(), y, 0.0) && Stacked(leftWall, y, 0.0)
      ensures y.Keys == old(y).Keys
      ensures forall t :: t in y && t.column == Backdrop ==> y[t] == old(y)[t]
    {
      ghost var right0, left0, y0 := RightOrder(), leftWall, y;
      var i := 0;
      while i <= |rightWall|
        invariant Valid()
        invariant 0 <= i <= |right0| == |left0| == |rightWall| + 1
        invariant RightOrder() == Rotated(right0, i) && leftWall == Rotated(left0, i)
        invariant y == RestackPair(y0, right0, left0, i)
      {
        RotateStep(right0, i);
        RotateStep(left0, i);
        CycleWalls(i as real, i as real);
        i := i + 1;
      }
      assert i == |right0| == |left0|;
      FullTurn(right0);
      FullTurn(left0);
      assert forall t :: t in right0 ==> t.column == RightWall && t in y0;
      assert forall t :: t in left0 ==> t.column == LeftWall && t in y0;
      RestackPairFacts(y0, right0, left0, i);
      forall t | t in y && t.column == Backdrop ensures y[t] == y0[t] {
        assert t !in right0 && t !in left0;
      }
      assert Stacked(right0, y, 0.0) && Stacked(left0, y, 0.0) by {
        forall k | 0 <= k < |right0| ensures right0[k] in y && left0[k] in y {
          assert right0[k] in right0 && left0[k] in left0;
        }
      }
    }

    /**
     ResetBg: one full turn of the background queue, restacking it from 0
     in the order it had. Wall heights are kept.
     */
    method ResetBg()
      requires Valid()
      modifies this`firstBg, this`bg, this`y
      ensures Valid()
      ensures BgOrder() == old(BgOrder())
      ensures Stacked(BgOrder(), y, 0.0)
      ensures y.Keys == old(y).Keys
      ensures forall t :: t in y && t.column != Backdrop ==> y[t] == old(y)[t]
    {
      ghost var back0, y0 := BgOrder(), y;
      var i := 0;
      while i <= |bg|
        invariant Valid()
        invariant 0 <= i <= |back0| == |bg| + 1
        invariant BgOrder() == Rotated(back0, i)
        invariant y == Restack(y0, back0, i)
      {
        RotateStep(back0, i);
        CycleBg(i as real);
        i := i + 1;
      }
      assert i == |back0|;
      FullTurn(back0);
      assert forall t :: t in back0 ==> t.column == Backdrop && t in y0;
      RestackFacts(y0, back0, i);
      forall t | t in y && t.column != Backdrop ensures y[t] == y0[t] {
        assert t !in back0;
      }
      assert Stacked(back0, y, 0.0) by {
        forall k | 0 <= k < |back0| ensures back0[k] in y {
          assert back0[k] in back0;
        }
      }
    }

    /** ResetBG: the chickens go back to the top and every column is restacked from 0. */
    method ResetBG()
      requires Valid()
      modifies this
      ensures Valid()
      ensures chickensY == TopYPozChickens && chickensScaleX == old(chickensScaleX)
      ensures RightOrder() == old(RightOrder()) && leftWall == old(leftWall) && BgOrder() == old(BgOrder())
      ensures Stacked(RightOrder(), y, 0.0) && Stacked(leftWall, y, 0.0) && Stacked(BgOrder(), y, 0.0)
    {
      chickensY := TopYPozChickens;
      ResetWall();
      ghost var yWalls := y;
      ResetBg();
      StackedFrame(RightOrder(), yWalls, y, 0.0);
      StackedFrame(leftWall, yWalls, y, 0.0);
    }
  }

  /** Two chicken updates in a row: they face the way they started, 40 units higher. */
  method ChickensTurnBack(b: LevelBuilder)
    modifies b
    ensures b.chickensScaleX == old(b.chickensScaleX)
    ensures b.chickensY == old(b.chickensY) + 2 * ChickensStep
  {
    b.UpdateChickens();
    b.UpdateChickens();
  }
}
