/** The static warehouse around the hazards (src/components/scene/WarehouseEnvironment.tsx):
    the randomly stocked shelving unit, the dock door, and the three room
    layouts. `Math.random()` is replaced by a sequence of draws in [0, 1)
    consumed in the order the source calls it. */
module WarehouseEnvironment {
  import opened Types
  import opened Seqs

  // ------------------------------------------------------- shelving boxes

  /** The six box colours, indexed by `Math.floor(Math.random() * 6)`. */
  datatype BoxColor = Amber | Blue | Emerald | Violet | Red | Cyan

  /** The position of a colour in the palette. */
  function Shade(c: BoxColor): (i: nat)
    ensures i < 6
  {
    match c
    case Amber => 0
    case Blue => 1
    case Emerald => 2
    case Violet => 3
    case Red => 4
    case Cyan => 5
  }

  /** The palette in the order the draw indexes it. */
  const Palette: seq<BoxColor> := [Amber, Blue, Emerald, Violet, Red, Cyan]

  /** The colour each palette entry is drawn with: a `#rrggbb` code in
      lower-case hexadecimal. */
  function Hex(c: BoxColor): (r: string)
    ensures |r| == 7 && r[0] == '#'
    ensures forall i :: 1 <= i < 7 ==> r[i] in "0123456789abcdef"
  {
    match c
    case Amber => "#b45309"
    case Blue => "#1d4ed8"
    case Emerald => "#059669"
    case Violet => "#7c3aed"
    case Red => "#dc2626"
    case Cyan => "#0891b2"
  }

  /** No two palette entries share a colour code. */
  lemma HexInjective(c1: BoxColor, c2: BoxColor)
    ensures Hex(c1) == Hex(c2) ==> c1 == c2
  {
  }

  /** The number of shelves a unit is stocked on (they are 1.2 apart). */
  const ShelfCount: nat := 4
  /** Gap left between neighbouring boxes, and where each row starts. */
  const Gap: real := 0.1
  const RowStart: real := -1.0
  /** Random draws one unit consumes at most: per shelf (17 at most) one for
      the count and four for each of at most four boxes. */
  const MaxDraws: nat := 68

  /** A value `Math.random()` can return. */
  type Draw = r: real | 0.0 <= r < 1.0

  /** `2 + Math.floor(Math.random() * 3)`: two, three or four boxes. */
  function NumBoxes(r: Draw): (n: nat)
    ensures 2 <= n <= 4
  {
    2 + (r * 3.0).Floor
  }

  /** Each count owns its own third of [0, 1). */
  lemma NumBoxesThirds(r: Draw)
    ensures NumBoxes(r) == 2 + (r * 3.0).Floor
    ensures NumBoxes(r) == 2 <==> r < 1.0 / 3.0
    ensures NumBoxes(r) == 3 <==> 1.0 / 3.0 <= r < 2.0 / 3.0
    ensures NumBoxes(r) == 4 <==> 2.0 / 3.0 <= r
  {
  }

  /** `colors[Math.floor(Math.random() * colors.length)]`. */
  function PaletteColor(r: Draw): (c: BoxColor)
    ensures Palette[Shade(c)] == c
    ensures Shade(c) as real <= r * 6.0 < Shade(c) as real + 1.0
  {
    Palette[(r * 6.0).Floor]
  }

  /** The draw picks palette entry k exactly on the k-th sixth of [0, 1). */
  lemma PaletteSixths(r: Draw)
    ensures PaletteColor(r) == Palette[(r * 6.0).Floor]
    ensures forall k :: 0 <= k < 6 ==> (PaletteColor(r) == Palette[k] <==> k as real <= r * 6.0 < k as real + 1.0)
  {
  }

  /** A box: centre, size (width, height, depth) and colour. */
  datatype BoxConfig = BoxConfig(pos: Vec3, size: Vec3, color: BoxColor)

  function Left(b: BoxConfig): real { b.pos.x - b.size.x / 2.0 }
  function Right(b: BoxConfig): real { b.pos.x + b.size.x / 2.0 }
  function Bottom(b: BoxConfig): real { b.pos.y - b.size.y / 2.0 }
  function Top(b: BoxConfig): real { b.pos.y + b.size.y / 2.0 }

  /** The height of a shelf's surface. */
  function ShelfLevel(shelf: nat): real {
    shelf as real * 1.2
  }

  /** Higher shelves sit higher. */
  lemma LevelsRise(lower: nat, upper: nat, y: real)
    requires lower <= upper
    requires y >= ShelfLevel(upper)
    ensures y >= ShelfLevel(lower)
  {
  }

  /** A box as the loop draws it: width and height in [0.3, 0.7), depth in
      [0.3, 0.6), centred on the unit's depth axis. */
  predicate WellFormedBox(b: BoxConfig) {
    && 0.3 <= b.size.x < 0.7
    && 0.3 <= b.size.y < 0.7
    && 0.3 <= b.size.z < 0.6
    && b.pos.z == 0.0
  }

  /** The box stands on one of the four shelves. */
  predicate OnSomeShelf(b: BoxConfig) {
    exists t: nat :: t < ShelfCount && Bottom(b) == ShelfLevel(t)
  }

  /** The box is well formed, stands on one of the shelves and lies within
      [-1, 2.1) along x. */
  predicate FitsUnit(b: BoxConfig) {
    WellFormedBox(b) && OnSomeShelf(b) && RowStart <= Left(b) && Right(b) < 2.1
  }

  /** Every box of `s` is well formed and stands on shelf `shelf`. */
  predicate AllOnShelf(s: seq<BoxConfig>, shelf: nat) {
    forall b {:trigger b in s} :: b in s ==> WellFormedBox(b) && Bottom(b) == ShelfLevel(shelf)
  }

  /** No box of `s` stands below shelf `shelf`. */
  predicate NoneBelow(s: seq<BoxConfig>, shelf: nat) {
    forall b {:trigger b in s} :: b in s ==> Bottom(b) >= ShelfLevel(shelf)
  }

  /** Every box of `s` fits the unit. */
  predicate AllFitUnit(s: seq<BoxConfig>) {
    forall b {:trigger b in s} :: b in s ==> FitsUnit(b)
  }

  /** Two boxes do not overlap: they are apart along x or along y. */
  predicate Disjoint(a: BoxConfig, b: BoxConfig) {
    Right(a) <= Left(b) || Right(b) <= Left(a) || Top(a) <= Bottom(b) || Top(b) <= Bottom(a)
  }

  /** No two boxes of the sequence overlap. */
  predicate PairwiseDisjoint(s: seq<BoxConfig>) {
    forall i, j :: 0 <= i < |s| && 0 <= j < |s| && i != j ==> Disjoint(s[i], s[j])
  }

  /** Each box lies at least a gap to the right of the ones before it. */
  predicate LeftToRight(r: seq<BoxConfig>) {
    forall i, j :: 0 <= i < j < |r| ==> Right(r[i]) + Gap <= Left(r[j])
  }

  /** The box the loop body pushes from four draws (width, height, depth,
      colour) at the current x offset: its left side at the offset and its
      bottom on the shelf. */
  function MakeBox(shelf: nat, xOffset: real, rw: Draw, rh: Draw, rd: Draw, rc: Draw): (b: BoxConfig)
    ensures WellFormedBox(b)
    ensures Left(b) == xOffset && Right(b) == xOffset + b.size.x
    ensures Bottom(b) == ShelfLevel(shelf) && Top(b) == ShelfLevel(shelf) + b.size.y
  {
    var width := 0.3 + rw * 0.4;
    var height := 0.3 + rh * 0.4;
    var depth := 0.3 + rd * 0.3;
    BoxConfig(Vec3(xOffset + width / 2.0, ShelfLevel(shelf) + height / 2.0, 0.0),
              Vec3(width, height, depth),
              PaletteColor(rc))
  }

  /** `xOffset += width + 0.1`: where the box after one of the given width
      starts. */
  function Advance(xOffset: real, width: real): (r: real)
    ensures r == xOffset + width + Gap
  {
    xOffset + width + Gap
  }

  /** The remaining `count` boxes of a shelf's row, starting at `xOffset` and
      reading draws from `cursor` on. */
  function Row(shelf: nat, count: nat, xOffset: real, draws: seq<Draw>, cursor: nat): (r: seq<BoxConfig>)
    requires cursor + 4 * count <= |draws|
    ensures |r| == count
    decreases count
  {
    if count == 0 then []
    else
      var b := MakeBox(shelf, xOffset, draws[cursor], draws[cursor + 1], draws[cursor + 2], draws[cursor + 3]);
      [b] + Row(shelf, count - 1, Advance(xOffset, b.size.x), draws, cursor + 4)
  }

  /** The first of a row's boxes, and the rest of the row after it. */
  lemma RowUnfold(shelf: nat, count: nat, xOffset: real, draws: seq<Draw>, cursor: nat)
    requires cursor + 4 * count <= |draws| && count > 0
    ensures Row(shelf, count, xOffset, draws, cursor) ==
            [MakeBox(shelf, xOffset, draws[cursor], draws[cursor + 1], draws[cursor + 2], draws[cursor + 3])] +
            Row(shelf, count - 1,
                Advance(xOffset, MakeBox(shelf, xOffset, draws[cursor], draws[cursor + 1], draws[cursor + 2], draws[cursor + 3]).size.x),
                draws, cursor + 4)
  {
  }

  /** The boxes of shelves `shelf` to 3, reading draws from `cursor` on. */
  function Shelves(shelf: nat, draws: seq<Draw>, cursor: nat): (r: seq<BoxConfig>)
    requires shelf <= ShelfCount
    requires cursor + 17 * (4 - shelf) <= |draws|
    ensures 2 * (ShelfCount - shelf) <= |r| <= 4 * (ShelfCount - shelf)
    decreases ShelfCount - shelf
  {
    if shelf == ShelfCount then []
    else
      var n := NumBoxes(draws[cursor]);
      Row(shelf, n, RowStart, draws, cursor + 1) + Shelves(shelf + 1, draws, cursor + 1 + 4 * n)
  }

  /** A shelf's row followed by the shelves above it. */
  lemma ShelvesUnfold(shelf: nat, draws: seq<Draw>, cursor: nat)
    requires shelf < ShelfCount
    requires cursor + 17 * (4 - shelf) <= |draws|
    ensures Shelves(shelf, draws, cursor) ==
            Row(shelf, NumBoxes(draws[cursor]), RowStart, draws, cursor + 1) +
            Shelves(shelf + 1, draws, cursor + 1 + 4 * NumBoxes(draws[cursor]))
  {
  }

  /** The boxes of one shelving unit, for a given sequence of random draws. */
  function UnitBoxes(draws: seq<Draw>): (r: seq<BoxConfig>)
    requires |draws| >= MaxDraws
    ensures 8 <= |r| <= 16
  {
    Shelves(0, draws, 0)
  }

  /** Appending the next box leaves the rest of the row to do: the loop's
      state after one more iteration (`row'`, `count'`, `xOffset'`,
      `cursor'`) still extends to the whole row. */
  lemma RowStep(row: seq<BoxConfig>, shelf: nat, count: nat, xOffset: real, draws: seq<Draw>, cursor: nat,
                b: BoxConfig, target: seq<BoxConfig>,
                row': seq<BoxConfig>, count': nat, xOffset': real, cursor': nat)
    requires cursor + 4 * count <= |draws| && count > 0
    requires b == MakeBox(shelf, xOffset, draws[cursor], draws[cursor + 1], draws[cursor + 2], draws[cursor + 3])
    requires row + Row(shelf, count, xOffset, draws, cursor) == target
    requires row' == row + [b] && count' == count - 1 && xOffset' == Advance(xOffset, b.size.x) && cursor' == cursor + 4
    ensures row' + Row(shelf, count', xOffset', draws, cursor') == target
  {
    RowUnfold(shelf, count, xOffset, draws, cursor);
    AppendAssoc(row, [b], Row(shelf, count', xOffset', draws, cursor'));
  }

  /** The inner loop of the `useMemo` body: one shelf's row of boxes, read
      from the draws at `cursor`; `next` is the first draw not consumed. */
  method StockShelf(shelf: nat, draws: seq<Draw>, cursor: nat) returns (row: seq<BoxConfig>, next: nat)
    requires shelf < ShelfCount
    requires cursor + 17 * (4 - shelf) <= |draws|
    ensures next == cursor + 1 + 4 * NumBoxes(draws[cursor])
    ensures row == Row(shelf, NumBoxes(draws[cursor]), RowStart, draws, cursor + 1)
  {
    var numBoxes := NumBoxes(draws[cursor]);
    ghost var target := Row(shelf, numBoxes, RowStart, draws, cursor + 1);
    row := [];
    next := cursor + 1;
    var xOffset := RowStart;
    assert row + target == target;
    var i := 0;
    ghost var left := numBoxes;
    while i < numBoxes
      invariant 0 <= i <= numBoxes && left == numBoxes - i
      invariant next == cursor + 1 + 4 * i
      invariant row + Row(shelf, left, xOffset, draws, next) == target
    {
      var box := MakeBox(shelf, xOffset, draws[next], draws[next + 1], draws[next + 2], draws[next + 3]);
      var width := box.size.x;
      ghost var row0, left0, x0, next0 := row, left, xOffset, next;
      row := row + [box];
      next := next + 4;
      xOffset := Advance(xOffset, width);
      i := i + 1;
      left := left - 1;
      RowStep(row0, shelf, left0, x0, draws, next0, box, target, row, left, xOffset, next);
    }
    assert row + [] == row;
  }

  /** Appending a stocked shelf's row leaves the shelves above it to do:
      the outer loop's state after one more shelf (`boxes'`, `shelf'`,
      `cursor'`) still extends to the whole unit. */
  lemma ShelfDone(boxes: seq<BoxConfig>, row: seq<BoxConfig>, shelf: nat, draws: seq<Draw>, cursor: nat,
                  target: seq<BoxConfig>, boxes': seq<BoxConfig>, shelf': nat, cursor': nat)
    requires shelf < ShelfCount
    requires cursor + 17 * (4 - shelf) <= |draws|
    requires boxes + Shelves(shelf, draws, cursor) == target
    requires row == Row(shelf, NumBoxes(draws[cursor]), RowStart, draws, cursor + 1)
    requires boxes' == boxes + row && shelf' == shelf + 1 && cursor' == cursor + 1 + 4 * NumBoxes(draws[cursor])
    ensures boxes' + Shelves(shelf', draws, cursor') == target
  {
    ShelvesUnfold(shelf, draws, cursor);
    AppendAssoc(boxes, row, Shelves(shelf', draws, cursor'));
  }

  /** The `useMemo` body of `ShelvingUnit`: four shelves, each stocked from
      the draws that follow the previous shelf's. */
  method GenerateBoxes(draws: seq<Draw>) returns (boxes: seq<BoxConfig>)
    requires |draws| >= MaxDraws
    ensures boxes == UnitBoxes(draws)
  {
    ghost var target := UnitBoxes(draws);
    boxes := [];
    var cursor: nat := 0;
    var shelf := 0;
    while shelf < ShelfCount
      invariant 0 <= shelf <= ShelfCount
      invariant cursor <= 17 * shelf
      invariant boxes + Shelves(shelf, draws, cursor) == target
    {
      var row, next := StockShelf(shelf, draws, cursor);
      ghost var boxes0, shelf0, cursor0 := boxes, shelf, cursor;
      boxes := boxes + row;
      cursor := next;
      shelf := shelf + 1;
      ShelfDone(boxes0, row, shelf0, draws, cursor0, target, boxes, shelf, cursor);
    }
    assert boxes + [] == boxes;
  }

  // ------------------------------------------------ properties of a unit

  /** Every box of a row of `count` boxes starting at `xOffset` is well
      formed, stands on the shelf, starts no further left than `xOffset` and
      ends before `xOffset + 0.8 * count - 0.1`. */
  lemma {:induction false} RowBoxes(shelf: nat, count: nat, xOffset: real, draws: seq<Draw>, cursor: nat)
    requires cursor + 4 * count <= |draws|
    ensures forall b :: b in Row(shelf, count, xOffset, draws, cursor) ==>
              WellFormedBox(b) && Bottom(b) == ShelfLevel(shelf) && xOffset <= Left(b) &&
              Right(b) < xOffset + 0.8 * count as real - 0.1
    decreases count
  {
    if count > 0 {
      RowUnfold(shelf, count, xOffset, draws, cursor);
      var b := MakeBox(shelf, xOffset, draws[cursor], draws[cursor + 1], draws[cursor + 2], draws[cursor + 3]);
      RowBoxes(shelf, count - 1, Advance(xOffset, b.size.x), draws, cursor + 4);
    }
  }

  /** Every box of a row is well formed and stands on the row's shelf. */
  lemma {:induction false} RowOnShelf(shelf: nat, count: nat, xOffset: real, draws: seq<Draw>, cursor: nat)
    requires cursor + 4 * count <= |draws|
    ensures AllOnShelf(Row(shelf, count, xOffset, draws, cursor), shelf)
    decreases count
  {
    if count > 0 {
      RowUnfold(shelf, count, xOffset, draws, cursor);
      var b := MakeBox(shelf, xOffset, draws[cursor], draws[cursor + 1], draws[cursor + 2], draws[cursor + 3]);
      RowOnShelf(shelf, count - 1, Advance(xOffset, b.size.x), draws, cursor + 4);
    }
  }

  /** Each box of a row lies at least a gap to the right of those before it. */
  lemma {:induction false} RowOrdered(shelf: nat, count: nat, xOffset: real, draws: seq<Draw>, cursor: nat)
    requires cursor + 4 * count <= |draws|
    ensures LeftToRight(Row(shelf, count, xOffset, draws, cursor))
    decreases count
  {
    if count > 0 {
      var r := Row(shelf, count, xOffset, draws, cursor);
      RowUnfold(shelf, count, xOffset, draws, cursor);
      var b := MakeBox(shelf, xOffset, draws[cursor], draws[cursor + 1], draws[cursor + 2], draws[cursor + 3]);
      var next := Advance(xOffset, b.size.x);
      var rest := Row(shelf, count - 1, next, draws, cursor + 4);
      RowBoxes(shelf, count - 1, next, draws, cursor + 4);
      RowOrdered(shelf, count - 1, next, draws, cursor + 4);
      assert r == [b] + rest;
      forall i, j | 0 <= i < j < |r|
        ensures Right(r[i]) + Gap <= Left(r[j])
      {
        assert r[j] == rest[j - 1];
        if i > 0 {
          assert r[i] == rest[i - 1];
        } else {
          assert rest[j - 1] in rest;
        }
      }
    }
  }

  /** Boxes ordered left to right do not overlap. */
  lemma LeftToRightDisjoint(r: seq<BoxConfig>)
    requires LeftToRight(r)
    ensures PairwiseDisjoint(r)
  {
    forall i, j | 0 <= i < |r| && 0 <= j < |r| && i != j
      ensures Disjoint(r[i], r[j])
    {
      if i < j {
        assert Right(r[i]) + Gap <= Left(r[j]);
      } else {
        assert Right(r[j]) + Gap <= Left(r[i]);
      }
    }
  }

  /** A row on one shelf stacked under boxes standing on higher shelves
      overlaps none of them. */
  lemma StackDisjoint(s: seq<BoxConfig>, row: seq<BoxConfig>, rest: seq<BoxConfig>, shelf: nat)
    requires s == row + rest
    ensures PairwiseDisjoint(row) && PairwiseDisjoint(rest) && AllOnShelf(row, shelf) && NoneBelow(rest, shelf + 1) ==>
            PairwiseDisjoint(s)
  {
    if PairwiseDisjoint(row) && PairwiseDisjoint(rest) && AllOnShelf(row, shelf) && NoneBelow(rest, shelf + 1) {
      forall i, j | 0 <= i < |s| && 0 <= j < |s| && i != j
        ensures Disjoint(s[i], s[j])
      {
        if i < |row| && j < |row| {
          assert s[i] == row[i] && s[j] == row[j];
        } else if i < |row| {
          assert s[i] == row[i] && s[j] == rest[j - |row|];
          assert s[i] in row && s[j] in rest;
        } else if j < |row| {
          assert s[j] == row[j] && s[i] == rest[i - |row|];
          assert s[j] in row && s[i] in rest;
        } else {
          assert s[i] == rest[i - |row|] && s[j] == rest[j - |row|];
        }
      }
    }
  }

  /** The boxes of one shelf's row fit the unit. */
  lemma RowFits(shelf: nat, draws: seq<Draw>, cursor: nat)
    requires shelf < ShelfCount
    requires cursor + 17 * (4 - shelf) <= |draws|
    ensures AllFitUnit(Row(shelf, NumBoxes(draws[cursor]), RowStart, draws, cursor + 1))
  {
    var n := NumBoxes(draws[cursor]);
    RowBoxes(shelf, n, RowStart, draws, cursor + 1);
    forall b | b in Row(shelf, n, RowStart, draws, cursor + 1)
      ensures FitsUnit(b)
    {
      assert Bottom(b) == ShelfLevel(shelf);
    }
  }

  /** Every box of shelves `shelf` to 3 fits the unit. */
  lemma {:induction false} ShelvesBoxes(shelf: nat, draws: seq<Draw>, cursor: nat)
    requires shelf <= ShelfCount
    requires cursor + 17 * (4 - shelf) <= |draws|
    ensures AllFitUnit(Shelves(shelf, draws, cursor))
    decreases ShelfCount - shelf
  {
    if shelf < ShelfCount {
      ShelvesBoxes(shelf + 1, draws, cursor + 1 + 4 * NumBoxes(draws[cursor]));
      ShelfFits(shelf, draws, cursor);
    }
  }

  /** A shelf's row added under shelves whose boxes fit the unit: all of
      them fit the unit. */
  lemma ShelfFits(shelf: nat, draws: seq<Draw>, cursor: nat)
    requires shelf < ShelfCount
    requires cursor + 17 * (4 - shelf) <= |draws|
    requires AllFitUnit(Shelves(shelf + 1, draws, cursor + 1 + 4 * NumBoxes(draws[cursor])))
    ensures AllFitUnit(Shelves(shelf, draws, cursor))
  {
    var n := NumBoxes(draws[cursor]);
    ShelvesUnfold(shelf, draws, cursor);
    RowFits(shelf, draws, cursor);
    AllFit(Row(shelf, n, RowStart, draws, cursor + 1),
           Shelves(shelf + 1, draws, cursor + 1 + 4 * n));
  }

  /** A row and the boxes after it that all fit the unit make a sequence
      that fits the unit. */
  lemma AllFit(row: seq<BoxConfig>, rest: seq<BoxConfig>)
    ensures AllFitUnit(row) && AllFitUnit(rest) ==> AllFitUnit(row + rest)
  {
  }

  /** No box of shelves `shelf` to 3 stands below shelf `shelf`. */
  lemma {:induction false} ShelvesAbove(shelf: nat, draws: seq<Draw>, cursor: nat)
    requires shelf <= ShelfCount
    requires cursor + 17 * (4 - shelf) <= |draws|
    ensures NoneBelow(Shelves(shelf, draws, cursor), shelf)
    decreases ShelfCount - shelf
  {
    if shelf < ShelfCount {
      ShelvesAbove(shelf + 1, draws, cursor + 1 + 4 * NumBoxes(draws[cursor]));
      ShelfAbove(shelf, draws, cursor);
    }
  }

  /** A shelf's row added under shelves that stand no lower than the next
      shelf: nothing stands below this shelf. */
  lemma ShelfAbove(shelf: nat, draws: seq<Draw>, cursor: nat)
    requires shelf < ShelfCount
    requires cursor + 17 * (4 - shelf) <= |draws|
    requires NoneBelow(Shelves(shelf + 1, draws, cursor + 1 + 4 * NumBoxes(draws[cursor])), shelf + 1)
    ensures NoneBelow(Shelves(shelf, draws, cursor), shelf)
  {
    var n := NumBoxes(draws[cursor]);
    ShelvesUnfold(shelf, draws, cursor);
    RowOnItsShelf(shelf, draws, cursor);
    StackAbove(Row(shelf, n, RowStart, draws, cursor + 1),
               Shelves(shelf + 1, draws, cursor + 1 + 4 * n), shelf);
  }

  /** A row standing on shelf `shelf` followed by boxes standing no lower
      than the next shelf: nothing stands below shelf `shelf`. */
  lemma StackAbove(row: seq<BoxConfig>, rest: seq<BoxConfig>, shelf: nat)
    ensures AllOnShelf(row, shelf) && NoneBelow(rest, shelf + 1) ==> NoneBelow(row + rest, shelf)
  {
    if AllOnShelf(row, shelf) && NoneBelow(rest, shelf + 1) {
      forall b | b in row + rest
        ensures Bottom(b) >= ShelfLevel(shelf)
      {
        if b !in row {
          LevelsRise(shelf, shelf + 1, Bottom(b));
        }
      }
    }
  }

  /** No two boxes of shelves `shelf` to 3 overlap. */
  lemma {:induction false} ShelvesDisjoint(shelf: nat, draws: seq<Draw>, cursor: nat)
    requires shelf <= ShelfCount
    requires cursor + 17 * (4 - shelf) <= |draws|
    ensures PairwiseDisjoint(Shelves(shelf, draws, cursor))
    decreases ShelfCount - shelf
  {
    if shelf < ShelfCount {
      ShelvesDisjoint(shelf + 1, draws, cursor + 1 + 4 * NumBoxes(draws[cursor]));
      ShelfOnTop(shelf, draws, cursor);
    }
  }

  /** The boxes of a shelf's row are well formed and stand on that shelf. */
  lemma RowOnItsShelf(shelf: nat, draws: seq<Draw>, cursor: nat)
    requires shelf < ShelfCount
    requires cursor + 17 * (4 - shelf) <= |draws|
    ensures AllOnShelf(Row(shelf, NumBoxes(draws[cursor]), RowStart, draws, cursor + 1), shelf)
  {
    RowOnShelf(shelf, NumBoxes(draws[cursor]), RowStart, draws, cursor + 1);
  }

  /** No two boxes of a shelf's row overlap. */
  lemma RowNoOverlap(shelf: nat, draws: seq<Draw>, cursor: nat)
    requires shelf < ShelfCount
    requires cursor + 17 * (4 - shelf) <= |draws|
    ensures PairwiseDisjoint(Row(shelf, NumBoxes(draws[cursor]), RowStart, draws, cursor + 1))
  {
    RowOrdered(shelf, NumBoxes(draws[cursor]), RowStart, draws, cursor + 1);
    LeftToRightDisjoint(Row(shelf, NumBoxes(draws[cursor]), RowStart, draws, cursor + 1));
  }

  /** A shelf's row added under the boxes of the shelves above it overlaps
      none of them. */
  lemma ShelfOnTop(shelf: nat, draws: seq<Draw>, cursor: nat)
    requires shelf < ShelfCount
    requires cursor + 17 * (4 - shelf) <= |draws|
    requires PairwiseDisjoint(Shelves(shelf + 1, draws, cursor + 1 + 4 * NumBoxes(draws[cursor])))
    ensures PairwiseDisjoint(Shelves(shelf, draws, cursor))
  {
    var n := NumBoxes(draws[cursor]);
    RowNoOverlap(shelf, draws, cursor);
    RowOnItsShelf(shelf, draws, cursor);
    ShelvesAbove(shelf + 1, draws, cursor + 1 + 4 * n);
    ShelvesUnfold(shelf, draws, cursor);
    StackDisjoint(Shelves(shelf, draws, cursor), Row(shelf, n, RowStart, draws, cursor + 1),
                  Shelves(shelf + 1, draws, cursor + 1 + 4 * n), shelf);
  }

  /** The boxes of a shelving unit are each well formed and standing on one
      of the four shelves, packed from x = -1 and never overlapping. */
  lemma UnitBoxesFacts(draws: seq<Draw>)
    requires |draws| >= MaxDraws
    ensures forall b :: b in UnitBoxes(draws) ==> FitsUnit(b)
    ensures PairwiseDisjoint(UnitBoxes(draws))
  {
    ShelvesBoxes(0, draws, 0);
    ShelvesDisjoint(0, draws, 0);
  }

  /** The right end of the unit's horizontal beams (3.08 wide, centred). */
  const FrameRight: real := 1.54

  /** Rows are packed from x = -1 with no check against the frame, so four
      wide boxes run past the right end of the beams: with every draw at
      0.99 the bottom shelf's fourth box ends near x = 2.08. */
  lemma BoxesCanOverhangFrame()
    ensures var row := Row(0, NumBoxes(0.99), RowStart, seq(16, i => 0.99), 0);
            |row| == 4 && Right(row[3]) > FrameRight
  {
    var d: seq<Draw> := seq(16, i => 0.99);
    var w := MakeBox(0, 0.0, 0.99, 0.99, 0.99, 0.99).size.x;
    assert w == 0.696;
    RowUnfold(0, 4, RowStart, d, 0);
    RowUnfold(0, 3, Advance(RowStart, w), d, 4);
    RowUnfold(0, 2, Advance(Advance(RowStart, w), w), d, 8);
    RowUnfold(0, 1, Advance(Advance(Advance(RowStart, w), w), w), d, 12);
  }

  // ------------------------------------------------------------ dock door

  /** A box mesh: centre and size. */
  datatype Slab = Slab(center: Vec3, size: Vec3)

  function SlabLeft(b: Slab): real { b.center.x - b.size.x / 2.0 }
  function SlabRight(b: Slab): real { b.center.x + b.size.x / 2.0 }
  function SlabBottom(b: Slab): real { b.center.y - b.size.y / 2.0 }
  function SlabTop(b: Slab): real { b.center.y + b.size.y / 2.0 }

  /** The door frame: two posts 0.15 wide at x = -2 and x = 2, 4 high, and a
      lintel 0.2 high centred at y = 4.1. */
  const LeftPost := Slab(Vec3(-2.0, 2.0, 0.0), Vec3(0.15, 4.0, 4.0))
  const RightPost := Slab(Vec3(2.0, 2.0, 0.0), Vec3(0.15, 4.0, 4.0))
  const Lintel := Slab(Vec3(0.0, 4.1, 0.0), Vec3(4.15, 0.2, 4.0))

  /** The door panel: a closed door fills the opening with a 3.8 x 3.8
      panel; an open door is rolled up into a 0.5 high strip under the
      lintel. Either way the panel stays inside the frame's opening; a
      closed panel spans the opening from just above the floor to just
      under the lintel, and an open one leaves 3.5 of headroom. */
  function DoorPanel(open: bool): (p: Slab)
    ensures SlabRight(LeftPost) < SlabLeft(p) && SlabRight(p) < SlabLeft(RightPost)
    ensures 0.0 <= SlabBottom(p) && SlabTop(p) <= SlabBottom(Lintel)
    ensures !open ==> SlabBottom(p) <= 0.05 && SlabTop(p) >= 3.85
    ensures open ==> SlabBottom(p) >= 3.5 && SlabTop(p) - SlabBottom(p) == 0.5
  {
    if open then Slab(Vec3(0.0, 3.75, 0.0), Vec3(3.8, 0.5, 0.1))
    else Slab(Vec3(0.0, 1.95, 0.0), Vec3(3.8, 3.8, 0.1))
  }

  // -------------------------------------------------------------- layouts

  /** `sceneType`. */
  datatype SceneType = Storage | Loading | ChemicalStore

  /** A shelving unit; `turned` is one rotated by half a turn. */
  datatype Unit = Unit(at: Vec3, turned: bool)
  datatype Door = Door(at: Vec3, open: bool)
  datatype Barrel = Barrel(at: Vec3, color: string)

  /** A scene type's own items, one list per kind, in drawing order. */
  datatype Layout = Layout(
    units: seq<Unit>,
    pallets: seq<Vec3>,
    doors: seq<Door>,
    barrels: seq<Barrel>,
    stations: seq<Vec3>,
    stripes: seq<Vec3>)

  /** The room drawn for a scene type. */
  datatype Room = Room(
    wallColor: string,
    floorColor: string,
    walls: seq<Vec3>,
    lights: seq<Vec3>,
    pillars: seq<Vec3>,
    layout: Layout)

  /** Half the side of the square room: its walls stand at x, z = -15 and 15. */
  const HalfSide: real := 15.0

  const DarkWall := "#1e293b"
  const LightWall := "#e2e8f0"
  const DarkFloor := "#1e3a5f"
  const GreyFloor := "#64748b"

  /** The four wall centres. */
  const Walls: seq<Vec3> :=
    [Vec3(0.0, 3.5, -15.0), Vec3(0.0, 3.5, 15.0), Vec3(-15.0, 3.5, 0.0), Vec3(15.0, 3.5, 0.0)]

  /** The three ceiling-light coordinates along each floor axis. */
  const LightAxis: seq<real> := [-8.0, 0.0, 8.0]

  /** `[-8, 0, 8].map(x => [-8, 0, 8].map(z => ...))`: a light at every
      pair of coordinates, x outer, 6.3 up. */
  function Lights(): (ls: seq<Vec3>)
    ensures |ls| == 9
    ensures forall k :: 0 <= k < 9 ==> ls[k] == Vec3(LightAxis[k / 3], 6.3, LightAxis[k % 3])
  {
    seq(9, k requires 0 <= k < 9 => Vec3(LightAxis[k / 3], 6.3, LightAxis[k % 3]))
  }

  /** The four pillars, at (-7, -7), (-7, 7), (7, -7) and (7, 7). */
  const Pillars: seq<Vec3> :=
    [Vec3(-7.0, 0.0, -7.0), Vec3(-7.0, 0.0, 7.0), Vec3(7.0, 0.0, -7.0), Vec3(7.0, 0.0, 7.0)]

  /** The scene-specific items of each scene type. Shelving units on the
      right-hand side of every room are turned by half a turn, so that all of
      them face the middle of the room. */
  function LayoutFor(t: SceneType): (r: Layout)
    ensures forall u :: u in r.units ==> (u.turned <==> u.at.x > 0.0)
  {
    match t
    case Storage =>
      Layout(
        [Unit(Vec3(-10.0, 0.0, -10.0), false), Unit(Vec3(-10.0, 0.0, -5.0), false), Unit(Vec3(-10.0, 0.0, 0.0), false),
         Unit(Vec3(10.0, 0.0, -10.0), true), Unit(Vec3(10.0, 0.0, -5.0), true), Unit(Vec3(10.0, 0.0, 0.0), true)],
        [Vec3(0.0, 0.0, -8.0), Vec3(3.0, 0.0, -8.0), Vec3(-3.0, 0.0, 8.0)],
        [], [],
        [Vec3(-14.5, 0.0, 5.0)],
        [])
    case Loading =>
      Layout(
        [Unit(Vec3(-12.0, 0.0, 8.0), false), Unit(Vec3(12.0, 0.0, 8.0), true)],
        [Vec3(-2.0, 0.0, -8.0), Vec3(2.0, 0.0, -8.0), Vec3(5.0, 0.0, -6.0), Vec3(-8.0, 0.0, 5.0)],
        [Door(Vec3(0.0, 0.0, -14.7), true), Door(Vec3(-8.0, 0.0, -14.7), false), Door(Vec3(8.0, 0.0, -14.7), true)],
        [], [], [])
    case ChemicalStore =>
      Layout(
        [Unit(Vec3(-10.0, 0.0, -8.0), false), Unit(Vec3(10.0, 0.0, -8.0), true)],
        [], [],
        [Barrel(Vec3(-5.0, 0.0, -5.0), "#dc2626"), Barrel(Vec3(-4.0, 0.0, -5.0), "#dc2626"),
         Barrel(Vec3(-4.5, 0.0, -4.0), "#eab308"), Barrel(Vec3(5.0, 0.0, -5.0), "#22c55e"),
         Barrel(Vec3(6.0, 0.0, -5.0), "#22c55e"), Barrel(Vec3(5.5, 0.0, -4.0), "#3b82f6")],
        [Vec3(-14.5, 0.0, 0.0), Vec3(14.5, 0.0, 0.0)],
        [Vec3(-6.0, 0.02, -5.0), Vec3(6.0, 0.02, -5.0)])
  }

  /** `<WarehouseEnvironment sceneType/>`: a dark room for the chemical
      store and a light one otherwise, the same walls, lights and pillars
      for every scene type, and that type's items. */
  function Environment(t: SceneType): (r: Room)
    ensures r.wallColor == DarkWall <==> t == ChemicalStore
    ensures r.floorColor == DarkFloor <==> t == ChemicalStore
    ensures r.wallColor in {DarkWall, LightWall} && r.floorColor in {DarkFloor, GreyFloor}
    ensures r.layout == LayoutFor(t)
    ensures |r.walls| == 4 && |r.lights| == 9 && |r.pillars| == 4
  {
    var chemical := t == ChemicalStore;
    Room(if chemical then DarkWall else LightWall,
         if chemical then DarkFloor else GreyFloor,
         Walls, Lights(), Pillars, LayoutFor(t))
  }

  /** Only the colours and the scene-specific items depend on the scene
      type: every room has the same walls, lights and pillars. */
  lemma SharedShell(t1: SceneType, t2: SceneType)
    ensures Environment(t1).walls == Environment(t2).walls
    ensures Environment(t1).lights == Environment(t2).lights
    ensures Environment(t1).pillars == Environment(t2).pillars
  {
  }

  /** The nine lights are at distinct places, all 6.3 up on the -8/0/8
      grid. */
  lemma LightsGrid()
    ensures forall k, m :: 0 <= k < m < 9 ==> Lights()[k] != Lights()[m]
    ensures forall k :: 0 <= k < 9 ==> Lights()[k].y == 6.3 && Lights()[k].x in {-8.0, 0.0, 8.0} && Lights()[k].z in {-8.0, 0.0, 8.0}
  {
    forall k, m | 0 <= k < m < 9
      ensures Lights()[k] != Lights()[m]
    {
      assert k / 3 != m / 3 || k % 3 != m % 3;
    }
  }

  /** What each scene type holds: the storage room six shelving units,
      three pallets and a safety station; the loading bay three dock doors,
      four pallets and two units; the chemical store two units, six
      barrels, two safety stations and two warning stripes. */
  lemma LayoutCounts(t: SceneType)
    ensures var l := Environment(t).layout;
            t == Storage ==> |l.units| == 6 && |l.pallets| == 3 && |l.doors| == 0 &&
                             |l.barrels| == 0 && |l.stations| == 1 && |l.stripes| == 0
    ensures var l := Environment(t).layout;
            t == Loading ==> |l.units| == 2 && |l.pallets| == 4 && |l.doors| == 3 &&
                             |l.barrels| == 0 && |l.stations| == 0 && |l.stripes| == 0
    ensures var l := Environment(t).layout;
            t == ChemicalStore ==> |l.units| == 2 && |l.pallets| == 0 && |l.doors| == 0 &&
                                   |l.barrels| == 6 && |l.stations| == 2 && |l.stripes| == 2
  {
  }

  /** The loading bay's doors are set 0.3 in front of the back wall, 8
      apart; the two at x = 0 and x = 8 are open and the one at x = -8 is
      closed. */
  lemma DockDoors()
    ensures forall d :: d in LayoutFor(Loading).doors ==>
              d.at.z == -HalfSide + 0.3 && d.at.x in {-8.0, 0.0, 8.0} && (d.open <==> d.at.x != -8.0)
  {
  }

  /** A floor position strictly inside the walls. */
  predicate Inside(p: Vec3) {
    -HalfSide < p.x < HalfSide && -HalfSide < p.z < HalfSide
  }

  /** Every item of the layout stands strictly inside the walls. */
  predicate LayoutInside(l: Layout) {
    && (forall u :: u in l.units ==> Inside(u.at))
    && (forall p :: p in l.pallets ==> Inside(p))
    && (forall d :: d in l.doors ==> Inside(d.at))
    && (forall b :: b in l.barrels ==> Inside(b.at))
    && (forall p :: p in l.stations ==> Inside(p))
    && (forall p :: p in l.stripes ==> Inside(p))
  }

  /** Every light, pillar and item stands strictly inside the walls. */
  lemma InsideWalls(t: SceneType)
    ensures forall p :: p in Environment(t).lights ==> Inside(p)
    ensures forall p :: p in Environment(t).pillars ==> Inside(p)
    ensures LayoutInside(Environment(t).layout)
  {
    var r := Environment(t);
    assert r.lights == Lights() && r.pillars == Pillars && r.layout == LayoutFor(t);
    LightsInside();
    PillarsInside();
    LayoutInsideFor(t);
  }

  /** The safety stations stand against the side walls, half a unit in. */
  lemma StationsAgainstSideWalls(t: SceneType)
    ensures forall p :: p in LayoutFor(t).stations ==> p.x in {-HalfSide + 0.5, HalfSide - 0.5}
  {
  }

  lemma LightsInside()
    ensures forall p :: p in Lights() ==> Inside(p)
  {
    forall p | p in Lights()
      ensures Inside(p)
    {
      var k :| 0 <= k < 9 && Lights()[k] == p;
      assert LightAxis[k / 3] in LightAxis && LightAxis[k % 3] in LightAxis;
    }
  }

  lemma PillarsInside()
    ensures forall p :: p in Pillars ==> Inside(p)
  {
  }

  lemma LayoutInsideFor(t: SceneType)
    ensures LayoutInside(LayoutFor(t))
  {
    match t {
      case Storage => StorageInside();
      case Loading => LoadingInside();
      case ChemicalStore => ChemicalInside();
    }
  }

  lemma StorageInside()
    ensures LayoutInside(LayoutFor(Storage))
  {
  }

  lemma LoadingInside()
    ensures LayoutInside(LayoutFor(Loading))
  {
  }

  lemma ChemicalInside()
    ensures LayoutInside(LayoutFor(ChemicalStore))
  {
  }

}
