/**
 * The collaborative pixel canvas of the PixelWar cog
 * (cogs/pixel_war/__init__.py).
 *
 * State, as the cog keeps it in memory:
 *  - `pixels`: a numpy array of shape [max_x, max_y] of RGB cells, filled
 *    with white, and indexed `[y, x]` (first index y, second x);
 *  - `pixelData`: the provenance ledger, painter, guild, colour number and
 *    time per drawn `(x, y)`, keyed by the coordinates as the user typed them;
 *  - `batchChanges`: the records waiting to be written to the `pixels` table;
 *  - `filledIn`: whether start-up hydration from the table has begun.
 *
 * The palette (`Colors`, cogs/pixel_war/enum.py) is not part of this model:
 * it is taken as a 32-entry sequence of RGB triples whose entry 31 is white.
 * The durable table is modelled as a map keyed by `(x, y)`; the draw
 * cooldown, timers, locks and image encoding are left out.
 */
module PixelWar {
  import opened Common

  type Byte = x: int | 0 <= x < 256

  datatype Rgb = Rgb(r: Byte, g: Byte, b: Byte)

  const White := Rgb(255, 255, 255)

  /** Number of palette entries. */
  const PaletteSize := 32

  /** The palette number of white; hydration leaves such cells unpainted. */
  const WhiteIndex := 31

  /** A wall-clock instant (`datetime.now()`), supplied by the caller. */
  type Time = int

  /** What the ledger keeps for one cell, and the non-key columns of a row
    * of the `pixels` table. */
  datatype PixelInfo = PixelInfo(color: int, painter: string, painterGuild: string, time: Time)

  /** One row of the `pixels` table, and one record of the write-back batch. */
  datatype PixelRow = PixelRow(x: int, y: int, info: PixelInfo)

  function Key(row: PixelRow): (int, int)
  {
    (row.x, row.y)
  }

  // ---------------------------------------------------------------------
  // Ledger and durable table
  // ---------------------------------------------------------------------

  /** The map built by writing each row's info under its `(x, y)` key, in
    * order: what the ledger gains from those rows, and what an upsert
    * leaves in the table. */
  function LedgerOf(rows: seq<PixelRow>): (m: map<(int, int), PixelInfo>)
    ensures forall i :: 0 <= i < |rows| ==> Key(rows[i]) in m
  {
    if rows == [] then map[]
    else
      var last := rows[|rows| - 1];
      LedgerOf(rows[..|rows| - 1])[Key(last) := last.info]
  }

  /** Every key of the ledger built from `rows` is the cell of one of them. */
  lemma {:induction false} LedgerOfKeys(rows: seq<PixelRow>, k: (int, int))
    requires k in LedgerOf(rows)
    ensures exists i :: 0 <= i < |rows| && Key(rows[i]) == k
    decreases |rows|
  {
    var init := rows[..|rows| - 1];
    if k != Key(rows[|rows| - 1]) {
      LedgerOfKeys(init, k);
      var i :| 0 <= i < |init| && Key(init[i]) == k;
      assert init[i] == rows[i];
    }
  }

  /** Appending one row writes its info under its key. */
  lemma LedgerOfSnoc(rows: seq<PixelRow>, row: PixelRow)
    ensures LedgerOf(rows + [row]) == LedgerOf(rows)[Key(row) := row.info]
  {
    assert (rows + [row])[..|rows + [row]| - 1] == rows;
  }

  /** Loading one more row on top of a ledger overwrites that row's cell. */
  lemma LedgerUnionSnoc(base: map<(int, int), PixelInfo>, rows: seq<PixelRow>, row: PixelRow)
    ensures base + LedgerOf(rows + [row]) == (base + LedgerOf(rows))[Key(row) := row.info]
  {
    LedgerOfSnoc(rows, row);
  }

  /** A later row for the same cell wins in the ledger. */
  lemma {:induction false} LedgerOfLastWins(rows: seq<PixelRow>, k: nat)
    requires k < |rows|
    requires forall j :: k < j < |rows| ==> Key(rows[j]) != Key(rows[k])
    ensures LedgerOf(rows)[Key(rows[k])] == rows[k].info
    decreases |rows|
  {
    if k < |rows| - 1 {
      var init := rows[..|rows| - 1];
      assert init[k] == rows[k];
      LedgerOfLastWins(init, k);
    }
  }

  predicate DistinctCells(rows: seq<PixelRow>)
  {
    forall i, j :: 0 <= i < j < |rows| ==> Key(rows[i]) != Key(rows[j])
  }

  /** The durable `pixels` table: one row per primary key `(x, y)`. */
  type Table = map<(int, int), PixelInfo>

  datatype StoreError = CardinalityViolation

  /** The upsert at cogs/pixel_war/__init__.py:61-68 on a table: each row
    * overwrites painter, guild, colour and time of its `(x, y)`. PostgreSQL
    * refuses an `INSERT ... ON CONFLICT DO UPDATE` that reaches the same key
    * twice in one statement, so a batch with two records for one cell is
    * rejected as a whole and the table is unchanged. */
  function Upsert(t: Table, rows: seq<PixelRow>): (r: Result<Table, StoreError>)
    ensures r.Ok? <==> DistinctCells(rows)
    ensures r.Ok? ==> r.value.Keys == t.Keys + LedgerOf(rows).Keys
    ensures r.Ok? ==> forall i :: 0 <= i < |rows| ==> r.value[Key(rows[i])] == rows[i].info
    ensures r.Ok? ==> forall k :: k in t && k !in LedgerOf(rows) ==> r.value[k] == t[k]
  {
    if DistinctCells(rows) then
      assert forall i :: 0 <= i < |rows| ==> LedgerOf(rows)[Key(rows[i])] == rows[i].info by {
        forall i | 0 <= i < |rows| ensures LedgerOf(rows)[Key(rows[i])] == rows[i].info {
          LedgerOfLastWins(rows, i);
        }
      }
      Ok(t + LedgerOf(rows))
    else Err(CardinalityViolation)
  }

  /** Replaying an accepted batch leaves the table as the first upsert did. */
  lemma UpsertIdempotent(t: Table, rows: seq<PixelRow>)
    requires Upsert(t, rows).Ok?
    ensures Upsert(Upsert(t, rows).value, rows) == Upsert(t, rows)
  {
    var t1 := Upsert(t, rows).value;
    assert t1 + LedgerOf(rows) == t1;
  }

  /** Two draws on one cell before a flush: the batch is refused, and the
    * batch (kept, because `clear()` is not reached) is refused again on every
    * later attempt. */
  lemma RepeatedCellIsRejected(t: Table, a: PixelInfo, b: PixelInfo)
    ensures Upsert(t, [PixelRow(1, 1, a), PixelRow(1, 1, b)]) == Err(CardinalityViolation)
  {
    var rows := [PixelRow(1, 1, a), PixelRow(1, 1, b)];
    assert Key(rows[0]) == Key(rows[1]);
  }

  /** The rows of `rows` that are not for cell `k`, in order. */
  function WithoutCell(rows: seq<PixelRow>, k: (int, int)): (r: seq<PixelRow>)
    ensures forall i :: 0 <= i < |r| ==> Key(r[i]) != k
    ensures forall i :: 0 <= i < |r| ==> r[i] in rows
  {
    if rows == [] then []
    else
      var rest := WithoutCell(rows[..|rows| - 1], k);
      var last := rows[|rows| - 1];
      assert forall i :: 0 <= i < |rest| ==> rest[i] in rows by {
        forall i | 0 <= i < |rest| ensures rest[i] in rows {
          assert rest[i] in rows[..|rows| - 1];
        }
      }
      if Key(last) == k then rest else rest + [last]
  }

  lemma {:induction false} LedgerOfWithoutCell(rows: seq<PixelRow>, k: (int, int))
    ensures LedgerOf(WithoutCell(rows, k)) == LedgerOf(rows) - {k}
    decreases |rows|
  {
    if rows != [] {
      var init := rows[..|rows| - 1];
      var last := rows[|rows| - 1];
      LedgerOfWithoutCell(init, k);
      if Key(last) != k {
        var rest := WithoutCell(init, k);
        assert (rest + [last])[..|rest + [last]| - 1] == rest;
      }
    }
  }

  lemma {:induction false} WithoutCellKeepsDistinct(rows: seq<PixelRow>, k: (int, int))
    requires DistinctCells(rows)
    ensures DistinctCells(WithoutCell(rows, k))
    decreases |rows|
  {
    if rows != [] {
      var init := rows[..|rows| - 1];
      var last := rows[|rows| - 1];
      WithoutCellKeepsDistinct(init, k);
      var rest := WithoutCell(init, k);
      if Key(last) != k {
        forall i | 0 <= i < |rest| ensures Key(rest[i]) != Key(last) {
          assert rest[i] in init;
          var j :| 0 <= j < |init| && init[j] == rest[i];
          assert init[j] == rows[j];
        }
      }
    }
  }

  /** The batch cut down to the last record of each cell (the evident intent
    * of the upsert: the latest draw of a cell is the one persisted). */
  function LatestPerCell(rows: seq<PixelRow>): seq<PixelRow>
  {
    if rows == [] then []
    else
      var last := rows[|rows| - 1];
      WithoutCell(LatestPerCell(rows[..|rows| - 1]), Key(last)) + [last]
  }

  lemma DistinctSnoc(rows: seq<PixelRow>, row: PixelRow)
    requires DistinctCells(rows)
    requires forall i :: 0 <= i < |rows| ==> Key(rows[i]) != Key(row)
    ensures DistinctCells(rows + [row])
  {
  }

  /** The cut-down batch has one record per cell. */
  lemma {:induction false} LatestPerCellDistinct(rows: seq<PixelRow>)
    ensures DistinctCells(LatestPerCell(rows))
    decreases |rows|
  {
    if rows != [] {
      var init := rows[..|rows| - 1];
      var last := rows[|rows| - 1];
      LatestPerCellDistinct(init);
      WithoutCellKeepsDistinct(LatestPerCell(init), Key(last));
      DistinctSnoc(WithoutCell(LatestPerCell(init), Key(last)), last);
    }
  }

  /** The cut-down batch builds the same ledger as the whole batch: the last
    * record per cell wins. */
  lemma {:induction false} LatestPerCellLedger(rows: seq<PixelRow>)
    ensures LedgerOf(LatestPerCell(rows)) == LedgerOf(rows)
    decreases |rows|
  {
    if rows != [] {
      var init := rows[..|rows| - 1];
      var last := rows[|rows| - 1];
      LatestPerCellLedger(init);
      var rest := WithoutCell(LatestPerCell(init), Key(last));
      LedgerOfWithoutCell(LatestPerCell(init), Key(last));
      LedgerOfSnoc(rest, last);
    }
  }

  /** The cut-down batch is accepted by the upsert and leaves what applying
    * every record of the batch in order would. */
  lemma LatestPerCellUpsert(t: Table, rows: seq<PixelRow>)
    ensures Upsert(t, LatestPerCell(rows)) == Ok(t + LedgerOf(rows))
  {
    LatestPerCellDistinct(rows);
    LatestPerCellLedger(rows);
  }

  /** `rows` lists table `t`: every stored row exactly once (what
    * `SELECT * FROM pixels` returns, in some order). */
  predicate Lists(rows: seq<PixelRow>, t: Table)
  {
    && DistinctCells(rows)
    && (forall i :: 0 <= i < |rows| ==> Key(rows[i]) in t && t[Key(rows[i])] == rows[i].info)
    && (forall k :: k in t ==> exists i :: 0 <= i < |rows| && Key(rows[i]) == k)
  }

  /** Loading a listing of the table into an empty ledger reproduces the
    * table exactly. */
  lemma ListingLedger(rows: seq<PixelRow>, t: Table)
    requires Lists(rows, t)
    ensures LedgerOf(rows) == t
  {
    var m := LedgerOf(rows);
    forall k | k in m ensures k in t && m[k] == t[k] {
      LedgerOfKeys(rows, k);
      var i :| 0 <= i < |rows| && Key(rows[i]) == k;
      LedgerOfLastWins(rows, i);
    }
    assert m.Keys == t.Keys;
  }

  /** Round trip through the table: if the ledger mirrored the table, then
    * after draws recorded in `batch` and a flush of their latest record per
    * cell, a fresh process that hydrates from the table gets the ledger the
    * drawing process holds. */
  lemma FlushThenHydrate(ledger: Table, batch: seq<PixelRow>, table: Table, listing: seq<PixelRow>)
    requires Upsert(ledger, LatestPerCell(batch)) == Ok(table)
    requires Lists(listing, table)
    ensures map[] + LedgerOf(listing) == ledger + LedgerOf(batch)
  {
    LatestPerCellUpsert(ledger, batch);
    ListingLedger(listing, ledger + LedgerOf(batch));
  }

  // ---------------------------------------------------------------------
  // The draw guard and the viewing window
  // ---------------------------------------------------------------------

  /** The guard at cogs/pixel_war/__init__.py:151 as Python reads the chained
    * comparison `0 >= x >= max_x`: `0 >= x and x >= max_x`. */
  predicate GuardRejects(x: int, y: int, maxX: int, maxY: int)
  {
    (0 >= x && x >= maxX) || (0 >= y && y >= maxY)
  }

  /** The guard rejects only a coordinate squeezed between the canvas size
    * and zero, so on a canvas of positive size it never fires. */
  lemma GuardOnlyWhenDegenerate(x: int, y: int, maxX: int, maxY: int)
    ensures GuardRejects(x, y, maxX, maxY) <==> (maxX <= x <= 0 || maxY <= y <= 0)
    ensures maxX > 0 && maxY > 0 ==> !GuardRejects(x, y, maxX, maxY)
  {
  }

  /** The input that shows it: on a 10 by 10 canvas both `x = -1` and
    * `x = 9` pass the guard and index the same column, while the ledger
    * keeps them under the different keys `(-1, y)` and `(9, y)`. */
  lemma GuardLetsNegativeThrough()
    ensures !GuardRejects(-1, 0, 10, 10) && !GuardRejects(9, 0, 10, 10)
    ensures PyIndex(-1, 10) == PyIndex(9, 10) == Some(9)
    ensures (-1, 0) != (9, 0)
  {
  }

  /** The guard the draw command evidently intends: a coordinate off the
    * canvas on either axis, `not (0 <= x < max_x and 0 <= y < max_y)`. */
  predicate GuardIntended(x: int, y: int, maxX: int, maxY: int)
  {
    !(0 <= x < maxX && 0 <= y < maxY)
  }

  /** A draw the intended guard lets through indexes exactly the typed
    * coordinates, with no wrap-around, so the ledger key and the painted
    * cell agree; and the guard refuses every negative coordinate, which
    * the guard as written lets through on any canvas. */
  lemma GuardIntendedNoWrap(x: int, y: int, maxX: nat, maxY: nat)
    requires maxX > 0 && maxY > 0
    ensures !GuardIntended(x, y, maxX, maxY) <==> PyIndex(x, maxX) == Some(x) && PyIndex(y, maxY) == Some(y)
    ensures x < 0 || y < 0 ==> GuardIntended(x, y, maxX, maxY) && !GuardRejects(x, y, maxX, maxY)
  {
  }

  function Max(a: int, b: int): int { if a >= b then a else b }

  function Min(a: int, b: int): int { if a <= b then a else b }

  /** One axis of the window of `view_canvas`: the slice `[lo, hi)` of the
    * canvas and the padding added before and after it. */
  datatype AxisWindow = AxisWindow(lo: int, hi: int, lead: int, trail: int)
  {
    function Cells(): int { hi - lo }
    function Width(): int { lead + (hi - lo) + trail }
  }

  /** The arithmetic of cogs/pixel_war/__init__.py:122-133 along one axis
    * with centre `c`, radius `r` and canvas bound `bound`. */
  function Window(c: int, r: int, bound: int): AxisWindow
  {
    AxisWindow(Max(0, c - r), Min(bound, c + r + 1), Max(0, r - c), Max(0, c + r - bound - 1))
  }

  /** numpy's slice `[w.lo:w.hi]` on an axis of `length` cells: both ends
    * are clipped to the axis, and a slice that ends before it starts is
    * empty. The padding is computed from the window, not from the array. */
  function Clip(w: AxisWindow, length: int): (c: AxisWindow)
    requires 0 <= w.lo && 0 <= length
    ensures 0 <= c.lo <= c.hi <= length
    ensures c.lead == w.lead && c.trail == w.trail
    ensures w.lo <= w.hi <= length ==> c == w
    ensures w.lo >= length ==> c.Cells() == 0
  {
    var lo := Min(w.lo, length);
    AxisWindow(lo, Max(lo, Min(w.hi, length)), w.lead, w.trail)
  }

  /** Why `view_canvas` sends no picture. `cv2.resize` (:138) raises when
    * its target size `(1 + 2 * radius) * 20` (:127) is not positive, which
    * a negative radius gives, and when the padded image it is handed has
    * no rows or no columns. */
  datatype ViewError = CentreOutside | RadiusTooLarge | ResizeFails

  /** The rows (y) and columns (x) of the window `view_canvas` renders. */
  datatype View = View(rows: AxisWindow, cols: AxisWindow)

  /** The padded image has no rows or no columns. */
  predicate EmptyImage(v: View)
  {
    v.rows.Width() <= 0 || v.cols.Width() <= 0
  }

  /** The checks and window of `view_canvas` (cogs/pixel_war/__init__.py:
    * 118-138), before encoding. The array has shape `[maxX, maxY]` (:44)
    * but is sliced `[y, x]` (:128), so the rows the window asks for,
    * bounded by `maxY`, are clipped to `maxX` rows, and the columns,
    * bounded by `maxX`, to `maxY` columns. */
  function ViewCanvas(x: int, y: int, radius: int, maxX: int, maxY: int): (r: Result<View, ViewError>)
    ensures r == Err(CentreOutside) <==> !(0 <= x <= maxX && 0 <= y <= maxY)
    ensures r == Err(RadiusTooLarge) <==> 0 <= x <= maxX && 0 <= y <= maxY && radius > 100
    ensures r == Err(ResizeFails) <==>
              && 0 <= x <= maxX && 0 <= y <= maxY && radius <= 100
              && (radius < 0 || EmptyImage(View(Clip(Window(y, radius, maxY), maxX), Clip(Window(x, radius, maxX), maxY))))
    ensures r.Ok? ==> 0 <= radius <= 100 && !EmptyImage(r.value)
    ensures r.Ok? ==> r.value == View(Clip(Window(y, radius, maxY), maxX), Clip(Window(x, radius, maxX), maxY))
  {
    if !(0 <= x <= maxX && 0 <= y <= maxY) then Err(CentreOutside)
    else if radius > 100 then Err(RadiusTooLarge)
    else if radius < 0 then Err(ResizeFails)
    else
      var v := View(Clip(Window(y, radius, maxY), maxX), Clip(Window(x, radius, maxX), maxY));
      if EmptyImage(v) then Err(ResizeFails) else Ok(v)
  }

  /** On a square canvas the clipping never bites: the rendered slices are
    * the windows the arithmetic computes. */
  lemma ViewSquareUnclipped(x: int, y: int, radius: int, size: int)
    requires ViewCanvas(x, y, radius, size, size).Ok?
    ensures ViewCanvas(x, y, radius, size, size).value == View(Window(y, radius, size), Window(x, radius, size))
  {
    WindowBefore(y, radius, size);
    WindowBefore(x, radius, size);
  }

  /** Along one axis of a square canvas the padded window is empty exactly
    * for radius 0 at a centre one past the last cell. */
  lemma WindowEmptyAtBound(c: int, r: int, bound: int)
    requires 0 <= c <= bound && 0 <= r
    ensures Window(c, r, bound).Width() <= 0 <==> r == 0 && c == bound
  {
    WindowBefore(c, r, bound);
  }

  /** The centre check admits `x == max_x` and `y == max_y`, one past the
    * last cell; on a square canvas the resize then fails exactly when the
    * radius is 0, and for no other accepted centre and radius. */
  lemma ViewSquareEmptyAtEdge(x: int, y: int, radius: int, size: int)
    requires 0 <= x <= size && 0 <= y <= size && 0 <= radius <= 100
    ensures ViewCanvas(x, y, radius, size, size) == Err(ResizeFails) <==> radius == 0 && (x == size || y == size)
  {
    WindowBefore(y, radius, size);
    WindowBefore(x, radius, size);
    WindowEmptyAtBound(y, radius, size);
    WindowEmptyAtBound(x, radius, size);
  }

  /** The input that shows it: a 10 by 10 canvas, centre `(10, 0)`,
    * radius 0 passes both checks and slices no column. */
  lemma ViewAtEdgeFails()
    ensures Window(10, 0, 10).Cells() == 0 && Window(10, 0, 10).Width() == 0
    ensures ViewCanvas(10, 0, 0, 10, 10) == Err(ResizeFails)
  {
  }

  /** On a canvas wider than it is tall the rows run out: with `max_x = 5`,
    * `max_y = 10`, centre `(0, 8)` and radius 1 both checks pass, and the
    * window asks for rows 7 to 9, which the intended shape renders; the
    * 5-row array yields none of them, and the resize of the empty image
    * fails. */
  lemma ViewNonSquareDropsRows()
    ensures ViewCanvasIntended(0, 8, 1, 5, 10).Ok?
    ensures ViewCanvasIntended(0, 8, 1, 5, 10).value.rows == AxisWindow(7, 10, 0, 0)
    ensures Clip(Window(8, 1, 10), 5).Cells() == 0
    ensures ViewCanvas(0, 8, 1, 5, 10) == Err(ResizeFails)
  {
  }

  /** `view_canvas` as its indexing assumes it: an array of shape
    * `[maxY, maxX]`, so rows are clipped to `maxY` and columns to `maxX`,
    * and a centre on a cell of the canvas, `0 <= x < maxX`. */
  function ViewCanvasIntended(x: int, y: int, radius: int, maxX: int, maxY: int): Result<View, ViewError>
  {
    if !(0 <= x < maxX && 0 <= y < maxY) then Err(CentreOutside)
    else if radius > 100 then Err(RadiusTooLarge)
    else if radius < 0 then Err(ResizeFails)
    else
      var v := View(Clip(Window(y, radius, maxY), maxY), Clip(Window(x, radius, maxX), maxX));
      if EmptyImage(v) then Err(ResizeFails) else Ok(v)
  }

  /** With that shape and centre check the resize fails only for a negative
    * radius; every accepted view renders the whole window on both axes,
    * square canvas or not, and agrees with the code as written whenever
    * the canvas is square and the centre is on it. */
  lemma ViewIntendedUnclipped(x: int, y: int, radius: int, maxX: int, maxY: int)
    requires 0 <= x < maxX && 0 <= y < maxY && radius <= 100
    ensures ViewCanvasIntended(x, y, radius, maxX, maxY) == Err(ResizeFails) <==> radius < 0
    ensures radius >= 0 ==> ViewCanvasIntended(x, y, radius, maxX, maxY) == Ok(View(Window(y, radius, maxY), Window(x, radius, maxX)))
    ensures maxX == maxY ==> ViewCanvasIntended(x, y, radius, maxX, maxY) == ViewCanvas(x, y, radius, maxX, maxY)
  {
    if radius >= 0 {
      WindowBefore(y, radius, maxY);
      WindowBefore(x, radius, maxX);
      WindowEmptyAtBound(y, radius, maxY);
      WindowEmptyAtBound(x, radius, maxX);
    }
  }

  /** The slice never extends beyond the canvas, and together with the
    * leading padding it places exactly `r` cells before the centre. */
  lemma WindowBefore(c: int, r: int, bound: int)
    requires 0 <= c <= bound && 0 <= r
    ensures var w := Window(c, r, bound);
      0 <= w.lo <= c && w.lo <= w.hi <= bound && w.lead + (c - w.lo) == r
  {
  }

  /** A window that lies inside the canvas is taken whole and not padded. */
  lemma WindowInside(c: int, r: int, bound: int)
    requires 0 <= r <= c && c + r < bound
    ensures var w := Window(c, r, bound);
      w.lead == 0 && w.trail == 0 && w.lo == c - r && w.hi == c + r + 1
  {
  }

  /** The window as written is `2r+1` wide only when it does not reach the
    * far edge; at the far edge the trailing padding is one or two cells
    * short, so the image is not centred on `c` before the resize. */
  lemma {:induction false} WindowWidthAsWritten(c: int, r: int, bound: int)
    requires 0 <= c <= bound && 0 <= r
    ensures Window(c, r, bound).Width()
         == 2 * r + 1 - (if c + r + 1 <= bound then 0 else if c + r == bound then 1 else 2)
  {
    WindowBefore(c, r, bound);
  }

  /** The input that shows it: a 10-cell canvas, centre 9, radius 3. */
  lemma WindowShortAtFarEdge()
    ensures Window(9, 3, 10).Width() == 5
    ensures Window(9, 3, 10).lead + (9 - Window(9, 3, 10).lo) == 3
  {
  }

  /** The window with the trailing padding the layout needs:
    * `max(0, c + r + 1 - bound)`. */
  function WindowIntended(c: int, r: int, bound: int): AxisWindow
  {
    AxisWindow(Max(0, c - r), Min(bound, c + r + 1), Max(0, r - c), Max(0, c + r + 1 - bound))
  }

  /** With that padding the window is always `2r+1` wide with the centre in
    * the middle: `r` cells before it and `r` after. */
  lemma {:induction false} WindowIntendedSquare(c: int, r: int, bound: int)
    requires 0 <= c < bound && 0 <= r
    ensures var w := WindowIntended(c, r, bound);
      && w.Width() == 2 * r + 1
      && w.lead + (c - w.lo) == r
      && (w.hi - c - 1) + w.trail == r
      && w.lo <= c < w.hi
  {
    WindowBefore(c, r, bound);
  }

  // ---------------------------------------------------------------------
  // The cog
  // ---------------------------------------------------------------------

  datatype DrawResult =
    | OutOfRange        // the guard at :151 (only on a degenerate canvas)
    | UnsupportedColor  // IndexError from `Colors[color]` or `pixels[y, x]` (:154-156)
    | NoGuild           // no guild to name: the cell is painted, then :162 raises
    | Drawn             // :157-171

  datatype PixelReport = NotPainted | PaintedBy(info: PixelInfo)

  /** What one stored row does to the canvas during hydration. */
  datatype RowEffect = KeepWhite | Paint(i: nat, j: nat, rgb: Rgb) | IndexFailure

  datatype FlushOutcome =
    | Idle             // empty batch: nothing is sent
    | ConnectionLost   // execute raised a connection error; the loop retries
    | Rejected         // PostgreSQL refused the batch; the loop stops
    | Sent(rows: seq<PixelRow>)

  datatype TickOutcome =
    | Stopped                    // the loop was stopped by cog_unload or an error
    | FetchFailed                // the hydration query raised a connection error
    | HydrationAborted(row: nat) // IndexError while painting that stored row
    | Flushed(flush: FlushOutcome)

  /** What `bulk_insert` does with a batch (cogs/pixel_war/__init__.py:70-75). */
  function FlushResult(batch: seq<PixelRow>, connected: bool): FlushOutcome
  {
    if batch == [] then Idle
    else if !connected then ConnectionLost
    else if !DistinctCells(batch) then Rejected
    else Sent(batch)
  }

  class PixelWar {
    const colors: seq<Rgb>
    const maxX: nat
    const maxY: nat
    /** Shape [maxX, maxY], indexed [y, x]. */
    const pixels: array2<Rgb>
    var pixelData: map<(int, int), PixelInfo>
    var batchChanges: seq<PixelRow>
    var filledIn: bool
    /** Whether `bulk_insert_loop` is still scheduled. */
    var looping: bool
    /** Hydrations begun so far. */
    ghost var hydrations: nat
    /** Batches handed to the table by the loop so far. */
    ghost var flushes: nat

    ghost predicate Valid()
      reads this
    {
      && |colors| == PaletteSize
      && colors[WhiteIndex] == White
      && pixels.Length0 == maxX
      && pixels.Length1 == maxY
      && hydrations <= 1
      && (looping ==> (filledIn <==> hydrations == 1))
      && (flushes > 0 ==> hydrations == 1)
    }

    /** `PixelWar.__init__` (:34-46): a white canvas, an empty ledger and
      * batch, hydration not yet begun, the loop started. */
    constructor (colors: seq<Rgb>, maxX: nat, maxY: nat)
      requires |colors| == PaletteSize && colors[WhiteIndex] == White
      ensures Valid() && fresh(pixels)
      ensures this.colors == colors && this.maxX == maxX && this.maxY == maxY
      ensures forall i, j :: 0 <= i < maxX && 0 <= j < maxY ==> pixels[i, j] == White
      ensures pixelData == map[] && batchChanges == []
      ensures !filledIn && looping && hydrations == 0 && flushes == 0
    {
      this.colors := colors;
      this.maxX := maxX;
      this.maxY := maxY;
      pixels := new Rgb[maxX, maxY]((i, j) => White);
      pixelData := map[];
      batchChanges := [];
      filledIn := false;
      looping := true;
      hydrations := 0;
      flushes := 0;
    }

    /** The cell `pixels[y, x]` addresses, under Python's negative-index
      * wrap on each axis; None where numpy raises IndexError. */
    function CellOf(x: int, y: int): (r: Option<(nat, nat)>)
      ensures r.Some? <==> -(maxX as int) <= y < maxX && -(maxY as int) <= x < maxY
      ensures r.Some? ==> r.value.0 < maxX && r.value.1 < maxY
      ensures r.Some? && 0 <= x && 0 <= y ==> r.value == (y, x)
    {
      match (PyIndex(y, maxX), PyIndex(x, maxY))
      case (Some(i), Some(j)) => Some((i, j))
      case _ => None
    }

    /** `check_pixel` (:183-186): the ledger entry for the coordinates as
      * typed, or the "not painted yet" reply. */
    function CheckPixel(x: int, y: int): (r: PixelReport)
      reads this
      ensures r == NotPainted <==> (x, y) !in pixelData
      ensures r.PaintedBy? ==> r.info == pixelData[(x, y)]
    {
      if (x, y) in pixelData then PaintedBy(pixelData[(x, y)]) else NotPainted
    }

    /** `draw_canvas` (:149-171), with the cooldown, the confirmation and the
      * reminder left out. The guard is the chained comparison; the real
      * bounds check is numpy's IndexError, under which negative coordinates
      * wrap to the far side. A draw without a guild paints the cell and
      * then fails before the batch and the ledger are written. */
    method Draw(x: int, y: int, color: int, painter: string, guild: Option<string>, now: Time)
      returns (r: DrawResult)
      requires Valid()
      modifies this`pixelData, this`batchChanges, pixels
      ensures Valid()
      ensures r == OutOfRange <==> GuardRejects(x, y, maxX, maxY)
      ensures r == UnsupportedColor <==>
        !GuardRejects(x, y, maxX, maxY) && (PyIndex(color, PaletteSize).None? || CellOf(x, y).None?)
      ensures r == NoGuild <==> !GuardRejects(x, y, maxX, maxY) && PyIndex(color, PaletteSize).Some?
                                && CellOf(x, y).Some? && guild.None?
      ensures r == OutOfRange || r == UnsupportedColor ==>
        unchanged(this) && unchanged(pixels)
      ensures r == NoGuild || r == Drawn ==>
        forall i, j :: 0 <= i < maxX && 0 <= j < maxY ==>
          pixels[i, j] == (if (i, j) == CellOf(x, y).value
                           then colors[PyIndex(color, PaletteSize).value] else old(pixels[i, j]))
      ensures r != Drawn ==> batchChanges == old(batchChanges) && pixelData == old(pixelData)
      ensures r == Drawn ==>
        && batchChanges == old(batchChanges) + [PixelRow(x, y, PixelInfo(color, painter, guild.value, now))]
        && pixelData == old(pixelData)[(x, y) := PixelInfo(color, painter, guild.value, now)]
        && CheckPixel(x, y) == PaintedBy(PixelInfo(color, painter, guild.value, now))
    {
      if GuardRejects(x, y, maxX, maxY) {
        return OutOfRange;
      }
      var c := PyIndex(color, PaletteSize);
      var cell := CellOf(x, y);
      if c.None? || cell.None? {
        return UnsupportedColor;
      }
      pixels[cell.value.0, cell.value.1] := colors[c.value];
      if guild.None? {
        return NoGuild;
      }
      var info := PixelInfo(color, painter, guild.value, now);
      batchChanges := batchChanges + [PixelRow(x, y, info)];
      pixelData := pixelData[(x, y) := info];
      r := Drawn;
    }

    /** What hydrating `row` does to the canvas (:87-89): white is skipped
      * without indexing anything; otherwise `Colors[color]` and
      * `pixels[y, x]` must both index. */
    function EffectOf(row: PixelRow): (e: RowEffect)
      ensures e.Paint? ==> e.i < maxX && e.j < maxY
      ensures e == KeepWhite <==> row.info.color == WhiteIndex
    {
      if row.info.color == WhiteIndex then KeepWhite
      else match (PyIndex(row.info.color, |colors|), CellOf(row.x, row.y))
        case (Some(c), Some(cell)) => Paint(cell.0, cell.1, colors[c])
        case _ => IndexFailure
    }

    /** The colour of cell `(i, j)` after painting `rows` in order over
      * `base`: the last row that paints it wins. */
    function Painted(rows: seq<PixelRow>, i: nat, j: nat, base: Rgb): Rgb
    {
      if rows == [] then base
      else
        var e := EffectOf(rows[|rows| - 1]);
        if e.Paint? && e.i == i && e.j == j then e.rgb
        else Painted(rows[..|rows| - 1], i, j, base)
    }

    /** Painting one more row changes only the cell it paints. */
    lemma PaintedSnoc(rows: seq<PixelRow>, row: PixelRow, i: nat, j: nat, base: Rgb)
      ensures Painted(rows + [row], i, j, base)
           == (var e := EffectOf(row); if e.Paint? && e.i == i && e.j == j then e.rgb else Painted(rows, i, j, base))
    {
      assert (rows + [row])[..|rows|] == rows;
    }

    /** A cell that no row paints keeps its colour. */
    lemma {:induction false} PaintedUntouched(rows: seq<PixelRow>, i: nat, j: nat, base: Rgb)
      requires forall k :: 0 <= k < |rows| ==> !(EffectOf(rows[k]).Paint? && EffectOf(rows[k]).i == i && EffectOf(rows[k]).j == j)
      ensures Painted(rows, i, j, base) == base
      decreases |rows|
    {
      if rows != [] {
        PaintedUntouched(rows[..|rows| - 1], i, j, base);
      }
    }

    /** A cell takes the colour of the last row that paints it. */
    lemma {:induction false} PaintedByLast(rows: seq<PixelRow>, k: nat, base: Rgb)
      requires k < |rows| && EffectOf(rows[k]).Paint?
      requires forall m :: k < m < |rows| ==>
        !(EffectOf(rows[m]).Paint? && EffectOf(rows[m]).i == EffectOf(rows[k]).i && EffectOf(rows[m]).j == EffectOf(rows[k]).j)
      ensures Painted(rows, EffectOf(rows[k]).i, EffectOf(rows[k]).j, base) == EffectOf(rows[k]).rgb
      decreases |rows|
    {
      if k < |rows| - 1 {
        var init := rows[..|rows| - 1];
        assert init[k] == rows[k];
        PaintedByLast(init, k, base);
      }
    }

    /** `fill_in_pixels` (:77-90) on the rows the query returned: each row
      * goes into the ledger, then is painted unless it is white. An
      * IndexError stops the loop after that row's ledger write. */
    method FillInPixels(rows: seq<PixelRow>) returns (failedAt: Option<nat>)
      requires Valid()
      modifies this`pixelData, pixels
      ensures Valid()
      ensures var done := if failedAt.Some? then failedAt.value else |rows|;
        && done <= |rows|
        && (forall k :: 0 <= k < done ==> EffectOf(rows[k]) != IndexFailure)
        && (failedAt.Some? ==> failedAt.value < |rows| && EffectOf(rows[failedAt.value]) == IndexFailure)
        && pixelData == old(pixelData) + LedgerOf(rows[..if failedAt.Some? then done + 1 else done])
        && (forall i, j :: 0 <= i < maxX && 0 <= j < maxY ==>
              pixels[i, j] == Painted(rows[..done], i, j, old(pixels[i, j])))
    {
      failedAt := None;
      var k := 0;
      while k < |rows|
        invariant 0 <= k <= |rows|
        invariant forall m :: 0 <= m < k ==> EffectOf(rows[m]) != IndexFailure
        invariant pixelData == old(pixelData) + LedgerOf(rows[..k])
        invariant forall i, j :: 0 <= i < maxX && 0 <= j < maxY ==>
          pixels[i, j] == Painted(rows[..k], i, j, old(pixels[i, j]))
      {
        var row := rows[k];
        assert rows[..k + 1] == rows[..k] + [row];
        LedgerUnionSnoc(old(pixelData), rows[..k], row);
        var ok := HydrateRow(row);
        if !ok {
          failedAt := Some(k);
          return;
        }
        forall i, j | 0 <= i < maxX && 0 <= j < maxY
          ensures pixels[i, j] == Painted(rows[..k + 1], i, j, old(pixels[i, j]))
        {
          PaintedSnoc(rows[..k], row, i, j, old(pixels[i, j]));
        }
        k := k + 1;
      }
      assert rows[..k] == rows;
    }

    /** One pass of the hydration loop (:81-89): the ledger entry is
      * written first, then the cell is painted unless the row is white;
      * `ok` is false when the colour or the cell fails to index. */
    method HydrateRow(row: PixelRow) returns (ok: bool)
      requires Valid()
      modifies this`pixelData, pixels
      ensures Valid()
      ensures pixelData == old(pixelData)[Key(row) := row.info]
      ensures ok <==> EffectOf(row) != IndexFailure
      ensures forall i, j :: 0 <= i < maxX && 0 <= j < maxY ==>
        pixels[i, j] == (var e := EffectOf(row); if e.Paint? && e.i == i && e.j == j then e.rgb else old(pixels[i, j]))
    {
      pixelData := pixelData[Key(row) := row.info];
      var e := EffectOf(row);
      if e == IndexFailure {
        return false;
      }
      if e.Paint? {
        pixels[e.i, e.j] := e.rgb;
      }
      ok := true;
    }

    /** `bulk_insert` (:60-75): an empty batch sends nothing; otherwise the
      * whole batch goes out as one upsert and is cleared only once execute
      * has returned, so a failed execute keeps it for the next attempt. */
    method BulkInsert(connected: bool) returns (outcome: FlushOutcome)
      requires Valid()
      modifies this`batchChanges
      ensures Valid()
      ensures outcome == FlushResult(old(batchChanges), connected)
      ensures batchChanges == if outcome.Sent? then [] else old(batchChanges)
    {
      if batchChanges == [] {
        return Idle;
      }
      if !connected {
        return ConnectionLost;
      }
      if !DistinctCells(batchChanges) {
        return Rejected;
      }
      outcome := Sent(batchChanges);
      batchChanges := [];
    }

    /** One pass of `bulk_insert_loop` (:52-58). `fetched` is the result of
      * the hydration query (None: it raised a connection error) and
      * `connected` whether the upsert reaches the database. The first pass
      * sets `filledIn` before hydrating, so hydration is attempted at most
      * once and before any batch is flushed; an error other than a
      * connection error ends the loop. */
    method Tick(fetched: Option<seq<PixelRow>>, connected: bool) returns (outcome: TickOutcome)
      requires Valid()
      modifies this, pixels
      ensures Valid()
      ensures !old(looping) ==> outcome == Stopped && unchanged(this) && unchanged(pixels)
      ensures old(looping) ==> filledIn && hydrations == 1
      ensures hydrations == old(hydrations) + (if old(looping) && !old(filledIn) then 1 else 0)
      ensures old(looping) && old(filledIn) ==>
        && unchanged(pixels) && pixelData == old(pixelData)
        && outcome == Flushed(FlushResult(old(batchChanges), connected))
      ensures old(looping) && !old(filledIn) && fetched.None? ==>
        outcome == FetchFailed && unchanged(pixels) && pixelData == old(pixelData)
        && batchChanges == old(batchChanges) && looping
      ensures old(looping) && !old(filledIn) && fetched.Some? && outcome.HydrationAborted? ==>
        var rows := fetched.value;
        var k := outcome.row;
        && k < |rows| && EffectOf(rows[k]) == IndexFailure
        && (forall m :: 0 <= m < k ==> EffectOf(rows[m]) != IndexFailure)
        && pixelData == old(pixelData) + LedgerOf(rows[..k + 1])
        && (forall i, j :: 0 <= i < maxX && 0 <= j < maxY ==>
              pixels[i, j] == Painted(rows[..k], i, j, old(pixels[i, j])))
        && batchChanges == old(batchChanges)
      ensures old(looping) && !old(filledIn) && fetched.Some? && !outcome.HydrationAborted? ==>
        var rows := fetched.value;
        && (forall m :: 0 <= m < |rows| ==> EffectOf(rows[m]) != IndexFailure)
        && pixelData == old(pixelData) + LedgerOf(rows)
        && (forall i, j :: 0 <= i < maxX && 0 <= j < maxY ==>
              pixels[i, j] == Painted(rows, i, j, old(pixels[i, j])))
        && outcome == Flushed(FlushResult(old(batchChanges), connected))
      ensures outcome.Flushed? ==> batchChanges == (if outcome.flush.Sent? then [] else old(batchChanges))
      ensures looping <==> old(looping) && !outcome.HydrationAborted? && outcome != Flushed(Rejected)
      ensures flushes == old(flushes) + (if outcome.Flushed? && outcome.flush.Sent? then 1 else 0)
    {
      if !looping {
        return Stopped;
      }
      if !filledIn {
        filledIn := true;
        hydrations := hydrations + 1;
        if fetched.None? {
          return FetchFailed;
        }
        var failedAt := FillInPixels(fetched.value);
        if failedAt.Some? {
          looping := false;
          return HydrationAborted(failedAt.value);
        }
        assert fetched.value[..|fetched.value|] == fetched.value;
      }
      var flush := BulkInsert(connected);
      if flush == Rejected {
        looping := false;
      }
      if flush.Sent? {
        flushes := flushes + 1;
      }
      outcome := Flushed(flush);
    }

    /** `cog_unload` (:48-50): clears `filledIn` and stops the loop. */
    method CogUnload()
      requires Valid()
      modifies this`filledIn, this`looping
      ensures Valid()
      ensures !filledIn && !looping
    {
      filledIn := false;
      looping := false;
    }
  }
}
