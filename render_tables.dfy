/** The tables the render engine builds once at construction: the
    full-screen quad's index list, the mask geometry's line coefficients and
    index list, and the tile-origin lookup table for a 20 by 19 tile map of
    16-pixel tiles. */
module RenderTables {
  import opened HostTypes

  const TileSize: nat := 16
  /** 320 / 16 tile columns and 304 / 16 tile rows. */
  const MapColumns: nat := 20
  const MapRows: nat := 19
  const TileCount: nat := 380

  /** The two triangles (b, b+1, b+3) and (b+1, b+2, b+3) that cover the
      quad with corners b .. b+3. */
  function QuadTriangles(b: uint32): (r: seq<uint32>)
    requires b as int + 3 < 0x1_0000_0000
    ensures |r| == 6 && forall k :: 0 <= k < 6 ==> b <= r[k] <= b + 3
  {
    [b, b + 1, b + 3, b + 1, b + 2, b + 3]
  }

  /** Indices of the full-screen quad. */
  function ScreenIndices(): (r: seq<uint32>)
    ensures |r| == 6 && forall k :: 0 <= k < |r| ==> r[k] < 4
  {
    [0, 1, 3,
     1, 2, 3]
  }

  /** Indices of the mask geometry: three quads of four coefficient rows. */
  function MaskIndices(): (r: seq<uint32>)
    ensures |r| == 18 && forall k :: 0 <= k < |r| ==> r[k] < 12
  {
    [0, 1, 3,
     1, 2, 3,
     4, 5, 7,
     5, 6, 7,
     8, 9, 11,
     9, 10, 11]
  }

  /** One row of the mask coefficient table: the coefficients of two line
      equations, (l, r, const) for x and (b, t, const) for y. */
  datatype CoefficientRow = CoefficientRow(l: uint32, r: uint32, cx: uint32, b: uint32, t: uint32, cy: uint32)

  /** A row whose selector coefficients are 0 or 1, whose x constant is 0
      or the width and whose y constant is 0 or the height. */
  predicate SelectorRow(row: CoefficientRow, width: uint32, height: uint32)
  {
    row.l <= 1 && row.r <= 1 && row.b <= 1 && row.t <= 1 &&
    (row.cx == 0 || row.cx == width) && (row.cy == 0 || row.cy == height)
  }

  /** The mask coefficient table: one row per mask vertex. */
  function MaskCoefficients(width: uint32, height: uint32): (rows: seq<CoefficientRow>)
    ensures |rows| == 12
    ensures forall k :: 0 <= k < |rows| ==> SelectorRow(rows[k], width, height)
  {
    [CoefficientRow(0, 1, 0,      0, 0, height),
     CoefficientRow(0, 1, 0,      0, 1, 0),
     CoefficientRow(1, 0, 0,      0, 1, 0),
     CoefficientRow(1, 0, 0,      0, 0, height),

     CoefficientRow(0, 0, width,  0, 1, 0),
     CoefficientRow(0, 0, width,  1, 0, 0),
     CoefficientRow(0, 0, 0,      1, 0, 0),
     CoefficientRow(0, 0, 0,      0, 1, 0),

     CoefficientRow(0, 1, 0,      1, 0, 0),
     CoefficientRow(0, 1, 0,      0, 0, 0),
     CoefficientRow(1, 0, 0,      0, 0, 0),
     CoefficientRow(1, 0, 0,      1, 0, 0)]
  }

  /** Column `c` of a row, in the order l, r, const, b, t, const. */
  function Column(row: CoefficientRow, c: int): uint32
  {
    if c == 0 then row.l else if c == 1 then row.r else if c == 2 then row.cx
    else if c == 3 then row.b else if c == 4 then row.t else row.cy
  }

  /** The table as the flat, row-major unsigned-int array it is uploaded as. */
  function RowWords(rows: seq<CoefficientRow>): (ws: seq<uint32>)
    ensures |ws| == 6 * |rows|
  {
    seq(6 * |rows|, k requires 0 <= k < 6 * |rows| => Column(rows[k / 6], k % 6))
  }

  /** The full-screen quad's indices are the two triangles of quad 0..3. */
  lemma ScreenIndexTable()
    ensures ScreenIndices() == QuadTriangles(0)
  {
  }

  /** The mask indices form, block by block, the two triangles of quads
      0..3, 4..7 and 8..11, and use every one of the 12 rows. */
  lemma MaskIndexTable()
    ensures MaskIndices() == QuadTriangles(0) + QuadTriangles(4) + QuadTriangles(8)
    ensures forall v: uint32 :: v < 12 ==> v in MaskIndices()
  {
    var m := MaskIndices();
    assert m[0] == 0 && m[1] == 1 && m[4] == 2 && m[2] == 3 && m[6] == 4 && m[7] == 5;
    assert m[10] == 6 && m[8] == 7 && m[12] == 8 && m[13] == 9 && m[16] == 10 && m[14] == 11;
  }

  /** The five values a row may contain. */
  predicate FromScreen(v: uint32, width: uint32, height: uint32)
  {
    v == 0 || v == 1 || v == width || v == height
  }

  /** The table's 12 rows flatten to 72 words, each one of 0, 1, width
      and height. */
  lemma MaskCoefficientTable(width: uint32, height: uint32)
    ensures |RowWords(MaskCoefficients(width, height))| == 72
    ensures forall k :: 0 <= k < 72 ==> FromScreen(RowWords(MaskCoefficients(width, height))[k], width, height)
  {
    var rows := MaskCoefficients(width, height);
    RowWordsFromScreen(rows, width, height);
  }

  /** A table whose rows have 0/1 selectors and 0/width, 0/height
      constants flattens to words that are all 0, 1, width or height. */
  lemma RowWordsFromScreen(rows: seq<CoefficientRow>, width: uint32, height: uint32)
    requires forall k :: 0 <= k < |rows| ==> SelectorRow(rows[k], width, height)
    ensures forall k :: 0 <= k < |RowWords(rows)| ==> FromScreen(RowWords(rows)[k], width, height)
  {
    forall k | 0 <= k < |RowWords(rows)|
      ensures FromScreen(RowWords(rows)[k], width, height)
    {
      var row := rows[k / 6];
      assert row.l <= 1 && row.r <= 1 && row.b <= 1 && row.t <= 1;
    }
  }

  /** The slot that tile (i, j) is written to: row-major, so a tile of the
      map has a slot in [0, 380) from which its column and row come back. */
  function Slot(i: int, j: int): (k: int)
    ensures 0 <= i < MapColumns && 0 <= j < MapRows ==>
              0 <= k < TileCount && k % MapColumns == i && k / MapColumns == j
  {
    var k := i + MapColumns * j;
    assert 0 <= i < MapColumns && 0 <= j < MapRows ==> k / MapColumns == j && k % MapColumns == i;
    k
  }

  /** Closed form of slot k of the tile table: a tile-aligned pixel inside
      the 320 by 304 map, and the origin of the tile whose slot is k. */
  function TileOrigin(k: nat): (o: UVec2)
    requires k < TileCount
    ensures o.x as int % TileSize == 0 && o.y as int % TileSize == 0
    ensures o.x as int < TileSize * MapColumns && o.y as int < TileSize * MapRows
    ensures Slot(o.x as int / TileSize, o.y as int / TileSize) == k
  {
    UVec2((TileSize * (k % MapColumns)) as uint32, (TileSize * (k / MapColumns)) as uint32)
  }

  function TileTable(): (t: seq<UVec2>)
    ensures |t| == TileCount
  {
    seq(TileCount, k requires 0 <= k < TileCount => TileOrigin(k))
  }

  /** Slot (i, j) lies in the table and holds (16 i, 16 j). */
  lemma TileOriginAt(i: int, j: int)
    requires 0 <= i < MapColumns && 0 <= j < MapRows
    ensures 0 <= Slot(i, j) < TileCount
    ensures TileOrigin(Slot(i, j)) == UVec2((TileSize * i) as uint32, (TileSize * j) as uint32)
  {
    var k := Slot(i, j);
    assert k / MapColumns == j && k % MapColumns == i by {
      assert k == i + MapColumns * j;
    }
  }

  /** Distinct tiles are written to distinct slots ... */
  lemma SlotsDistinct(i1: int, j1: int, i2: int, j2: int)
    requires 0 <= i1 < MapColumns && 0 <= j1 < MapRows
    requires 0 <= i2 < MapColumns && 0 <= j2 < MapRows
    requires Slot(i1, j1) == Slot(i2, j2)
    ensures i1 == i2 && j1 == j2
  {
    TileOriginAt(i1, j1);
    TileOriginAt(i2, j2);
  }

  /** ... and every slot is the slot of some tile. */
  lemma SlotsCovered(k: int)
    requires 0 <= k < TileCount
    ensures 0 <= k % MapColumns < MapColumns && 0 <= k / MapColumns < MapRows
    ensures Slot(k % MapColumns, k / MapColumns) == k
  {
  }

  /** The constructor's nested loop, over rows j and then columns i, filling
      a 380-entry array in place. `writes` counts, per slot, how often the
      loop writes it. */
  method BuildTileIndices() returns (tiles: seq<UVec2>, ghost writes: seq<nat>)
    ensures tiles == TileTable()
    ensures forall i, j :: 0 <= i < MapColumns && 0 <= j < MapRows ==>
              tiles[Slot(i, j)] == UVec2((TileSize * i) as uint32, (TileSize * j) as uint32)
    ensures |writes| == TileCount && forall k :: 0 <= k < TileCount ==> writes[k] == 1
  {
    var a := new UVec2[TileCount];
    writes := seq(TileCount, _ => 0);
    var j := 0;
    while j < MapRows
      invariant 0 <= j <= MapRows
      invariant |writes| == TileCount
      invariant forall k :: 0 <= k < MapColumns * j ==> a[k] == TileOrigin(k)
      invariant forall k :: 0 <= k < TileCount ==> writes[k] == if k < MapColumns * j then 1 else 0
    {
      var i := 0;
      while i < MapColumns
        invariant 0 <= i <= MapColumns
        invariant |writes| == TileCount
        invariant forall k :: 0 <= k < MapColumns * j + i ==> a[k] == TileOrigin(k)
        invariant forall k :: 0 <= k < TileCount ==> writes[k] == if k < MapColumns * j + i then 1 else 0
      {
        TileOriginAt(i, j);
        a[i + MapColumns * j] := UVec2((i * 16) as uint32, (j * 16) as uint32);
        writes := writes[i + MapColumns * j := writes[i + MapColumns * j] + 1];
        i := i + 1;
      }
      j := j + 1;
    }
    tiles := a[..];
    forall i, j | 0 <= i < MapColumns && 0 <= j < MapRows
      ensures tiles[Slot(i, j)] == UVec2((TileSize * i) as uint32, (TileSize * j) as uint32)
    {
      TileOriginAt(i, j);
    }
  }

  /** sizeof of each table as uploaded, in bytes. */
  lemma IndexTableSizes()
    ensures |Words(ScreenIndices())| == 24
    ensures |Words(MaskIndices())| == 72
  {
  }

  lemma CoefficientTableSize(width: uint32, height: uint32)
    ensures |Words(RowWords(MaskCoefficients(width, height)))| == 288
  {
  }

  lemma TileTableSize()
    ensures |Words(PairWords(TileTable()))| == 3040
  {
  }

  /** The uniform block holding the tile table reads back as the table. */
  lemma TileTableReadsBack()
    ensures ReadPairs(ReadWords(Words(PairWords(TileTable())))) == TileTable()
  {
    WordsRoundTrip(PairWords(TileTable()));
    PairWordsRoundTrip(TileTable());
  }
}
