/**
 * Anchor tables: named 6-DOF reference poses of a solid, and the row/column
 * grid of anchors that the plate (core.py) and the microplate (microplate.py)
 * fill with the same nested loop.
 */
module Anchors {
  import opened Wrappers

  /** `[x, y, z, a, b, c]`: a position and three Euler angles. */
  datatype Pose6 = Pose6(x: real, y: real, z: real, a: real, b: real, c: real)

  type AnchorTable = map<string, Pose6>

  /** A solid as a component declares it: its name, its CAD type, and a world pose when it is placed directly. */
  datatype SolidDef = SolidDef(name: string, typ: string, pose: Option<Pose6>)

  /** The keys of an assembly, in insertion order. */
  function Names(assembly: seq<SolidDef>): (names: seq<string>)
    ensures |names| == |assembly| && forall i :: 0 <= i < |assembly| ==> names[i] == assembly[i].name
  {
    seq(|assembly|, i requires 0 <= i < |assembly| => assembly[i].name)
  }

  /**
   * `assembly[s.name] = s` on an insertion-ordered dict: a new name goes at the
   * end, an existing one is replaced where it stands.
   */
  function Store(assembly: seq<SolidDef>, s: SolidDef): (r: seq<SolidDef>)
    ensures s.name !in Names(assembly) ==> r == assembly + [s]
  {
    if assembly == [] then [s]
    else if assembly[0].name == s.name then [s] + assembly[1..]
    else
      assert s.name !in Names(assembly) ==> s.name !in Names(assembly[1..]) by {
        NamesCons(assembly);
      }
      [assembly[0]] + Store(assembly[1..], s)
  }

  /** Storing under a name the assembly already has replaces that entry where it stands. */
  lemma {:induction false} StoreReplaces(assembly: seq<SolidDef>, s: SolidDef, i: nat)
    requires i < |assembly| && assembly[i].name == s.name
    requires forall j :: 0 <= j < i ==> assembly[j].name != s.name
    ensures Store(assembly, s) == assembly[i := s]
  {
    if i == 0 {
      assert Store(assembly, s) == [s] + assembly[1..];
    } else {
      var tail := assembly[1..];
      assert assembly[0].name != s.name;
      assert Store(assembly, s) == [assembly[0]] + Store(tail, s);
      StoreReplaces(tail, s, i - 1);
      var replaced := [assembly[0]] + tail[i - 1 := s];
      forall j | 0 <= j < |assembly| ensures replaced[j] == assembly[i := s][j] {
        if j > 0 {
          assert replaced[j] == tail[i - 1 := s][j - 1];
        }
      }
      assert |replaced| == |assembly[i := s]|;
    }
  }

  /** Storing the solid that was stored last, under the same new name, changes nothing. */
  lemma StoreAgain(assembly: seq<SolidDef>, s: SolidDef)
    requires s.name !in Names(assembly)
    ensures Store(assembly + [s], s) == assembly + [s]
  {
    var a := assembly + [s];
    forall j | 0 <= j < |assembly| ensures a[j].name != s.name {
      assert Names(assembly)[j] == a[j].name;
    }
    StoreReplaces(a, s, |assembly|);
    assert a[|assembly| := s] == a;
  }

  /** Storing the next solid of a list whose names are new appends it, and storing it again changes nothing. */
  lemma StorePrefix(list: seq<SolidDef>, i: nat)
    requires i < |list| && list[i].name !in Names(list[..i])
    ensures Store(list[..i], list[i]) == list[..i + 1]
    ensures Store(list[..i + 1], list[i]) == list[..i + 1]
  {
    assert list[..i] + [list[i]] == list[..i + 1];
    StoreAgain(list[..i], list[i]);
  }

  lemma NamesCons(assembly: seq<SolidDef>)
    requires assembly != []
    ensures Names(assembly) == [assembly[0].name] + Names(assembly[1..])
  {
  }

  /** A position with zero orientation. */
  function At(x: real, y: real, z: real): Pose6 {
    Pose6(x, y, z, 0.0, 0.0, 0.0)
  }

  function DigitChar(d: nat): (ch: char)
    requires d < 10
    ensures '0' <= ch <= '9'
  {
    ('0' as int + d) as char
  }

  /** `str(n)`: the decimal digits of `n`, without leading zeros. */
  function Digits(n: nat): (s: string)
    ensures |s| >= 1
    ensures |s| == 1 <==> n < 10
  {
    if n < 10 then [DigitChar(n)] else Digits(n / 10) + [DigitChar(n % 10)]
  }

  /** Different numbers print differently. */
  lemma {:induction false} DigitsInjective(a: nat, b: nat)
    requires Digits(a) == Digits(b)
    ensures a == b
  {
    var s := Digits(a);
    assert DigitChar(a % 10) == s[|s| - 1] == DigitChar(b % 10);
    if 10 <= a {
      assert Digits(a / 10) == s[..|s| - 1] == Digits(b / 10);
      DigitsInjective(a / 10, b / 10);
    }
  }

  /** `f"{r}{c}"` with `r` the row letter: row index 0 is `A`. */
  function GridName(row: nat, col: nat): (name: string)
    requires row < 26
    ensures |name| >= 2 && 'A' <= name[0] <= 'Z'
  {
    [('A' as int + row) as char] + Digits(col)
  }

  /** Grid names identify their row and column. */
  lemma GridNameInjective(r1: nat, c1: nat, r2: nat, c2: nat)
    requires r1 < 26 && r2 < 26
    requires GridName(r1, c1) == GridName(r2, c2)
    ensures r1 == r2 && c1 == c2
  {
    assert GridName(r1, c1)[0] == GridName(r2, c2)[0];
    assert GridName(r1, c1)[1..] == Digits(c1);
    assert GridName(r2, c2)[1..] == Digits(c2);
    DigitsInjective(c1, c2);
  }

  /** A key that cannot be a grid name: it does not start with an upper-case letter. */
  predicate NotGridLike(k: string) {
    |k| == 0 || !('A' <= k[0] <= 'Z')
  }

  /** The grid names of rows `0 .. rows-1`, columns `1 .. cols`. */
  ghost function GridKeys(rows: nat, cols: nat): set<string>
    requires rows <= 26
  {
    set r, c | 0 <= r < rows && 1 <= c <= cols :: GridName(r, c)
  }

  /** Every grid name starts with a capital letter. */
  lemma GridKeysUpper(rows: nat, cols: nat)
    requires rows <= 26
    ensures forall k :: k in GridKeys(rows, cols) ==> !NotGridLike(k)
  {
  }

  /** The grid names of one row, columns `1 .. last-1`. */
  ghost function RowKeys(row: nat, last: nat): set<string>
    requires row < 26 || last <= 1
  {
    set c | 1 <= c < last :: GridName(row, c)
  }

  /** `x_start + (c - 1) * pitch`: columns run along +x from 1. */
  function GridX(x0: real, pitch: real, c: nat): real {
    x0 + (c - 1) as real * pitch
  }

  /** `y_start - r_idx * pitch`: rows run along -y from row index 0. */
  function GridY(y0: real, pitch: real, r: nat): real {
    y0 - r as real * pitch
  }

  /** The anchor the loop stores for row index `r` and column `c`. */
  function GridPose(x0: real, y0: real, pitch: real, z: real, r: nat, c: nat): Pose6 {
    At(GridX(x0, pitch, c), GridY(y0, pitch, r), z)
  }

  lemma GridKeysNextRow(rows: nat, cols: nat)
    requires rows < 26
    ensures forall k :: k in GridKeys(rows + 1, cols) <==> k in GridKeys(rows, cols) || k in RowKeys(rows, cols + 1)
  {
    forall k ensures k in GridKeys(rows + 1, cols) <==> k in GridKeys(rows, cols) || k in RowKeys(rows, cols + 1) {
      if k in GridKeys(rows + 1, cols) {
        var r, c :| 0 <= r < rows + 1 && 1 <= c <= cols && k == GridName(r, c);
        if r == rows {
          assert k in RowKeys(rows, cols + 1);
        } else {
          assert k in GridKeys(rows, cols);
        }
      }
      if k in GridKeys(rows, cols) {
        var r, c :| 0 <= r < rows && 1 <= c <= cols && k == GridName(r, c);
        assert k in GridKeys(rows + 1, cols);
      }
      if k in RowKeys(rows, cols + 1) {
        var c :| 1 <= c < cols + 1 && k == GridName(rows, c);
        assert k in GridKeys(rows + 1, cols);
      }
    }
  }

  /** A grid name is fresh with respect to the earlier rows and the earlier columns of its row. */
  lemma FreshGridName(anchors: AnchorTable, row: nat, col: nat, cols: nat)
    requires row < 26 && 1 <= col <= cols
    requires forall k :: k in anchors ==> NotGridLike(k)
    ensures GridName(row, col) !in anchors && GridName(row, col) !in GridKeys(row, cols)
    ensures GridName(row, col) !in RowKeys(row, col)
  {
    var k := GridName(row, col);
    if k in GridKeys(row, cols) {
      var r, c :| 0 <= r < row && 1 <= c <= cols && k == GridName(r, c);
      GridNameInjective(r, c, row, col);
    }
    if k in RowKeys(row, col) {
      var c :| 1 <= c < col && k == GridName(row, c);
      GridNameInjective(row, c, row, col);
    }
  }

  /** The next grid name is new, and storing it extends the current row by one column. */
  lemma GridStep(anchors: AnchorTable, table: AnchorTable, row: nat, col: nat, cols: nat, v: Pose6)
    requires row < 26 && 1 <= col <= cols
    requires forall k :: k in anchors ==> NotGridLike(k)
    requires KeysAre(anchors, table, row, col, cols)
    ensures GridName(row, col) !in table
    ensures KeysAre(anchors, table[GridName(row, col) := v], row, col + 1, cols)
  {
    var key := GridName(row, col);
    FreshGridName(anchors, row, col, cols);
    forall k ensures k in RowKeys(row, col + 1) <==> k in RowKeys(row, col) || k == key {
      if k in RowKeys(row, col + 1) {
        var c :| 1 <= c < col + 1 && k == GridName(row, c);
        if c < col {
          assert k in RowKeys(row, col);
        }
      }
    }
  }

  /** The keys of `table` are the earlier keys and the grid names before row `r`, column `c`. */
  ghost predicate KeysAre(anchors: AnchorTable, table: AnchorTable, r: nat, c: nat, cols: nat)
    requires r <= 26 && (r < 26 || c <= 1)
  {
    forall k :: k in table <==> k in anchors || k in GridKeys(r, cols) || k in RowKeys(r, c)
  }

  /** Storing a new key grows a table by one. */
  lemma AddOne(table: AnchorTable, key: string, v: Pose6)
    requires key !in table
    ensures |table[key := v]| == |table| + 1
  {
    assert table[key := v].Keys == table.Keys + {key};
  }

  /** The number of cells in `rows` full rows, counted row by row. */
  function Cells(rows: nat, cols: nat): (n: nat)
  {
    if rows == 0 then 0 else Cells(rows - 1, cols) + cols
  }

  lemma {:induction false} CellsIsProduct(rows: nat, cols: nat)
    ensures Cells(rows, cols) == rows * cols
  {
    if rows > 0 {
      CellsIsProduct(rows - 1, cols);
      assert (rows - 1) * cols + cols == rows * cols;
    }
  }

  /**
   * What the grid loop has stored once it reached row index `r`, column `c`:
   * the earlier keys untouched, and exactly the grid names before `(r, c)`,
   * each with its pose.
   */
  ghost predicate Filled(anchors: AnchorTable, table: AnchorTable, r: nat, c: nat, cols: nat,
                         x0: real, y0: real, pitch: real, z: real)
  {
    && r <= 26 && 1 <= c <= cols + 1 && (r < 26 || c == 1)
    && KeysAre(anchors, table, r, c, cols)
    && |table| == |anchors| + Cells(r, cols) + (c - 1)
    && (forall k :: k in anchors ==> table[k] == anchors[k])
    && (forall r', c' :: 0 <= r' < r && 1 <= c' <= cols ==>
          GridName(r', c') in table && table[GridName(r', c')] == GridPose(x0, y0, pitch, z, r', c'))
    && (forall c' :: 1 <= c' < c && r < 26 ==>
          GridName(r, c') in table && table[GridName(r, c')] == GridPose(x0, y0, pitch, z, r, c'))
  }

  /** One pass of the inner loop body keeps `Filled`, one column further. */
  lemma ColumnStep(anchors: AnchorTable, table: AnchorTable, r: nat, c: nat, cols: nat,
                   x0: real, y0: real, pitch: real, z: real)
    requires forall k :: k in anchors ==> NotGridLike(k)
    requires Filled(anchors, table, r, c, cols, x0, y0, pitch, z) && r < 26 && c <= cols
    ensures Filled(anchors, table[GridName(r, c) := GridPose(x0, y0, pitch, z, r, c)], r, c + 1, cols, x0, y0, pitch, z)
  {
    var key := GridName(r, c);
    var pose := GridPose(x0, y0, pitch, z, r, c);
    GridStep(anchors, table, r, c, cols, pose);
    AddOne(table, key, pose);
    var next := table[key := pose];
    forall c' | 1 <= c' < c + 1
      ensures GridName(r, c') in next && next[GridName(r, c')] == GridPose(x0, y0, pitch, z, r, c')
    {
      if c' < c {
        assert GridName(r, c') in table;
      }
    }
    forall r', c' | 0 <= r' < r && 1 <= c' <= cols ensures next[GridName(r', c')] == table[GridName(r', c')] {
      assert GridName(r', c') in table;
    }
  }

  /** Finishing a row is starting the next one. */
  lemma RowStep(anchors: AnchorTable, table: AnchorTable, r: nat, cols: nat,
                x0: real, y0: real, pitch: real, z: real)
    requires Filled(anchors, table, r, cols + 1, cols, x0, y0, pitch, z) && r < 26
    ensures Filled(anchors, table, r + 1, 1, cols, x0, y0, pitch, z)
  {
    GridKeysNextRow(r, cols);
    assert RowKeys(r + 1, 1) == {};
    assert KeysAre(anchors, table, r + 1, 1, cols);
    assert Cells(r + 1, cols) == Cells(r, cols) + cols;
    forall r', c' | 0 <= r' < r + 1 && 1 <= c' <= cols
      ensures GridName(r', c') in table && table[GridName(r', c')] == GridPose(x0, y0, pitch, z, r', c')
    {
    }
  }

  lemma GridStart(anchors: AnchorTable, cols: nat, x0: real, y0: real, pitch: real, z: real)
    ensures Filled(anchors, anchors, 0, 1, cols, x0, y0, pitch, z)
  {
    assert GridKeys(0, cols) == {} && RowKeys(0, 1) == {};
  }

  lemma GridDone(anchors: AnchorTable, table: AnchorTable, rows: nat, cols: nat, x0: real, y0: real, pitch: real, z: real)
    requires Filled(anchors, table, rows, 1, cols, x0, y0, pitch, z)
    ensures table.Keys == anchors.Keys + GridKeys(rows, cols)
    ensures |table| == |anchors| + rows * cols
  {
    assert RowKeys(rows, 1) == {};
    CellsIsProduct(rows, cols);
  }

  /**
   * The nested row/column loop: for row index `r` in `0 .. rows-1` and column
   * `c` in `1 .. cols`, store `[x0+(c-1)*pitch, y0-r*pitch, z, 0, 0, 0]` under
   * `f"{row letter}{c}"`. Every name is new, so the table grows by exactly
   * `rows * cols` entries and keeps what it held before.
   */
  method AddGrid(anchors: AnchorTable, rows: nat, cols: nat, x0: real, y0: real, pitch: real, z: real)
    returns (table: AnchorTable)
    requires rows <= 26
    requires forall k :: k in anchors ==> NotGridLike(k)
    ensures table.Keys == anchors.Keys + GridKeys(rows, cols)
    ensures |table| == |anchors| + rows * cols
    ensures forall k :: k in anchors ==> table[k] == anchors[k]
    ensures forall r, c :: 0 <= r < rows && 1 <= c <= cols ==>
              GridName(r, c) in table && table[GridName(r, c)] == GridPose(x0, y0, pitch, z, r, c)
  {
    table := anchors;
    GridStart(anchors, cols, x0, y0, pitch, z);
    var r := 0;
    while r < rows
      invariant r <= rows
      invariant Filled(anchors, table, r, 1, cols, x0, y0, pitch, z)
    {
      table := FillRow(anchors, table, r, cols, x0, y0, pitch, z);
      r := r + 1;
    }
    GridDone(anchors, table, rows, cols, x0, y0, pitch, z);
  }

  /** The table once the inner loop has written columns `1 .. c - 1` of row index `r`. */
  function RowWritten(table0: AnchorTable, r: nat, c: nat, x0: real, y0: real, pitch: real, z: real): AnchorTable
    requires r < 26 && c >= 1
    decreases c
  {
    if c == 1 then table0
    else RowWritten(table0, r, c - 1, x0, y0, pitch, z)[GridName(r, c - 1) := GridPose(x0, y0, pitch, z, r, c - 1)]
  }

  /** Each written column keeps the grid invariant. */
  lemma {:induction false} RowWrittenFilled(anchors: AnchorTable, table0: AnchorTable, r: nat, c: nat, cols: nat,
                                            x0: real, y0: real, pitch: real, z: real)
    requires r < 26 && 1 <= c <= cols + 1 && forall k :: k in anchors ==> NotGridLike(k)
    requires Filled(anchors, table0, r, 1, cols, x0, y0, pitch, z)
    ensures Filled(anchors, RowWritten(table0, r, c, x0, y0, pitch, z), r, c, cols, x0, y0, pitch, z)
    decreases c
  {
    if c > 1 {
      RowWrittenFilled(anchors, table0, r, c - 1, cols, x0, y0, pitch, z);
      ColumnStep(anchors, RowWritten(table0, r, c - 1, x0, y0, pitch, z), r, c - 1, cols, x0, y0, pitch, z);
    }
  }

  /** The inner loop: row index `r`, at `y = y0 - r * pitch`, columns `1 .. cols`. */
  method FillRow(anchors: AnchorTable, table0: AnchorTable, r: nat, cols: nat,
                 x0: real, y0: real, pitch: real, z: real) returns (table: AnchorTable)
    requires r < 26 && forall k :: k in anchors ==> NotGridLike(k)
    requires Filled(anchors, table0, r, 1, cols, x0, y0, pitch, z)
    ensures Filled(anchors, table, r + 1, 1, cols, x0, y0, pitch, z)
  {
    table := table0;
    var y := GridY(y0, pitch, r);
    var c := 1;
    while c <= cols
      invariant 1 <= c <= cols + 1
      invariant table == RowWritten(table0, r, c, x0, y0, pitch, z)
      decreases cols + 1 - c
    {
      table := table[GridName(r, c) := At(GridX(x0, pitch, c), y, z)];
      c := c + 1;
    }
    RowWrittenFilled(anchors, table0, r, c, cols, x0, y0, pitch, z);
    RowStep(anchors, table, r, cols, x0, y0, pitch, z);
  }
}
