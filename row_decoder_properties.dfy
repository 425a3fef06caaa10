/// What the decoding of one row promises: where every column's value ends up,
/// which columns open objects, and what a marker column contributes (nothing).
module RowDecoderProperties {
  import opened Records
  import opened RowDecoder

  /** The object a decoded row holds for `slot` (null for a slot beyond the array). */
  function ObjectIn(d: Decoded, slot: Slot): Option<Obj> {
    match slot
    case Main => d.main
    case Linked(k) => if k < |d.linked| then d.linked[k] else None
  }

  /** The shape the object of `slot` is created with. */
  function ShapeOf(mainShape: Shape, linkedShapes: seq<Shape>, slot: Slot): Shape {
    match slot
    case Main => mainShape
    case Linked(k) => if k < |linkedShapes| then linkedShapes[k] else Expando
  }

  /** The names of the columns of `row` that are written into the object of `slot`. */
  function Contributors(useSplitter: bool, shape: Shape, row: Row, slot: Slot): set<string> {
    set j | 0 <= j < |row| && OwnerOf(useSplitter, row, j) == slot
                           && Stored(useSplitter, row[j].name) && Accepts(shape, row[j].name) :: row[j].name
  }

  /** Reading more columns never takes boundaries away. */
  lemma BoundariesPrefixMonotone(useSplitter: bool, row: Row, a: nat, b: nat)
    requires a <= b <= |row|
    ensures Boundaries(useSplitter, row[..a]) <= Boundaries(useSplitter, row[..b])
  {
    BoundariesMonotone(useSplitter, row[..b], a);
    assert row[..b][..a] == row[..a];
  }

  /** The owner of a column does not depend on the columns after it. */
  lemma OwnerOfPrefix(useSplitter: bool, row: Row, n: nat, j: nat)
    requires j < n <= |row|
    ensures OwnerOf(useSplitter, row[..n], j) == OwnerOf(useSplitter, row, j)
  {
    assert row[..n][..j + 1] == row[..j + 1];
  }

  /** A row without boundary columns has no boundaries. */
  lemma {:induction false} NoBoundaryCount(useSplitter: bool, row: Row)
    requires forall j :: 0 <= j < |row| ==> !IsBoundary(useSplitter, row[j].name)
    ensures Boundaries(useSplitter, row) == 0
    decreases |row|
  {
    if row != [] {
      NoBoundaryCount(useSplitter, row[..|row| - 1]);
    }
  }

  /** Boundaries are found from the column names alone. */
  lemma {:induction false} BoundariesByNames(useSplitter: bool, row: Row, row': Row)
    requires |row| == |row'| && forall j :: 0 <= j < |row| ==> row[j].name == row'[j].name
    ensures Boundaries(useSplitter, row) == Boundaries(useSplitter, row')
    decreases |row|
  {
    if row != [] {
      var n := |row| - 1;
      BoundariesByNames(useSplitter, row[..n], row'[..n]);
    }
  }

  /** Two rows with the same column names whose stored columns carry the same values. */
  predicate SameStoredColumns(useSplitter: bool, row: Row, row': Row) {
    && |row| == |row'|
    && forall j :: 0 <= j < |row| ==>
         row[j].name == row'[j].name && (Stored(useSplitter, row[j].name) ==> row[j].value == row'[j].value)
  }

  /** An object is built from the names and the stored values only. */
  lemma {:induction false} BuildIgnoresUnstored(useSplitter: bool, shape: Shape, row: Row, row': Row, slot: Slot)
    requires SameStoredColumns(useSplitter, row, row')
    ensures Build(useSplitter, shape, row, slot) == Build(useSplitter, shape, row', slot)
    decreases |row|
  {
    if row != [] {
      var n := |row| - 1;
      assert SameStoredColumns(useSplitter, row[..n], row'[..n]);
      BuildIgnoresUnstored(useSplitter, shape, row[..n], row'[..n], slot);
      assert row[..n + 1] == row && row'[..n + 1] == row';
      BoundariesByNames(useSplitter, row, row');
    }
  }

  /**
   * Splitter mode: the value carried by a marker column is thrown away. Replacing
   * it by any other value decodes to exactly the same objects.
   */
  lemma SplitterValueDiscarded(mainShape: Shape, linkedShapes: seq<Shape>, row: Row, j: nat, v: DbValue)
    requires j < |row| && StartsWith(row[j].name, SplitterPrefix)
    ensures DecodeRow(true, mainShape, linkedShapes, row[j := Column(row[j].name, v)])
         == DecodeRow(true, mainShape, linkedShapes, row)
  {
    var row' := row[j := Column(row[j].name, v)];
    assert !Stored(true, row[j].name);
    assert SameStoredColumns(true, row', row);
    BoundariesByNames(true, row', row);
    BuildIgnoresUnstored(true, mainShape, row', row, Main);
    assert row'[0].name == row[0].name;
    assert MainObject(true, mainShape, row') == MainObject(true, mainShape, row);
    forall k | 0 <= k < |linkedShapes|
      ensures LinkedObjects(true, linkedShapes, row')[k] == LinkedObjects(true, linkedShapes, row)[k]
    {
      BuildIgnoresUnstored(true, linkedShapes[k], row', row, Linked(k));
    }
    assert LinkedObjects(true, linkedShapes, row') == LinkedObjects(true, linkedShapes, row);
  }

  /** Whether the last column of `row` is written into the object of `slot`. */
  predicate LastWritten(useSplitter: bool, shape: Shape, row: Row, slot: Slot)
    requires row != []
  {
    var n := |row| - 1;
    OwnerOf(useSplitter, row, n) == slot && Stored(useSplitter, row[n].name) && Accepts(shape, row[n].name)
  }

  /** Contributors of a prefix stay contributors of the row. */
  lemma ContributorsGrow(useSplitter: bool, shape: Shape, row: Row, slot: Slot)
    requires row != []
    ensures Contributors(useSplitter, shape, row[..|row| - 1], slot) <= Contributors(useSplitter, shape, row, slot)
    ensures LastWritten(useSplitter, shape, row, slot) ==> row[|row| - 1].name in Contributors(useSplitter, shape, row, slot)
  {
    var n := |row| - 1;
    forall x | x in Contributors(useSplitter, shape, row[..n], slot)
      ensures x in Contributors(useSplitter, shape, row, slot)
    {
      var j :| 0 <= j < n && OwnerOf(useSplitter, row[..n], j) == slot
               && Stored(useSplitter, row[..n][j].name) && Accepts(shape, row[..n][j].name) && row[..n][j].name == x;
      OwnerOfPrefix(useSplitter, row, n, j);
    }
  }

  /** A contributor of the row came from the prefix or is the last column. */
  lemma ContributorsShrink(useSplitter: bool, shape: Shape, row: Row, slot: Slot)
    requires row != []
    ensures var n := |row| - 1;
            forall x :: x in Contributors(useSplitter, shape, row, slot) ==>
              x in Contributors(useSplitter, shape, row[..n], slot) || (LastWritten(useSplitter, shape, row, slot) && x == row[n].name)
  {
    var n := |row| - 1;
    forall x | x in Contributors(useSplitter, shape, row, slot)
      ensures x in Contributors(useSplitter, shape, row[..n], slot) || (LastWritten(useSplitter, shape, row, slot) && x == row[n].name)
    {
      var j :| 0 <= j < |row| && OwnerOf(useSplitter, row, j) == slot
               && Stored(useSplitter, row[j].name) && Accepts(shape, row[j].name) && row[j].name == x;
      if j < n {
        OwnerOfPrefix(useSplitter, row, n, j);
        assert row[..n][j] == row[j];
      }
    }
  }

  /** One more column adds its own name to the contributors of its object, if it is written at all. */
  lemma ContributorsStep(useSplitter: bool, shape: Shape, row: Row, slot: Slot)
    requires row != []
    ensures Contributors(useSplitter, shape, row, slot)
            == Contributors(useSplitter, shape, row[..|row| - 1], slot)
               + (if LastWritten(useSplitter, shape, row, slot) then {row[|row| - 1].name} else {})
  {
    ContributorsGrow(useSplitter, shape, row, slot);
    ContributorsShrink(useSplitter, shape, row, slot);
  }

  /** The keys of the object of `slot` are exactly the names of the columns written into it, each once. */
  lemma {:induction false} SlotKeys(useSplitter: bool, shape: Shape, row: Row, slot: Slot)
    ensures Keys(Build(useSplitter, shape, row, slot)) == Contributors(useSplitter, shape, row, slot)
    ensures DistinctKeys(Build(useSplitter, shape, row, slot))
    decreases |row|
  {
    if row != [] {
      var n := |row| - 1;
      SlotKeys(useSplitter, shape, row[..n], slot);
      ContributorsStep(useSplitter, shape, row, slot);
      if LastWritten(useSplitter, shape, row, slot) {
        SetKeepsDistinct(Build(useSplitter, shape, row[..n], slot), row[n].name, Normalize(row[n].value));
      }
    }
  }

  /** The names written into the object of `slot`, in the order of the columns that first write them. */
  function FirstWrites(useSplitter: bool, shape: Shape, row: Row, slot: Slot): seq<string> {
    if row == [] then []
    else
      var n := |row| - 1;
      var before := FirstWrites(useSplitter, shape, row[..n], slot);
      if LastWritten(useSplitter, shape, row, slot) && row[n].name !in before then before + [row[n].name] else before
  }

  /**
   * The object of `slot` enumerates its keys in the order in which its columns
   * first wrote them: a later column of the same name overwrites in place.
   */
  lemma {:induction false} SlotKeyOrder(useSplitter: bool, shape: Shape, row: Row, slot: Slot)
    ensures FieldNames(Build(useSplitter, shape, row, slot)) == FirstWrites(useSplitter, shape, row, slot)
    decreases |row|
  {
    if row != [] {
      var n := |row| - 1;
      SlotKeyOrder(useSplitter, shape, row[..n], slot);
      if LastWritten(useSplitter, shape, row, slot) {
        SetNames(Build(useSplitter, shape, row[..n], slot), row[n].name, Normalize(row[n].value));
      }
    }
  }

  /** What the object of `slot` holds under `name` after the last column of `row`. */
  lemma BuildLookup(useSplitter: bool, shape: Shape, row: Row, slot: Slot, name: string)
    requires row != []
    ensures var n := |row| - 1;
            Lookup(Build(useSplitter, shape, row, slot), name)
            == if LastWritten(useSplitter, shape, row, slot) && row[n].name == name then Some(Normalize(row[n].value))
               else Lookup(Build(useSplitter, shape, row[..n], slot), name)
  {
  }

  /**
   * A column written into `slot` that no later column of the same object
   * overwrites leaves its value there, with DBNull turned into null.
   */
  lemma {:induction false} LastWriteWins(useSplitter: bool, shape: Shape, row: Row, slot: Slot, j: nat)
    requires j < |row| && OwnerOf(useSplitter, row, j) == slot
    requires Stored(useSplitter, row[j].name) && Accepts(shape, row[j].name)
    requires forall j' ::
               (j < j' < |row| && OwnerOf(useSplitter, row, j') == slot
                && Stored(useSplitter, row[j'].name) && Accepts(shape, row[j'].name)) ==> row[j'].name != row[j].name
    ensures Lookup(Build(useSplitter, shape, row, slot), row[j].name) == Some(Normalize(row[j].value))
    decreases |row|
  {
    var n := |row| - 1;
    var prefix := row[..n];
    var name := row[j].name;
    if j < n {
      assert Lookup(Build(useSplitter, shape, prefix, slot), name) == Some(Normalize(row[j].value)) by {
        OwnerOfPrefix(useSplitter, row, n, j);
        forall j' | j < j' < n && OwnerOf(useSplitter, prefix, j') == slot
                    && Stored(useSplitter, prefix[j'].name) && Accepts(shape, prefix[j'].name)
          ensures prefix[j'].name != prefix[j].name
        {
          OwnerOfPrefix(useSplitter, row, n, j');
          assert prefix[j'] == row[j'];
        }
        LastWriteWins(useSplitter, shape, prefix, slot, j);
        assert prefix[j] == row[j];
      }
      assert LastWritten(useSplitter, shape, row, slot) ==> row[n].name != name;
    }
    BuildLookup(useSplitter, shape, row, slot, name);
  }

  /**
   * Column partitioning: every column that is written lands in the object opened
   * last before it (the main object if no boundary came yet); that object exists,
   * and unless a later column of the same object has the same name, it holds the
   * column's value.
   */
  lemma ColumnLandsInItsObject(useSplitter: bool, mainShape: Shape, linkedShapes: seq<Shape>, row: Row, j: nat)
    requires DecodeRow(useSplitter, mainShape, linkedShapes, row).Success?
    requires j < |row| && Stored(useSplitter, row[j].name)
    requires Accepts(ShapeOf(mainShape, linkedShapes, OwnerOf(useSplitter, row, j)), row[j].name)
    requires forall j' :: j < j' < |row| && OwnerOf(useSplitter, row, j') == OwnerOf(useSplitter, row, j) ==> row[j'].name != row[j].name
    ensures var d := DecodeRow(useSplitter, mainShape, linkedShapes, row).value;
            var o := ObjectIn(d, OwnerOf(useSplitter, row, j));
            && o.Some?
            && o.value.shape == ShapeOf(mainShape, linkedShapes, OwnerOf(useSplitter, row, j))
            && Lookup(o.value.fields, row[j].name) == Some(Normalize(row[j].value))
  {
    var slot := OwnerOf(useSplitter, row, j);
    var shape := ShapeOf(mainShape, linkedShapes, slot);
    BoundariesMonotone(useSplitter, row, j + 1);
    if slot == Main {
      BoundariesMonotone(useSplitter, row[..j + 1], 1);
      assert row[..j + 1][..1] == [row[0]];
      assert [row[0]][..0] == [];
    }
    LastWriteWins(useSplitter, shape, row, slot, j);
  }

  /** The objects of a decoded row have exactly the keys of the columns written into them, each once. */
  lemma DecodedKeys(useSplitter: bool, mainShape: Shape, linkedShapes: seq<Shape>, row: Row, slot: Slot)
    requires DecodeRow(useSplitter, mainShape, linkedShapes, row).Success?
    requires ObjectIn(DecodeRow(useSplitter, mainShape, linkedShapes, row).value, slot).Some?
    ensures var o := ObjectIn(DecodeRow(useSplitter, mainShape, linkedShapes, row).value, slot).value;
            && o.shape == ShapeOf(mainShape, linkedShapes, slot)
            && Keys(o.fields) == Contributors(useSplitter, o.shape, row, slot)
            && DistinctKeys(o.fields)
  {
    SlotKeys(useSplitter, ShapeOf(mainShape, linkedShapes, slot), row, slot);
  }

  /** A typed object only ever receives columns named like its properties; the other columns are skipped. */
  lemma TypedObjectsHoldOnlyProperties(useSplitter: bool, mainShape: Shape, linkedShapes: seq<Shape>, row: Row, slot: Slot)
    requires DecodeRow(useSplitter, mainShape, linkedShapes, row).Success?
    requires ObjectIn(DecodeRow(useSplitter, mainShape, linkedShapes, row).value, slot).Some?
    requires ShapeOf(mainShape, linkedShapes, slot).Typed?
    ensures Keys(ObjectIn(DecodeRow(useSplitter, mainShape, linkedShapes, row).value, slot).value.fields)
         <= ShapeOf(mainShape, linkedShapes, slot).properties
  {
    DecodedKeys(useSplitter, mainShape, linkedShapes, row, slot);
  }

  /**
   * Id mode: a column named "id" in any letter case opens the next linked object
   * (slot k, k the number of earlier id columns) and its value is stored in it.
   */
  lemma IdValueStored(mainShape: Shape, linkedShapes: seq<Shape>, row: Row, j: nat)
    requires DecodeRow(false, mainShape, linkedShapes, row).Success?
    requires j < |row| && EqualsIgnoreCase(row[j].name, "id")
    requires Boundaries(false, row[..j]) < |linkedShapes|
    requires Accepts(linkedShapes[Boundaries(false, row[..j])], row[j].name)
    ensures var k := Boundaries(false, row[..j]);
            var o := DecodeRow(false, mainShape, linkedShapes, row).value.linked[k];
            && o.Some?
            && o.value.shape == linkedShapes[k]
            && Lookup(o.value.fields, row[j].name) == Some(Normalize(row[j].value))
  {
    var k := Boundaries(false, row[..j]);
    BoundariesStep(false, row, j);
    forall j' | j < j' < |row| && row[j'].name == row[j].name
      ensures OwnerOf(false, row, j') != Linked(k)
    {
      BoundariesPrefixMonotone(false, row, j + 1, j');
      BoundariesStep(false, row, j');
    }
    ColumnLandsInItsObject(false, mainShape, linkedShapes, row, j);
  }

  /**
   * A row without boundary columns decodes to a main object holding every column
   * its shape accepts, each with its last value, and all linked slots null.
   */
  lemma NoBoundaryAllInMain(useSplitter: bool, mainShape: Shape, linkedShapes: seq<Shape>, row: Row)
    requires row != []
    requires forall j :: 0 <= j < |row| ==> !IsBoundary(useSplitter, row[j].name)
    ensures DecodeRow(useSplitter, mainShape, linkedShapes, row).Success?
    ensures var d := DecodeRow(useSplitter, mainShape, linkedShapes, row).value;
            && d.main.Some?
            && Keys(d.main.value.fields) == (set j | 0 <= j < |row| && Accepts(mainShape, row[j].name) :: row[j].name)
            && (forall j :: 0 <= j < |row| && Accepts(mainShape, row[j].name)
                           && (forall j' :: j < j' < |row| ==> row[j'].name != row[j].name)
                           ==> Lookup(d.main.value.fields, row[j].name) == Some(Normalize(row[j].value)))
            && forall k :: 0 <= k < |linkedShapes| ==> d.linked[k] == None
  {
    NoBoundaryCount(useSplitter, row);
    forall j | 0 <= j < |row| ensures OwnerOf(useSplitter, row, j) == Main {
      NoBoundaryCount(useSplitter, row[..j + 1]);
    }
    DecodedKeys(useSplitter, mainShape, linkedShapes, row, Main);
    forall j | 0 <= j < |row| && Accepts(mainShape, row[j].name) && (forall j' :: j < j' < |row| ==> row[j'].name != row[j].name)
      ensures Lookup(DecodeRow(useSplitter, mainShape, linkedShapes, row).value.main.value.fields, row[j].name)
           == Some(Normalize(row[j].value))
    {
      ColumnLandsInItsObject(useSplitter, mainShape, linkedShapes, row, j);
    }
  }

  /** When column 0 is itself a boundary there is no main object, and column 0 opened linked slot 0. */
  lemma FirstColumnBoundary(useSplitter: bool, mainShape: Shape, linkedShapes: seq<Shape>, row: Row)
    requires row != [] && IsBoundary(useSplitter, row[0].name)
    requires DecodeRow(useSplitter, mainShape, linkedShapes, row).Success?
    ensures var d := DecodeRow(useSplitter, mainShape, linkedShapes, row).value;
            d.main == None && |d.linked| > 0 && d.linked[0].Some?
  {
    BoundariesMonotone(useSplitter, row, 1);
    assert row[..1][..0] == [];
  }

  /**
   * A splitter row: columns A, B, ___, C, D decode to a main
   * object {A, B} and one linked object {C, D}; the other 18 slots stay null.
   */
  lemma SplitterScenario(a: DbValue, b: DbValue, c: DbValue, d: DbValue, marker: DbValue)
    ensures var row := [Column("A", a), Column("B", b), Column("___", marker), Column("C", c), Column("D", d)];
            DecodeRow(true, Expando, ExpandoSlots(), row)
            == Success(Decoded(
                 Some(Obj(Expando, [Field("A", Normalize(a)), Field("B", Normalize(b))])),
                 [Some(Obj(Expando, [Field("C", Normalize(c)), Field("D", Normalize(d))]))] + seq(18, _ => None)))
  {
    ScenarioBoundaries(a, b, c, d, marker);
    ScenarioMain(a, b, c, d, marker);
    ScenarioLinked(a, b, c, d, marker);
    var row := [Column("A", a), Column("B", b), Column("___", marker), Column("C", c), Column("D", d)];
    var fc, fd := Field("C", Normalize(c)), Field("D", Normalize(d));
    assert LinkedObjects(true, ExpandoSlots(), row) == [Some(Obj(Expando, [fc, fd]))] + seq(18, _ => None);
  }

  /** The scenario row and its prefixes: only the marker column is a boundary. */
  lemma ScenarioBoundaries(a: DbValue, b: DbValue, c: DbValue, d: DbValue, marker: DbValue)
    ensures var p := [Column("A", a), Column("B", b), Column("___", marker), Column("C", c), Column("D", d)];
            && Boundaries(true, p[..1]) == 0 && Boundaries(true, p[..2]) == 0 && Boundaries(true, p[..3]) == 1
            && Boundaries(true, p[..4]) == 1 && Boundaries(true, p) == 1
  {
    var p := [Column("A", a), Column("B", b), Column("___", marker), Column("C", c), Column("D", d)];
    assert !StartsWith("A", SplitterPrefix) && !StartsWith("B", SplitterPrefix);
    assert !StartsWith("C", SplitterPrefix) && !StartsWith("D", SplitterPrefix);
    assert StartsWith("___", SplitterPrefix);
    assert p[..1][..0] == [];
    assert p[..2][..1] == p[..1];
    assert p[..3][..2] == p[..2];
    assert p[..4][..3] == p[..3];
    assert p[..4] == p[..|p| - 1];
  }

  /** The scenario's main object takes A and B and nothing after the marker. */
  lemma ScenarioMain(a: DbValue, b: DbValue, c: DbValue, d: DbValue, marker: DbValue)
    ensures var p := [Column("A", a), Column("B", b), Column("___", marker), Column("C", c), Column("D", d)];
            Build(true, Expando, p, Main) == [Field("A", Normalize(a)), Field("B", Normalize(b))]
  {
    var p := [Column("A", a), Column("B", b), Column("___", marker), Column("C", c), Column("D", d)];
    ScenarioBoundaries(a, b, c, d, marker);
    var fa, fb := Field("A", Normalize(a)), Field("B", Normalize(b));
    assert p[..1][..0] == [] && p[..2][..1] == p[..1] && p[..3][..2] == p[..2] && p[..4][..3] == p[..3] && p[..4] == p[..|p| - 1];
    assert p[..1][..1] == p[..1] && p[..2][..2] == p[..2] && p[..3][..3] == p[..3] && p[..4][..4] == p[..4] && p[..5] == p;
    assert Build(true, Expando, p[..1], Main) == [fa];
    assert Build(true, Expando, p[..2], Main) == [fa, fb];
    assert Build(true, Expando, p[..3], Main) == [fa, fb];
    assert Build(true, Expando, p[..4], Main) == [fa, fb];
  }

  /** The scenario's first linked object takes C and D. */
  lemma ScenarioLinked(a: DbValue, b: DbValue, c: DbValue, d: DbValue, marker: DbValue)
    ensures var p := [Column("A", a), Column("B", b), Column("___", marker), Column("C", c), Column("D", d)];
            Build(true, Expando, p, Linked(0)) == [Field("C", Normalize(c)), Field("D", Normalize(d))]
  {
    var p := [Column("A", a), Column("B", b), Column("___", marker), Column("C", c), Column("D", d)];
    ScenarioBoundaries(a, b, c, d, marker);
    var fc, fd := Field("C", Normalize(c)), Field("D", Normalize(d));
    assert p[..1][..0] == [] && p[..2][..1] == p[..1] && p[..3][..2] == p[..2] && p[..4][..3] == p[..3] && p[..4] == p[..|p| - 1];
    assert p[..1][..1] == p[..1] && p[..2][..2] == p[..2] && p[..3][..3] == p[..3] && p[..4][..4] == p[..4] && p[..5] == p;
    assert Build(true, Expando, p[..1], Linked(0)) == [];
    assert Build(true, Expando, p[..2], Linked(0)) == [];
    assert Build(true, Expando, p[..3], Linked(0)) == [];
    assert Build(true, Expando, p[..4], Linked(0)) == [fc];
  }
}
