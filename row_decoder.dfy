/// The multi-mapping row decoder behind both `QueryAndLink` overloads: every
/// result row is cut, column by column, into one main object and a fixed number
/// of linked-object slots; the mapper callback sees them, then the main object
/// is yielded.
///
/// The first half states what a row decodes to (which object each column lands
/// in); the second half is the column loop and the row loop of the source,
/// proved against it.
module RowDecoder {
  import opened Records

  /** SPLITTER_COLUMN: a column whose name starts with it opens a new linked object. */
  const SplitterPrefix: string := "___"

  /** The dynamic overload's hard-coded number of linked-object slots. */
  const DynamicLinkedSlots: nat := 19

  /** One column of the current row: `reader.GetName(i)` and `reader.GetValue(i)`. */
  datatype Column = Column(name: string, value: DbValue)

  type Row = seq<Column>

  /**
   * What a boundary instantiates. An ExpandoObject takes every column; an instance
   * of a CLR type keeps only the columns named exactly like one of its public
   * properties (`GetProperty(name)?.SetValue`), the others are skipped.
   */
  datatype Shape = Expando | Typed(properties: set<string>)

  predicate Accepts(shape: Shape, name: string) {
    shape.Expando? || name in shape.properties
  }

  /** An object built from a row: its shape and the fields written into it. */
  datatype Obj = Obj(shape: Shape, fields: Record)

  /** Where a column's value goes: the main object or one of the linked slots. */
  datatype Slot = Main | Linked(index: nat)

  /** Splitter mode tests the name's prefix, id mode compares it with "id" ignoring case. */
  predicate IsBoundary(useSplitter: bool, name: string) {
    if useSplitter then StartsWith(name, SplitterPrefix) else EqualsIgnoreCase(name, "id")
  }

  /** A splitter column only marks a boundary; every other column has its value written. */
  predicate Stored(useSplitter: bool, name: string) {
    !(useSplitter && IsBoundary(useSplitter, name))
  }

  /** The number of boundary columns in `row`. */
  function Boundaries(useSplitter: bool, row: Row): nat {
    if row == [] then 0
    else Boundaries(useSplitter, row[..|row| - 1]) + (if IsBoundary(useSplitter, row[|row| - 1].name) then 1 else 0)
  }

  /** Column `j` belongs to the last object opened at or before it: the main object if no boundary came yet. */
  function OwnerOf(useSplitter: bool, row: Row, j: nat): Slot
    requires j < |row|
  {
    var b := Boundaries(useSplitter, row[..j + 1]);
    if b == 0 then Main else Linked(b - 1)
  }

  /** The fields that the columns of `row` write, in column order, into the object of `slot`. */
  function Build(useSplitter: bool, shape: Shape, row: Row, slot: Slot): Record {
    if row == [] then []
    else
      var j := |row| - 1;
      var before := Build(useSplitter, shape, row[..j], slot);
      if OwnerOf(useSplitter, row, j) == slot && Stored(useSplitter, row[j].name) && Accepts(shape, row[j].name)
      then Set(before, row[j].name, Normalize(row[j].value))
      else before
  }

  /** The main object exists only when column 0 is not itself a boundary. */
  function MainObject(useSplitter: bool, mainShape: Shape, row: Row): Option<Obj> {
    if row != [] && !IsBoundary(useSplitter, row[0].name)
    then Some(Obj(mainShape, Build(useSplitter, mainShape, row, Main)))
    else None
  }

  /** Slot k holds an object of `shape` once the row has more than k boundaries, and null otherwise. */
  function SlotObject(useSplitter: bool, shape: Shape, row: Row, k: nat): Option<Obj> {
    if k < Boundaries(useSplitter, row) then Some(Obj(shape, Build(useSplitter, shape, row, Linked(k)))) else None
  }

  /** The linked-object array: slot k is instantiated from `linkedShapes[k]`. */
  function LinkedObjects(useSplitter: bool, linkedShapes: seq<Shape>, row: Row): seq<Option<Obj>> {
    seq(|linkedShapes|, k requires 0 <= k < |linkedShapes| => SlotObject(useSplitter, linkedShapes[k], row, k))
  }

  datatype Decoded = Decoded(main: Option<Obj>, linked: seq<Option<Obj>>)

  /** More boundaries than slots: `linkedObjects[objectIndex++]` (or the type enumerator) runs off the end. */
  datatype DecodeError = TooManyLinkedObjects

  /** What one row decodes to, with as many linked slots as `linkedShapes` has entries. */
  function DecodeRow(useSplitter: bool, mainShape: Shape, linkedShapes: seq<Shape>, row: Row): Result<Decoded, DecodeError> {
    if Boundaries(useSplitter, row) > |linkedShapes| then Failure(TooManyLinkedObjects)
    else Success(Decoded(MainObject(useSplitter, mainShape, row), LinkedObjects(useSplitter, linkedShapes, row)))
  }

  /** A prefix of a row never has more boundaries than the row. */
  lemma {:induction false} BoundariesMonotone(useSplitter: bool, row: Row, i: nat)
    requires i <= |row|
    ensures Boundaries(useSplitter, row[..i]) <= Boundaries(useSplitter, row)
    decreases |row|
  {
    if i < |row| {
      var n := |row| - 1;
      BoundariesMonotone(useSplitter, row[..n], i);
      assert row[..n][..i] == row[..i];
    } else {
      assert row[..i] == row;
    }
  }

  /** Nothing is written into a linked slot before the boundary that opens it. */
  lemma {:induction false} BuildUnopened(useSplitter: bool, shape: Shape, row: Row, k: nat)
    requires Boundaries(useSplitter, row) <= k
    ensures Build(useSplitter, shape, row, Linked(k)) == []
    decreases |row|
  {
    if row != [] {
      var j := |row| - 1;
      assert row[..j + 1] == row;
      BuildUnopened(useSplitter, shape, row[..j], k);
    }
  }

  /** Extending a row by one column adds one boundary if that column is one. */
  lemma BoundariesStep(useSplitter: bool, row: Row, i: nat)
    requires i < |row|
    ensures Boundaries(useSplitter, row[..i + 1])
         == Boundaries(useSplitter, row[..i]) + (if IsBoundary(useSplitter, row[i].name) then 1 else 0)
  {
    assert row[..i + 1][..i] == row[..i];
  }

  /** Extending a row by one column changes the object of `slot` by that column's write at most. */
  lemma BuildStep(useSplitter: bool, shape: Shape, row: Row, i: nat, slot: Slot)
    requires i < |row|
    ensures Boundaries(useSplitter, row[..i + 1])
         == Boundaries(useSplitter, row[..i]) + (if IsBoundary(useSplitter, row[i].name) then 1 else 0)
    ensures OwnerOf(useSplitter, row[..i + 1], i) == OwnerOf(useSplitter, row, i)
    ensures Build(useSplitter, shape, row[..i + 1], slot)
         == if OwnerOf(useSplitter, row, i) == slot && Stored(useSplitter, row[i].name) && Accepts(shape, row[i].name)
            then Set(Build(useSplitter, shape, row[..i], slot), row[i].name, Normalize(row[i].value))
            else Build(useSplitter, shape, row[..i], slot)
  {
    assert row[..i + 1][..i] == row[..i];
    assert row[..i + 1][..i + 1] == row[..i + 1];
  }

  /** `obj[fieldName] = value` on an ExpandoObject, `GetProperty(fieldName)?.SetValue(obj, value)` on a typed one. */
  function Write(o: Obj, name: string, v: Value): Obj {
    if Accepts(o.shape, name) then o.(fields := Set(o.fields, name, v)) else o
  }

  /** How one more column changes slot k: it opens it (a boundary), or is written into it (the slot's own column). */
  lemma SlotStep(useSplitter: bool, shape: Shape, row: Row, i: nat, k: nat)
    requires i < |row|
    ensures var b := Boundaries(useSplitter, row[..i]);
            var before := SlotObject(useSplitter, shape, row[..i], k);
            var v := Normalize(row[i].value);
            SlotObject(useSplitter, shape, row[..i + 1], k)
            == if IsBoundary(useSplitter, row[i].name) && k == b then
                 Some(if Stored(useSplitter, row[i].name) then Write(Obj(shape, []), row[i].name, v) else Obj(shape, []))
               else if !IsBoundary(useSplitter, row[i].name) && b > 0 && k == b - 1 then
                 Some(Write(before.value, row[i].name, v))
               else before
  {
    BuildStep(useSplitter, shape, row, i, Linked(k));
    if IsBoundary(useSplitter, row[i].name) && k == Boundaries(useSplitter, row[..i]) {
      BuildUnopened(useSplitter, shape, row[..i], k);
    }
  }

  /** A boundary column opens the next linked slot; in id mode its own value is the new object's first field. */
  lemma OpenStep(useSplitter: bool, mainShape: Shape, linkedShapes: seq<Shape>, row: Row, i: nat)
    requires i < |row| && IsBoundary(useSplitter, row[i].name)
    requires Boundaries(useSplitter, row[..i]) < |linkedShapes|
    ensures Boundaries(useSplitter, row[..i + 1]) == Boundaries(useSplitter, row[..i]) + 1
    ensures OwnerOf(useSplitter, row, i) == Linked(Boundaries(useSplitter, row[..i]))
    ensures MainObject(useSplitter, mainShape, row[..i + 1]) == MainObject(useSplitter, mainShape, row[..i])
    ensures var b := Boundaries(useSplitter, row[..i]);
            var created := Obj(linkedShapes[b], []);
            LinkedObjects(useSplitter, linkedShapes, row[..i + 1])
            == LinkedObjects(useSplitter, linkedShapes, row[..i])[b := Some(
                 if Stored(useSplitter, row[i].name) then Write(created, row[i].name, Normalize(row[i].value)) else created)]
  {
    var b := Boundaries(useSplitter, row[..i]);
    BuildStep(useSplitter, mainShape, row, i, Main);
    if i > 0 {
      assert row[..i + 1][0] == row[..i][0];
    }
    var before := LinkedObjects(useSplitter, linkedShapes, row[..i]);
    var after := LinkedObjects(useSplitter, linkedShapes, row[..i + 1]);
    var created := Obj(linkedShapes[b], []);
    var x := Some(if Stored(useSplitter, row[i].name) then Write(created, row[i].name, Normalize(row[i].value)) else created);
    forall k | 0 <= k < |linkedShapes|
      ensures after[k] == before[b := x][k]
    {
      SlotStep(useSplitter, linkedShapes[k], row, i, k);
    }
  }

  /** Column 0 that is not a boundary opens the main object and becomes its first field. */
  lemma FirstStep(useSplitter: bool, mainShape: Shape, linkedShapes: seq<Shape>, row: Row)
    requires row != [] && !IsBoundary(useSplitter, row[0].name)
    ensures Boundaries(useSplitter, row[..1]) == 0
    ensures OwnerOf(useSplitter, row, 0) == Main
    ensures MainObject(useSplitter, mainShape, row[..1])
         == Some(Write(Obj(mainShape, []), row[0].name, Normalize(row[0].value)))
    ensures LinkedObjects(useSplitter, linkedShapes, row[..1]) == LinkedObjects(useSplitter, linkedShapes, row[..0])
  {
    BuildStep(useSplitter, mainShape, row, 0, Main);
    assert row[..0] == [];
    var before := LinkedObjects(useSplitter, linkedShapes, row[..0]);
    var after := LinkedObjects(useSplitter, linkedShapes, row[..1]);
    forall k | 0 <= k < |linkedShapes|
      ensures after[k] == before[k]
    {
      SlotStep(useSplitter, linkedShapes[k], row, 0, k);
    }
  }

  /** The main object exists once some prefix without boundaries has been read. */
  lemma MainOpened(useSplitter: bool, mainShape: Shape, row: Row, i: nat)
    requires 0 < i <= |row| && Boundaries(useSplitter, row[..i]) == 0
    ensures MainObject(useSplitter, mainShape, row[..i]).Some?
  {
    BoundariesMonotone(useSplitter, row[..i], 1);
    assert row[..i][..1] == [row[0]];
    assert [row[0]][..0] == [];
  }

  /** Any other column goes to the same object as the previous column. */
  lemma ContinueOwner(useSplitter: bool, row: Row, i: nat)
    requires 0 < i < |row| && !IsBoundary(useSplitter, row[i].name)
    ensures Boundaries(useSplitter, row[..i + 1]) == Boundaries(useSplitter, row[..i])
    ensures OwnerOf(useSplitter, row, i) == OwnerOf(useSplitter, row, i - 1)
  {
    assert row[..i + 1][..i] == row[..i];
    assert row[..i][..i] == row[..i];
  }

  /** A column after the first one, while no boundary has been seen, is written into the main object. */
  lemma ContinueMainStep(useSplitter: bool, mainShape: Shape, linkedShapes: seq<Shape>, row: Row, i: nat)
    requires 0 < i < |row| && !IsBoundary(useSplitter, row[i].name)
    requires Boundaries(useSplitter, row[..i]) == 0
    ensures MainObject(useSplitter, mainShape, row[..i]).Some?
    ensures MainObject(useSplitter, mainShape, row[..i + 1])
         == Some(Write(MainObject(useSplitter, mainShape, row[..i]).value, row[i].name, Normalize(row[i].value)))
    ensures LinkedObjects(useSplitter, linkedShapes, row[..i + 1]) == LinkedObjects(useSplitter, linkedShapes, row[..i])
  {
    ContinueOwner(useSplitter, row, i);
    BuildStep(useSplitter, mainShape, row, i, Main);
    assert row[..i + 1][0] == row[..i][0];
    MainOpened(useSplitter, mainShape, row, i);
    var before := LinkedObjects(useSplitter, linkedShapes, row[..i]);
    var after := LinkedObjects(useSplitter, linkedShapes, row[..i + 1]);
    forall k | 0 <= k < |linkedShapes|
      ensures after[k] == before[k]
    {
      SlotStep(useSplitter, linkedShapes[k], row, i, k);
    }
  }

  /** A column after the first one that belongs to a linked object leaves the main object as it was. */
  lemma MainUnchanged(useSplitter: bool, mainShape: Shape, row: Row, i: nat)
    requires 0 < i < |row| && OwnerOf(useSplitter, row, i) != Main
    ensures MainObject(useSplitter, mainShape, row[..i + 1]) == MainObject(useSplitter, mainShape, row[..i])
  {
    BuildStep(useSplitter, mainShape, row, i, Main);
    assert row[..i + 1][0] == row[..i][0];
  }

  /** A column after the first one, once some boundary has been seen, is written into the last opened slot. */
  lemma ContinueLinkedStep(useSplitter: bool, linkedShapes: seq<Shape>, row: Row, i: nat)
    requires 0 < i < |row| && !IsBoundary(useSplitter, row[i].name)
    requires 0 < Boundaries(useSplitter, row[..i]) <= |linkedShapes|
    ensures var k := Boundaries(useSplitter, row[..i]) - 1;
            && LinkedObjects(useSplitter, linkedShapes, row[..i])[k].Some?
            && LinkedObjects(useSplitter, linkedShapes, row[..i + 1])
               == LinkedObjects(useSplitter, linkedShapes, row[..i])[k := Some(
                    Write(LinkedObjects(useSplitter, linkedShapes, row[..i])[k].value, row[i].name, Normalize(row[i].value)))]
  {
    var b := Boundaries(useSplitter, row[..i]);
    var before := LinkedObjects(useSplitter, linkedShapes, row[..i]);
    assert before[b - 1].Some?;
    var after := LinkedObjects(useSplitter, linkedShapes, row[..i + 1]);
    var x := Some(Write(before[b - 1].value, row[i].name, Normalize(row[i].value)));
    forall k | 0 <= k < |linkedShapes|
      ensures after[k] == before[b - 1 := x][k]
    {
      SlotStep(useSplitter, linkedShapes[k], row, i, k);
    }
    assert after == before[b - 1 := x];
  }

  /** `obj[fieldName] = value`, where `current` says which object `obj` refers to. */
  method WriteCurrent(current: Slot, main: Option<Obj>, linked: array<Option<Obj>>, name: string, value: Value)
    returns (main': Option<Obj>)
    requires current == Main ==> main.Some?
    requires current.Linked? ==> current.index < linked.Length && linked[current.index].Some?
    modifies linked
    ensures current == Main ==> main' == Some(Write(main.value, name, value)) && linked[..] == old(linked[..])
    ensures current.Linked? ==>
              && main' == main
              && linked[..] == old(linked[..])[current.index := Some(Write(old(linked[current.index]).value, name, value))]
  {
    main' := main;
    match current
    case Main =>
      main' := Some(Write(main.value, name, value));
    case Linked(k) =>
      linked[k] := Some(Write(linked[k].value, name, value));
  }

  /** What the column loop knows after reading the first `i` columns of `row`. */
  ghost predicate ReadUpTo(useSplitter: bool, mainShape: Shape, linkedShapes: seq<Shape>, row: Row, i: nat,
                           main: Option<Obj>, linked: seq<Option<Obj>>, objectIndex: nat, current: Slot)
  {
    && i <= |row|
    && objectIndex == Boundaries(useSplitter, row[..i]) <= |linkedShapes|
    && main == MainObject(useSplitter, mainShape, row[..i])
    && linked == LinkedObjects(useSplitter, linkedShapes, row[..i])
    && (i > 0 ==> current == OwnerOf(useSplitter, row, i - 1))
  }

  /** A boundary column with a free slot: the slot gets a new object, which an id column is written into. */
  lemma OpenReads(useSplitter: bool, mainShape: Shape, linkedShapes: seq<Shape>, row: Row, i: nat,
                  main: Option<Obj>, linked: seq<Option<Obj>>, objectIndex: nat, current: Slot)
    requires i < |row| && IsBoundary(useSplitter, row[i].name) && objectIndex < |linkedShapes|
    requires ReadUpTo(useSplitter, mainShape, linkedShapes, row, i, main, linked, objectIndex, current)
    ensures var created := Obj(linkedShapes[objectIndex], []);
            var written := if Stored(useSplitter, row[i].name) then Write(created, row[i].name, Normalize(row[i].value)) else created;
            ReadUpTo(useSplitter, mainShape, linkedShapes, row, i + 1, main, linked[objectIndex := Some(written)],
                     objectIndex + 1, Linked(objectIndex))
  {
    OpenStep(useSplitter, mainShape, linkedShapes, row, i);
  }

  /** A boundary column with every slot taken: the row has more boundaries than slots. */
  lemma OverflowReads(useSplitter: bool, mainShape: Shape, linkedShapes: seq<Shape>, row: Row, i: nat,
                      main: Option<Obj>, linked: seq<Option<Obj>>, objectIndex: nat, current: Slot)
    requires i < |row| && IsBoundary(useSplitter, row[i].name) && objectIndex == |linkedShapes|
    requires ReadUpTo(useSplitter, mainShape, linkedShapes, row, i, main, linked, objectIndex, current)
    ensures Boundaries(useSplitter, row[..i + 1]) > |linkedShapes|
  {
    BuildStep(useSplitter, mainShape, row, i, Main);
  }

  /** Column 0, not a boundary: the main object is created and takes the column. */
  lemma FirstReads(useSplitter: bool, mainShape: Shape, linkedShapes: seq<Shape>, row: Row,
                   main: Option<Obj>, linked: seq<Option<Obj>>, objectIndex: nat, current: Slot)
    requires row != [] && !IsBoundary(useSplitter, row[0].name)
    requires ReadUpTo(useSplitter, mainShape, linkedShapes, row, 0, main, linked, objectIndex, current)
    ensures ReadUpTo(useSplitter, mainShape, linkedShapes, row, 1,
                     Some(Write(Obj(mainShape, []), row[0].name, Normalize(row[0].value))), linked, objectIndex, Main)
  {
    FirstStep(useSplitter, mainShape, linkedShapes, row);
  }

  /** A later column that is not a boundary goes into the current object. */
  lemma ContinueReads(useSplitter: bool, mainShape: Shape, linkedShapes: seq<Shape>, row: Row, i: nat,
                      main: Option<Obj>, linked: seq<Option<Obj>>, objectIndex: nat, current: Slot)
    requires 0 < i < |row| && !IsBoundary(useSplitter, row[i].name)
    requires ReadUpTo(useSplitter, mainShape, linkedShapes, row, i, main, linked, objectIndex, current)
    ensures current == Main ==>
              && main.Some?
              && ReadUpTo(useSplitter, mainShape, linkedShapes, row, i + 1,
                       Some(Write(main.value, row[i].name, Normalize(row[i].value))), linked, objectIndex, current)
    ensures current.Linked? ==>
              && current.index < |linked|
              && linked[current.index].Some?
              && ReadUpTo(useSplitter, mainShape, linkedShapes, row, i + 1, main,
                       linked[current.index := Some(Write(linked[current.index].value, row[i].name, Normalize(row[i].value)))],
                       objectIndex, current)
  {
    ContinueOwner(useSplitter, row, i);
    if objectIndex == 0 {
      ContinueMainStep(useSplitter, mainShape, linkedShapes, row, i);
    } else {
      MainUnchanged(useSplitter, mainShape, row, i);
      ContinueLinkedStep(useSplitter, linkedShapes, row, i);
    }
  }

  /**
   * One turn of the column loop: the boundary tests in the source's order, then the
   * write `obj[fieldName] = value`, which a splitter column skips (`continue`).
   * `ok` is false when a boundary finds every slot taken.
   */
  method ReadColumn(useSplitter: bool, mainShape: Shape, linkedShapes: seq<Shape>, row: Row, i: nat,
                    linked: array<Option<Obj>>, main: Option<Obj>, objectIndex: nat, current: Slot)
    returns (main': Option<Obj>, objectIndex': nat, current': Slot, ok: bool)
    requires i < |row| && linked.Length == |linkedShapes|
    requires ReadUpTo(useSplitter, mainShape, linkedShapes, row, i, main, linked[..], objectIndex, current)
    modifies linked
    ensures ok ==> ReadUpTo(useSplitter, mainShape, linkedShapes, row, i + 1, main', linked[..], objectIndex', current')
    ensures !ok ==> Boundaries(useSplitter, row[..i + 1]) > |linkedShapes|
  {
    main', objectIndex', current', ok := main, objectIndex, current, true;
    var name := row[i].name;
    var value := Normalize(row[i].value);
    ghost var before := linked[..];
    if useSplitter && StartsWith(name, SplitterPrefix) {
      if objectIndex == linked.Length {
        OverflowReads(useSplitter, mainShape, linkedShapes, row, i, main, before, objectIndex, current);
        return main, objectIndex, current, false;
      }
      OpenReads(useSplitter, mainShape, linkedShapes, row, i, main, before, objectIndex, current);
      linked[objectIndex] := Some(Obj(linkedShapes[objectIndex], []));
      current' := Linked(objectIndex);
      objectIndex' := objectIndex + 1;
      return;
    } else if !useSplitter && EqualsIgnoreCase(name, "id") {
      if objectIndex == linked.Length {
        OverflowReads(useSplitter, mainShape, linkedShapes, row, i, main, before, objectIndex, current);
        return main, objectIndex, current, false;
      }
      OpenReads(useSplitter, mainShape, linkedShapes, row, i, main, before, objectIndex, current);
      linked[objectIndex] := Some(Obj(linkedShapes[objectIndex], []));
      current' := Linked(objectIndex);
      objectIndex' := objectIndex + 1;
    } else if i == 0 {
      FirstReads(useSplitter, mainShape, linkedShapes, row, main, before, objectIndex, current);
      main' := Some(Obj(mainShape, []));
      current' := Main;
    } else {
      ContinueReads(useSplitter, mainShape, linkedShapes, row, i, main, before, objectIndex, current);
    }
    main' := WriteCurrent(current', main', linked, name, value);
  }

  /**
   * The column loop for one row. `linked` is the reused, already cleared
   * `linkedObjects` array; `current` stands for the `obj` reference, which always
   * aliases the main object or one linked slot.
   */
  method ReadColumns(useSplitter: bool, mainShape: Shape, linkedShapes: seq<Shape>, row: Row, linked: array<Option<Obj>>)
    returns (main: Option<Obj>, ok: bool)
    requires linked.Length == |linkedShapes|
    requires forall k :: 0 <= k < linked.Length ==> linked[k] == None
    modifies linked
    ensures ok <==> Boundaries(useSplitter, row) <= |linkedShapes|
    ensures ok ==> main == MainObject(useSplitter, mainShape, row)
    ensures ok ==> linked[..] == LinkedObjects(useSplitter, linkedShapes, row)
  {
    main := None;
    var objectIndex := 0;
    var current := Main;
    assert linked[..] == LinkedObjects(useSplitter, linkedShapes, row[..0]);
    for i := 0 to |row|
      invariant ReadUpTo(useSplitter, mainShape, linkedShapes, row, i, main, linked[..], objectIndex, current)
    {
      main, objectIndex, current, ok := ReadColumn(useSplitter, mainShape, linkedShapes, row, i, linked, main, objectIndex, current);
      if !ok {
        BoundariesMonotone(useSplitter, row, i + 1);
        return;
      }
    }
    assert row[..|row|] == row;
    ok := true;
  }

  /** The two things the source does with a decoded row: call the mapper, then yield the main object. */
  datatype Event = Callback(main: Option<Obj>, linked: seq<Option<Obj>>) | Yield(item: Option<Obj>)

  /** `events` is exactly the callback and the yield of the successfully decoded row `d`. */
  predicate Reported(events: seq<Event>, d: Result<Decoded, DecodeError>) {
    d.Success? && events == [Callback(d.value.main, d.value.linked), Yield(d.value.main)]
  }

  /**
   * The row loop shared by both overloads: for every row the slots are cleared,
   * the columns read, the mapper called once, and the main object yielded. The
   * first row that overflows the slots ends the enumeration with an error; the
   * rows before it have been reported already.
   */
  method LinkRows(rows: seq<Row>, useSplitter: bool, mainShape: Shape, linkedShapes: seq<Shape>)
    returns (events: seq<Event>, failedRow: Option<nat>)
    ensures failedRow.None? ==> |events| == 2 * |rows|
    ensures failedRow.Some? ==> failedRow.value < |rows| && |events| == 2 * failedRow.value
    ensures failedRow.Some? ==> DecodeRow(useSplitter, mainShape, linkedShapes, rows[failedRow.value]).Failure?
    ensures forall r :: 0 <= r < |events| / 2 ==>
              Reported(events[2 * r..2 * r + 2], DecodeRow(useSplitter, mainShape, linkedShapes, rows[r]))
  {
    var linked := new Option<Obj>[|linkedShapes|](_ => None);
    events := [];
    failedRow := None;
    var r := 0;
    while r < |rows|
      invariant 0 <= r <= |rows|
      invariant |events| == 2 * r
      invariant forall q :: 0 <= q < r ==>
                  Reported(events[2 * q..2 * q + 2], DecodeRow(useSplitter, mainShape, linkedShapes, rows[q]))
    {
      // Array.Clear(linkedObjects, 0, linkedObjectsCount)
      for k := 0 to linked.Length
        invariant forall m :: 0 <= m < k ==> linked[m] == None
      {
        linked[k] := None;
      }
      var main, ok := ReadColumns(useSplitter, mainShape, linkedShapes, rows[r], linked);
      if !ok {
        failedRow := Some(r);
        return;
      }
      var reported := [Callback(main, linked[..]), Yield(main)];
      assert Reported(reported, DecodeRow(useSplitter, mainShape, linkedShapes, rows[r]));
      events := events + reported;
      r := r + 1;
    }
  }

  /** The dynamic overload's slots: 19 of them, each filled with an ExpandoObject. */
  function ExpandoSlots(): seq<Shape> {
    seq(DynamicLinkedSlots, _ => Expando)
  }

  /** The typed overload's slots: one per entry of `linkedTypes`, the k-th boundary instantiating `linkedTypes[k]`. */
  function TypedSlots(linkedTypes: seq<set<string>>): seq<Shape> {
    seq(|linkedTypes|, k requires 0 <= k < |linkedTypes| => Typed(linkedTypes[k]))
  }

  /** `QueryAndLink(sql, mapper, useSplitter, args)`: ExpandoObjects, 19 linked slots. */
  method QueryAndLink(rows: seq<Row>, useSplitter: bool) returns (events: seq<Event>, failedRow: Option<nat>)
    ensures failedRow.None? ==> |events| == 2 * |rows|
    ensures failedRow.Some? ==> failedRow.value < |rows| && |events| == 2 * failedRow.value
    ensures failedRow.Some? ==> Boundaries(useSplitter, rows[failedRow.value]) > DynamicLinkedSlots
    ensures forall r :: 0 <= r < |events| / 2 ==>
              Reported(events[2 * r..2 * r + 2], DecodeRow(useSplitter, Expando, ExpandoSlots(), rows[r]))
  {
    events, failedRow := LinkRows(rows, useSplitter, Expando, ExpandoSlots());
  }

  /**
   * `QueryAndLink<T>(sql, mapper, linkedTypes, useSplitter, args)`: the main object
   * is a `T` (given by its property names), the linked slots are as many as
   * `linkedTypes`, and slot k holds a `linkedTypes[k]`.
   */
  method QueryAndLinkTyped(rows: seq<Row>, mainType: set<string>, linkedTypes: seq<set<string>>, useSplitter: bool)
    returns (events: seq<Event>, failedRow: Option<nat>)
    ensures failedRow.None? ==> |events| == 2 * |rows|
    ensures failedRow.Some? ==> failedRow.value < |rows| && |events| == 2 * failedRow.value
    ensures failedRow.Some? ==> Boundaries(useSplitter, rows[failedRow.value]) > |linkedTypes|
    ensures forall r :: 0 <= r < |events| / 2 ==>
              Reported(events[2 * r..2 * r + 2], DecodeRow(useSplitter, Typed(mainType), TypedSlots(linkedTypes), rows[r]))
  {
    events, failedRow := LinkRows(rows, useSplitter, Typed(mainType), TypedSlots(linkedTypes));
  }
}
