/// Worked examples of the batch synthesizer on a `Products` table whose primary
/// key is `Id` and whose parameters are written `@0`, `@1`, ... (the SQL Server
/// convention).
module BatchSqlScenarios {
  import opened Records
  import opened BatchSql

  function Products(): DynamicModel {
    DynamicModel("Products", "Id", s => "@" + s)
  }

  /** Below ten a placeholder is `@` and one digit. */
  lemma ProductsPlaceholder(n: nat)
    requires n < 10
    ensures Placeholder(Products(), n) == ['@', Digit(n)]
  {
    assert NatToString(n) == [Digit(n)];
  }

  /** Two consecutive placeholders below ten. */
  lemma ProductsPlaceholderPair(start: nat)
    requires start < 9
    ensures Placeholders(Products(), start, 2) == [['@', Digit(start)], ['@', Digit(start + 1)]]
  {
    ProductsPlaceholder(start);
    ProductsPlaceholder(start + 1);
    assert Placeholders(Products(), start, 1) == [Placeholder(Products(), start)];
  }

  /** A record with no field called `Id` (in any case) is all written. */
  lemma NameQtyFields(name: Value, qty: Value)
    ensures var r := [Field("Name", name), Field("Qty", qty)];
            && NonKeyFields(Products(), r) == r
            && InsertedFields(Products(), r, false) == r
  {
    var r := [Field("Name", name), Field("Qty", qty)];
    assert !IsPrimaryKey(Products(), "Name") by {
      assert UpperInvariant('N') != UpperInvariant('I');
    }
    assert !IsPrimaryKey(Products(), "Qty");
    assert r[..1] == [r[0]];
    assert NonKeyFields(Products(), r[..1]) == [r[0]];
  }

  /** Two products with name and quantity: two statements over (Name, Qty), parameters @0..@3 in order. */
  lemma InsertScenario()
    ensures var batch := [[Field("Name", Text("x")), Field("Qty", Int(1))],
                          [Field("Name", Text("y")), Field("Qty", Int(2))]];
            InsertCommand(Products(), batch, false)
            == Success(Command([InsertInto("Products", ["Name", "Qty"], ["@0", "@1"]),
                                InsertInto("Products", ["Name", "Qty"], ["@2", "@3"])],
                               [Text("x"), Int(1), Text("y"), Int(2)]))
  {
    var m := Products();
    var r1 := [Field("Name", Text("x")), Field("Qty", Int(1))];
    var r2 := [Field("Name", Text("y")), Field("Qty", Int(2))];
    var batch := [r1, r2];
    NameQtyFields(Text("x"), Int(1));
    NameQtyFields(Text("y"), Int(2));
    assert batch[..1] == [r1];
    assert [r1][..0] == batch[..0];
    assert InsertParameters(m, [r1], false) == [Text("x"), Int(1)] by {
      assert r1[..1] == [r1[0]];
    }
    assert InsertParameters(m, batch, false) == [Text("x"), Int(1), Text("y"), Int(2)] by {
      assert r2[..1] == [r2[0]];
    }
    assert FieldNames(r1) == ["Name", "Qty"] by {
      assert r1[..1] == [r1[0]];
    }
    var fields := ["Name", "Qty"];
    assert InsertStatements(m, fields, [r1], false) == [InsertInto("Products", fields, ["@0", "@1"])] by {
      ProductsPlaceholderPair(0);
      assert InsertParameters(m, [r1][..0], false) == [];
    }
    assert InsertStatements(m, fields, batch, false)
        == [InsertInto("Products", fields, ["@0", "@1"]), InsertInto("Products", fields, ["@2", "@3"])] by {
      ProductsPlaceholderPair(2);
    }
  }

  /** A product whose name is null: `Name = NULL` inline, only the quantity bound, the key 7 in the WHERE clause. */
  lemma UpdateScenario()
    ensures var batch := [[Field("Id", Int(7)), Field("Name", Null), Field("Qty", Int(3))]];
            UpdateCommand(Products(), batch)
            == Success(Command([UpdateSet("Products", [AssignNull("Name"), AssignParam("Qty", "@0")], "Id", Int(7))],
                               [Int(3)]))
  {
    var m := Products();
    var r := [Field("Id", Int(7)), Field("Name", Null), Field("Qty", Int(3))];
    var batch := [r];
    var fs := [r[1], r[2]];
    assert NonKeyFields(m, r) == fs by {
      assert IsPrimaryKey(m, "Id") && !IsPrimaryKey(m, "Name") && !IsPrimaryKey(m, "Qty");
      assert r[..1] == [r[0]] && r[..2] == [r[0], r[1]];
      assert NonKeyFields(m, r[..1]) == [];
      assert NonKeyFields(m, r[..2]) == [r[1]];
    }
    assert BoundValues(fs[..1]) == [] by {
      assert fs[..1] == [r[1]];
    }
    assert BoundValues(fs) == [Int(3)];
    assert Assignments(m, fs, 0) == [AssignNull("Name"), AssignParam("Qty", "@0")] by {
      ProductsPlaceholder(0);
      assert fs[..1] == [r[1]];
    }
    assert Lookup(r, "Id") == Some(Int(7));
    assert UpdateErrors(m, batch) == [None];
    assert FirstError(UpdateErrors(m, batch)) == None;
    assert batch[..0] == [];
    assert KeyValues(m, batch) == [Int(7)];
    assert UpdateParameters(m, batch) == [Int(3)];
    assert UpdateStatements(m, batch, [Int(7)])
        == [UpdateSet("Products", [AssignNull("Name"), AssignParam("Qty", "@0")], "Id", Int(7))] by {
      assert UpdateStatements(m, batch[..0], [Int(7)][..0]) == [];
      assert UpdateParameters(m, batch[..0]) == [];
    }
  }

  /** Two products deleted by key: one statement `Id IN (@0,@1)`, the keys 7 and 8 as its parameters. */
  lemma DeleteScenario()
    ensures var batch := [[Field("Id", Int(7))], [Field("Id", Int(8)), Field("Name", Text("y"))]];
            DeleteCommand(Products(), batch)
            == Success(Command([DeleteWhereIn("Products", "Id", "@0,@1")], [Int(7), Int(8)]))
  {
    var m := Products();
    var r1 := [Field("Id", Int(7))];
    var r2 := [Field("Id", Int(8)), Field("Name", Text("y"))];
    var batch := [r1, r2];
    assert Lookup(r1, "Id") == Some(Int(7));
    assert Lookup(r2, "Id") == Some(Int(8));
    assert DeleteErrors(m, batch) == [None, None];
    assert FirstError(DeleteErrors(m, batch)) == None by {
      var none: seq<Option<SqlError>> := [None, None];
      assert none[1..] == [None];
      assert FirstError([None]) == None by {
        assert [None][1..] == none[..0];
      }
    }
    assert KeyValues(m, batch) == [Int(7), Int(8)] by {
      assert batch[..1] == [r1];
      assert [r1][..0] == batch[..0];
    }
    assert DeleteListed(m, 2) == "@0,@1," by {
      assert NatToString(0) == "0" && NatToString(1) == "1";
      assert DeleteListed(m, 1) == "@0,";
    }
    assert DeleteList(m, 2) == "@0,@1";
  }
}
