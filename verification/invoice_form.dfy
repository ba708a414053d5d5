/**
 * The invoice form: a fixed list of fields, each placed at a grid position
 * and carrying its own zod schema. The form's schema is built by folding the
 * fields into a record, and the layout is a grid of rows allocated up front
 * and then filled cell by cell.
 */
module InvoiceForm {
  import opened Wrappers
  import opened JsValues
  import opened Strings
  import opened Zod

  /** A field of the form: its name, its caption, its column `x`, its row `y` and its schema. */
  datatype FormField = FormField(name: string, caption: string, x: nat, y: nat, schema: Schema)

  const Fields: seq<FormField> := [
    FormField("status", "Status", 0, 0, ZNumber([AtLeast(0, None)])),
    FormField("rechnungsnummer", "Rechnungsnummer", 0, 1, ZString([MinLength(1, Some("Rechnungsnummer erforderlich"))])),
    FormField("rechnungsdatum", "Rechnungsdatum", 1, 1, ZString([MinLength(1, Some("Rechnungsdatum erforderlich"))])),
    FormField("nettosumme", "Nettosumme", 0, 2, ZNumber([AtLeast(0, Some("Nettosumme muss positiv sein"))])),
    FormField("steuersatz", "Steuersatz", 1, 2, ZNumber([AtLeast(0, None), AtMost(100, Some("Steuersatz zwischen 0 und 100"))])),
    FormField("steuersumme", "Steuersumme", 0, 3, ZNumber([AtLeast(0, None)])),
    FormField("bruttosumme", "Bruttosumme", 1, 3, ZNumber([AtLeast(0, None)])),
    FormField("leistungsdatum", "Leistungsdatum", 0, 4, ZString([MinLength(1, Some("Leistungsdatum erforderlich"))])),
    FormField("faelligkeitsdatum", "Fälligkeitsdatum", 1, 4, ZString([MinLength(1, Some("Fälligkeitsdatum erforderlich"))]))
  ]

  /** The form's default values. */
  const Defaults: map<string, JsValue> := map[
    "status" := Number(0),
    "rechnungsnummer" := Str(""),
    "rechnungsdatum" := Str(""),
    "nettosumme" := Number(0),
    "steuersatz" := Number(0),
    "steuersumme" := Number(0),
    "bruttosumme" := Number(0),
    "leistungsdatum" := Str(""),
    "faelligkeitsdatum" := Str("")
  ]

  function Names(fields: seq<FormField>): set<string> {
    set i | 0 <= i < |fields| :: fields[i].name
  }

  /** The largest column, `Math.max(...fields.map(f => f.x))`, over a non-empty list. */
  function MaxX(fields: seq<FormField>): (m: nat)
    requires |fields| > 0
    ensures forall i :: 0 <= i < |fields| ==> fields[i].x <= m
    ensures exists i :: 0 <= i < |fields| && fields[i].x == m
  {
    var last := fields[|fields| - 1];
    if |fields| == 1 then last.x
    else
      var m := MaxX(fields[..|fields| - 1]);
      if m < last.x then last.x else m
  }

  function MaxY(fields: seq<FormField>): (m: nat)
    requires |fields| > 0
    ensures forall i :: 0 <= i < |fields| ==> fields[i].y <= m
    ensures exists i :: 0 <= i < |fields| && fields[i].y == m
  {
    var last := fields[|fields| - 1];
    if |fields| == 1 then last.y
    else
      var m := MaxY(fields[..|fields| - 1]);
      if m < last.y then last.y else m
  }

  /** The number of columns. With no fields the maximum is -Infinity and `Array.from` makes no rows at all. */
  function Columns(fields: seq<FormField>): nat {
    if |fields| == 0 then 0 else MaxX(fields) + 1
  }

  function Rows(fields: seq<FormField>): nat {
    if |fields| == 0 then 0 else MaxY(fields) + 1
  }

  /** The field drawn in a cell: the last field in the list that targets it, if any. */
  function CellOf(fields: seq<FormField>, row: nat, col: nat): Option<FormField> {
    if |fields| == 0 then None
    else
      var last := fields[|fields| - 1];
      if last.y == row && last.x == col then Some(last) else CellOf(fields[..|fields| - 1], row, col)
  }

  /** Allocates the grid with every cell empty, then writes each field into its cell in list order. */
  method PlaceFields(fields: seq<FormField>) returns (grid: array2<Option<FormField>>)
    ensures fresh(grid)
    ensures grid.Length0 == Rows(fields) && grid.Length1 == Columns(fields)
    ensures forall r, c :: 0 <= r < grid.Length0 && 0 <= c < grid.Length1 ==> grid[r, c] == CellOf(fields, r, c)
  {
    grid := new Option<FormField>[Rows(fields), Columns(fields)]((r, c) => None);
    for i := 0 to |fields|
      invariant forall r, c :: 0 <= r < grid.Length0 && 0 <= c < grid.Length1 ==> grid[r, c] == CellOf(fields[..i], r, c)
    {
      var field := fields[i];
      assert fields[..i + 1][..i] == fields[..i];
      grid[field.y, field.x] := Some(field);
    }
    assert fields[..|fields|] == fields;
  }

  /** The grid has a row past the largest `y` and a column past the largest `x`, so every field lands inside it. */
  lemma FieldsFitGrid(fields: seq<FormField>, i: nat)
    requires i < |fields|
    ensures fields[i].y < Rows(fields) && fields[i].x < Columns(fields)
    ensures Rows(fields) > 0 && Columns(fields) > 0
  {
  }

  /** A field is drawn in its cell unless a later field targets the same cell. */
  lemma {:induction false} LastWriterWins(fields: seq<FormField>, i: nat)
    requires i < |fields|
    requires forall j :: i < j < |fields| ==> fields[j].y != fields[i].y || fields[j].x != fields[i].x
    ensures CellOf(fields, fields[i].y, fields[i].x) == Some(fields[i])
  {
    if i < |fields| - 1 {
      var init := fields[..|fields| - 1];
      assert init[i] == fields[i];
      LastWriterWins(init, i);
    }
  }

  /** A cell is empty exactly when no field targets it, and a drawn field is one that targets the cell. */
  lemma {:induction false} CellOfMeaning(fields: seq<FormField>, row: nat, col: nat)
    ensures CellOf(fields, row, col).None? <==> forall i :: 0 <= i < |fields| ==> fields[i].y != row || fields[i].x != col
    ensures CellOf(fields, row, col).Some? ==>
      exists i :: 0 <= i < |fields| && fields[i] == CellOf(fields, row, col).value && fields[i].y == row && fields[i].x == col
  {
    if |fields| > 0 {
      var init := fields[..|fields| - 1];
      CellOfMeaning(init, row, col);
      assert forall i :: 0 <= i < |init| ==> init[i] == fields[i];
    }
  }

  /** The invoice grid has five rows of two columns; `status` sits alone in the first row. */
  lemma InvoiceGrid()
    ensures Rows(Fields) == 5 && Columns(Fields) == 2
    ensures CellOf(Fields, 0, 0) == Some(Fields[0]) && CellOf(Fields, 0, 1) == None
  {
    LastWriterWins(Fields, 0);
    forall i | 0 <= i < |Fields|
      ensures Fields[i].y != 0 || Fields[i].x != 1
    {
      assert i in {0, 1, 2, 3, 4, 5, 6, 7, 8};
    }
    CellOfMeaning(Fields, 0, 1);
  }

  /** No two invoice fields share a cell, so each one is drawn where it asks to be. */
  lemma InvoiceFieldsDrawn(i: nat)
    requires i < |Fields|
    ensures CellOf(Fields, Fields[i].y, Fields[i].x) == Some(Fields[i])
  {
    LastWriterWins(Fields, i);
  }

  /** `formFields.reduce((acc, field) => { acc[field.name] = field.schema; ... }, {})`, the fields taken in order. */
  function SchemaShape(fields: seq<FormField>): map<string, Schema> {
    if |fields| == 0 then map[]
    else SchemaShape(fields[..|fields| - 1])[fields[|fields| - 1].name := fields[|fields| - 1].schema]
  }

  method BuildSchemaShape(fields: seq<FormField>) returns (acc: map<string, Schema>)
    ensures acc == SchemaShape(fields)
  {
    acc := map[];
    for i := 0 to |fields|
      invariant acc == SchemaShape(fields[..i])
    {
      assert fields[..i + 1][..i] == fields[..i];
      acc := acc[fields[i].name := fields[i].schema];
    }
    assert fields[..|fields|] == fields;
  }

  /** The record's keys are the field names, and each name maps to the schema of the last field carrying it. */
  lemma {:induction false} SchemaShapeContents(fields: seq<FormField>, i: nat)
    requires i < |fields|
    requires forall j :: i < j < |fields| ==> fields[j].name != fields[i].name
    ensures SchemaShape(fields).Keys == Names(fields)
    ensures SchemaShape(fields)[fields[i].name] == fields[i].schema
  {
    SchemaShapeKeys(fields);
    if i < |fields| - 1 {
      var init := fields[..|fields| - 1];
      assert init[i] == fields[i];
      SchemaShapeContents(init, i);
    }
  }

  lemma {:induction false} SchemaShapeKeys(fields: seq<FormField>)
    ensures SchemaShape(fields).Keys == Names(fields)
  {
    if |fields| > 0 {
      var init := fields[..|fields| - 1];
      SchemaShapeKeys(init);
      assert Names(fields) == Names(init) + {fields[|fields| - 1].name} by {
        assert forall i :: 0 <= i < |init| ==> init[i] == fields[i];
      }
    }
  }

  /** The invoice field names are distinct, so the form schema gives every field its own schema. */
  lemma InvoiceSchema()
    ensures SchemaShape(Fields).Keys == Names(Fields)
    ensures forall i :: 0 <= i < |Fields| ==> SchemaShape(Fields)[Fields[i].name] == Fields[i].schema
  {
    SchemaShapeKeys(Fields);
    forall i | 0 <= i < |Fields|
      ensures SchemaShape(Fields)[Fields[i].name] == Fields[i].schema
    {
      SchemaShapeContents(Fields, i);
    }
  }

  /** The defaults name exactly the fields; the numeric defaults pass their schemas and the empty text defaults do not. */
  lemma DefaultsCoverFields(o: Oracles, i: nat)
    requires i < |Fields|
    ensures Defaults.Keys == Names(Fields)
    ensures Accepts(Fields[i].schema, Defaults[Fields[i].name], o) <==> Fields[i].schema.ZNumber?
  {
    assert Names(Fields) == {Fields[0].name, Fields[1].name, Fields[2].name, Fields[3].name, Fields[4].name,
                             Fields[5].name, Fields[6].name, Fields[7].name, Fields[8].name};
    var f := Fields[i];
    if f.schema.ZNumber? {
      NumberAccepts(f.schema.numberChecks, Defaults[f.name], o);
    } else {
      StringAccepts(f.schema.checks, Defaults[f.name], o);
      assert JsLength("") == 0;
    }
  }
}
