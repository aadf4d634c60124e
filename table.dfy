/** The table components: `TableCell`, `TableRow`, `TableHeaderCell`,
    `TableHeader` and `Table`. Each one decides which child elements it
    produces; CSS classes and prop spreading are not modelled. */
module Tables {
  import opened JsValues

  // ---------------------------------------------------------------------------
  // TableCell

  /** A rendered `<td>`: what it shows and the extra attributes it receives. */
  datatype CellView = CellView(content: Value, attrs: seq<Field>)

  /** `TableCell`: shows `children` when truthy, otherwise `cellData`, whose
      default (when `undefined`) is the empty string. */
  function TableCell(cellData: Value, children: Value, attrs: seq<Field>): (c: CellView)
    ensures Truthy(children) ==> c.content == children
    ensures !Truthy(children) && cellData != Undefined ==> c.content == cellData
    ensures !Truthy(children) && cellData == Undefined ==> c.content == Str("")
    ensures c.attrs == attrs
  {
    var data := WithDefault(cellData, Str(""));
    CellView(if Truthy(children) then children else data, attrs)
  }

  // ---------------------------------------------------------------------------
  // TableRow

  /** An entry of `rowProps.columns`: `{ key, ...htmlProps }`. A missing key is `None`. */
  datatype Column = Column(key: Option<string>, htmlProps: seq<Field>)

  /** What a row yields per column: a keyed cell, or the falsy `key` value itself
      (which React draws as nothing). */
  datatype Slot = Cell(reactKey: string, cell: CellView) | Hole(falsy: Value)

  /** The contents of a `<tr>`: the cloned children, or slots built from the data. */
  datatype RowView = Cloned(children: seq<nat>) | Slots(slots: seq<Slot>)

  function CellKey(index: nat): string { "cell-" + IntString(index) }

  predicate KeyTruthy(key: Option<string>) { key.Some? && key.value != "" }

  function KeyValue(key: Option<string>): Value {
    if key.Some? then Str(key.value) else Undefined
  }

  /** The slots for a non-empty column list: one per column, in column order. */
  function ColumnSlots(rowData: seq<Field>, columns: seq<Column>, from: nat): (r: seq<Slot>)
    ensures |r| == |columns|
    ensures forall i :: 0 <= i < |columns| ==>
              if KeyTruthy(columns[i].key)
              then r[i] == Cell(CellKey(from + i),
                                TableCell(Lookup(rowData, columns[i].key.value), Null, columns[i].htmlProps))
              else r[i] == Hole(KeyValue(columns[i].key))
  {
    if |columns| == 0 then []
    else
      var c := columns[0];
      var first := if KeyTruthy(c.key)
                   then Cell(CellKey(from), TableCell(Lookup(rowData, c.key.value), Null, c.htmlProps))
                   else Hole(KeyValue(c.key));
      [first] + ColumnSlots(rowData, columns[1..], from + 1)
  }

  /** The slots without columns: one cell per `Object.values(rowData)` entry. */
  function ValueSlots(values: seq<Value>, from: nat): (r: seq<Slot>)
    ensures |r| == |values|
    ensures forall i :: 0 <= i < |values| ==>
              r[i] == Cell(CellKey(from + i), TableCell(values[i], Null, []))
  {
    if |values| == 0 then []
    else [Cell(CellKey(from), TableCell(values[0], Null, []))] + ValueSlots(values[1..], from + 1)
  }

  /** `TableRow`: children given (as `React.Children.toArray`) are cloned and the
      data is ignored; otherwise a non-empty `columns` decides the cells; otherwise
      every property value of `rowData` gets a cell. */
  function TableRow(rowData: seq<Field>, children: Option<seq<nat>>, columns: Option<seq<Column>>): (r: RowView)
    ensures children.Some? ==> r == Cloned(children.value)
    ensures children.None? && columns.Some? && |columns.value| > 0 ==>
              r.Slots? && |r.slots| == |columns.value|
    ensures children.None? && (columns.None? || |columns.value| == 0) ==>
              r.Slots? && |r.slots| == |rowData|
  {
    if children.Some? then Cloned(children.value)
    else if columns.Some? && |columns.value| > 0 then Slots(ColumnSlots(rowData, columns.value, 0))
    else Slots(ValueSlots(Values(rowData), 0))
  }

  /** With columns, slot i shows `rowData[key]` of column i (the empty string when
      missing) exactly when that key is truthy. */
  lemma ColumnCells(rowData: seq<Field>, columns: seq<Column>, i: nat)
    requires i < |columns|
    ensures var r := TableRow(rowData, None, Some(columns));
            && (r.slots[i].Cell? <==> KeyTruthy(columns[i].key))
            && (r.slots[i].Cell? ==>
                  r.slots[i].cell.content == WithDefault(Lookup(rowData, columns[i].key.value), Str(""))
                  && r.slots[i].cell.attrs == columns[i].htmlProps)
  {
  }

  /** Without columns, slot i shows the i-th property value of the row. */
  lemma ValueCells(rowData: seq<Field>, i: nat)
    requires i < |rowData|
    ensures var r := TableRow(rowData, None, None);
            r.slots[i].Cell? && r.slots[i].cell.content == WithDefault(rowData[i].value, Str(""))
  {
  }

  /** Every key a table component builds from an index is distinct from the
      key built from another index. */
  lemma IndexKeysDistinct(prefix: string, i: nat, j: nat)
    requires i != j
    ensures prefix + IntString(i) != prefix + IntString(j)
  {
    IntStringInjective(i, j);
    assert (prefix + IntString(i))[|prefix|..] == IntString(i);
    assert (prefix + IntString(j))[|prefix|..] == IntString(j);
  }

  // ---------------------------------------------------------------------------
  // TableHeaderCell and TableHeader

  /** An entry of `header`: a string, a plain object (normally `{ label, ... }`),
      `null`, or missing (`undefined`). */
  datatype HeaderDatum = Text(s: string) | Object(fields: seq<Field>) | NullDatum | Absent

  /** The outcome of `TableHeaderCell`: a `<th>`, nothing (a `null` label), or a
      TypeError (destructuring `null`, whose `typeof` is `'object'`). */
  datatype HeaderCell = Th(content: Value, attrs: seq<Field>) | NoCell | Throws

  /** `TableHeaderCell`: an object header gives its `label` and its other fields
      become attributes; a string gives itself; a null label renders nothing. */
  function TableHeaderCell(datum: HeaderDatum, children: Value): (h: HeaderCell)
    ensures datum.Text? && !Truthy(children) ==> h == Th(Str(datum.s), [])
    ensures datum.Absent? && !Truthy(children) ==> h == Th(Str(""), [])
    ensures datum.Object? ==>
              var lbl := Lookup(datum.fields, "label");
              if lbl == Null then h == NoCell
              else h.Th? && h.attrs == Delete(datum.fields, "label")
                   && h.content == (if Truthy(children) then children else lbl)
    ensures datum.NullDatum? <==> h.Throws?
  {
    match datum
    case Absent => Th(if Truthy(children) then children else Str(""), [])
    case Text(s) => Th(if Truthy(children) then children else Str(s), [])
    case NullDatum => Throws
    case Object(fields) =>
      var lbl := Lookup(fields, "label");
      if lbl == Null then NoCell
      else Th(if Truthy(children) then children else lbl, Delete(fields, "label"))
  }

  /** An object header never passes its `label` on as an attribute, and keeps
      every other field's value. */
  lemma HeaderAttributes(fields: seq<Field>, name: string)
    requires Lookup(fields, "label") != Null && name != "label"
    ensures var h := TableHeaderCell(Object(fields), Null);
            Lookup(h.attrs, name) == Lookup(fields, name) && Lookup(h.attrs, "label") == Undefined
  {
    LookupAfterDelete(fields, "label", name);
  }

  /** The contents of the header `<tr>`: cloned children, or one header cell per
      entry, keyed `header-cell-i`. */
  datatype HeaderRow = ClonedHeader(children: seq<nat>) | HeaderCells(cells: seq<(string, HeaderCell)>)

  function HeaderCellsFrom(header: seq<HeaderDatum>, from: nat): (r: seq<(string, HeaderCell)>)
    ensures |r| == |header|
    ensures forall i :: 0 <= i < |header| ==>
              r[i] == ("header-cell-" + IntString(from + i), TableHeaderCell(header[i], Null))
  {
    if |header| == 0 then []
    else [("header-cell-" + IntString(from), TableHeaderCell(header[0], Null))]
         + HeaderCellsFrom(header[1..], from + 1)
  }

  /** `TableHeader`: children are cloned; otherwise one header cell per entry of
      `header` (default `[]`), in order. */
  function TableHeader(header: seq<HeaderDatum>, children: Option<seq<nat>>): (r: HeaderRow)
    ensures children.Some? ==> r == ClonedHeader(children.value)
    ensures children.None? ==> r.HeaderCells? && |r.cells| == |header|
    ensures children.None? ==> forall i :: 0 <= i < |header| ==>
              r.cells[i].1 == TableHeaderCell(header[i], Null)
  {
    if children.Some? then ClonedHeader(children.value) else HeaderCells(HeaderCellsFrom(header, 0))
  }

  // ---------------------------------------------------------------------------
  // Table

  /** Which component renders a row or the header: the default one or a custom one. */
  datatype Component = Default | Custom(name: string)

  /** The props of `Table` that decide its structure. `rowProps` is handed to
      every row unchanged. */
  datatype TableProps<R, P> = TableProps(
    rowsData: seq<R>,
    header: Option<seq<HeaderDatum>>,
    customRow: Option<string>,
    customHeader: Option<string>,
    rowProps: P)

  /** One row element of the body, with its React key. */
  datatype RowElement<R, P> = RowElement(component: Component, key: string, rowData: R, rowProps: P)

  /** The header element inside `<thead>`, when there is one. */
  datatype HeadElement = HeadElement(component: Component, header: seq<HeaderDatum>)

  datatype TableView<R, P> = TableView(head: Option<HeadElement>, body: seq<RowElement<R, P>>)

  function RowKey(index: nat): string { "row-" + IntString(index) }

  function ComponentOf(custom: Option<string>): Component {
    if custom.Some? then Custom(custom.value) else Default
  }

  function BodyRows<R, P>(rows: seq<R>, component: Component, rowProps: P, from: nat): (r: seq<RowElement<R, P>>)
    ensures |r| == |rows|
    ensures forall i :: 0 <= i < |rows| ==> r[i] == RowElement(component, RowKey(from + i), rows[i], rowProps)
  {
    if |rows| == 0 then []
    else [RowElement(component, RowKey(from), rows[0], rowProps)] + BodyRows(rows[1..], component, rowProps, from + 1)
  }

  /** `Table`: a header section exactly when `header` is given (the default is
      null), drawn by `customHeader` if supplied; then one row per entry of
      `rowsData`, in order, keyed `row-i`, drawn by `customRow` if supplied. */
  function Table<R, P>(props: TableProps<R, P>): (t: TableView<R, P>)
    ensures t.head.Some? <==> props.header.Some?
    ensures t.head.Some? ==> t.head.value == HeadElement(ComponentOf(props.customHeader), props.header.value)
    ensures |t.body| == |props.rowsData|
    ensures forall i :: 0 <= i < |t.body| ==>
              t.body[i].rowData == props.rowsData[i] && t.body[i].key == RowKey(i)
              && t.body[i].component == ComponentOf(props.customRow)
              && t.body[i].rowProps == props.rowProps
  {
    var head := if props.header.Some?
                then Some(HeadElement(ComponentOf(props.customHeader), props.header.value))
                else None;
    TableView(head, BodyRows(props.rowsData, ComponentOf(props.customRow), props.rowProps, 0))
  }

  /** The rows of a table have pairwise distinct keys. */
  lemma RowKeysDistinct<R, P>(props: TableProps<R, P>, i: nat, j: nat)
    requires i < j < |props.rowsData|
    ensures Table(props).body[i].key != Table(props).body[j].key
  {
    IndexKeysDistinct("row-", i, j);
  }
}
