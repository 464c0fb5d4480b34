/** Invoice lines and the basket built from the lines of one invoice. A basket
    is a Python dict: four scalar keys copied from a line, so the last line
    read wins, and four per-line lists that grow in line order and stay
    index-aligned. The grouping of the data set by invoice number happens
    before this model starts: its input is the rows of each group, in the
    order the data set lists them. */
module Basket {
  import opened Values

  /** One line of the data set, as pandas reads it from the CSV file. The
      values keep whatever type the file gives them (text, integers,
      prices). */
  datatype Row = Row(
    invoiceNo: Json, stockCode: Json, description: Json, quantity: Json,
    invoiceDate: Json, unitPrice: Json, customerId: Json, country: Json)

  /** One invoice group: its key as `str()` prints it, and its rows. */
  datatype Group = Group(name: string, rows: seq<Row>)

  /** The four per-line columns of a basket. */
  datatype Column = StockCodes | Descriptions | Quantities | UnitPrices

  function Cell(r: Row, c: Column): Json {
    match c
    case StockCodes => r.stockCode
    case Descriptions => r.description
    case Quantities => r.quantity
    case UnitPrices => r.unitPrice
  }

  function ListKey(c: Column): string {
    match c
    case StockCodes => "StockCodes"
    case Descriptions => "Descriptions"
    case Quantities => "Quantities"
    case UnitPrices => "UnitPrices"
  }

  const ScalarKeys: set<string> := {"InvoiceNo", "CustomerID", "InvoiceDate", "Country"}
  const ListKeys: set<string> := {"StockCodes", "Descriptions", "Quantities", "UnitPrices"}

  /** The column `c` of the rows: one cell per row, in row order. */
  function ColumnOf(rows: seq<Row>, c: Column): (xs: seq<Json>)
    ensures |xs| == |rows|
    ensures forall i :: 0 <= i < |rows| ==> xs[i] == Cell(rows[i], c)
  {
    seq(|rows|, i requires 0 <= i < |rows| => Cell(rows[i], c))
  }

  /** The keys a row overwrites. */
  function Scalars(r: Row): map<string, Json> {
    map["InvoiceNo" := r.invoiceNo, "CustomerID" := r.customerId,
        "InvoiceDate" := r.invoiceDate, "Country" := r.country]
  }

  /** The four list keys, holding the columns of the rows. */
  function Lists(rows: seq<Row>): map<string, Json> {
    map["StockCodes" := JList(ColumnOf(rows, StockCodes)),
        "Descriptions" := JList(ColumnOf(rows, Descriptions)),
        "Quantities" := JList(ColumnOf(rows, Quantities)),
        "UnitPrices" := JList(ColumnOf(rows, UnitPrices))]
  }

  /** The basket of a group's rows once the four lists are stored: the scalar
      keys of the last row (none for no rows) and the four columns. */
  function BasketOf(rows: seq<Row>): map<string, Json> {
    (if rows == [] then map[] else Scalars(rows[|rows| - 1])) + Lists(rows)
  }

  /** The basket after one more row: the scalar keys overwritten by that row,
      each list key holding its old list with the row's cell appended. */
  function WithRow(b: map<string, Json>, rows: seq<Row>, r: Row): map<string, Json> {
    b["InvoiceNo" := r.invoiceNo]["CustomerID" := r.customerId]
     ["InvoiceDate" := r.invoiceDate]["Country" := r.country]
     ["StockCodes" := JList(ColumnOf(rows, StockCodes) + [r.stockCode])]
     ["Descriptions" := JList(ColumnOf(rows, Descriptions) + [r.description])]
     ["Quantities" := JList(ColumnOf(rows, Quantities) + [r.quantity])]
     ["UnitPrices" := JList(ColumnOf(rows, UnitPrices) + [r.unitPrice])]
  }

  lemma ColumnSnoc(rows: seq<Row>, r: Row, c: Column)
    ensures ColumnOf(rows + [r], c) == ColumnOf(rows, c) + [Cell(r, c)]
  {
    assert ColumnOf(rows + [r], c) == ColumnOf(rows, c) + [Cell(r, c)];
  }

  /** A dict with the eight keys of a basket and the given values. */
  function Full(invoiceNo: Json, customerId: Json, invoiceDate: Json, country: Json,
                stockCodes: Json, descriptions: Json, quantities: Json, unitPrices: Json): map<string, Json> {
    map["InvoiceNo" := invoiceNo, "CustomerID" := customerId, "InvoiceDate" := invoiceDate,
        "Country" := country, "StockCodes" := stockCodes, "Descriptions" := descriptions,
        "Quantities" := quantities, "UnitPrices" := unitPrices]
  }

  /** Writing the four scalar keys into a dict that holds at most those
      keys leaves just what was written. */
  lemma ScalarsOverwritten(b: map<string, Json>, r: Row)
    requires b.Keys <= ScalarKeys
    ensures b["InvoiceNo" := r.invoiceNo]["CustomerID" := r.customerId]
             ["InvoiceDate" := r.invoiceDate]["Country" := r.country] == Scalars(r)
  {
    var w := b["InvoiceNo" := r.invoiceNo]["CustomerID" := r.customerId]
              ["InvoiceDate" := r.invoiceDate]["Country" := r.country];
    assert w.Keys == Scalars(r).Keys;
  }

  /** Writing eight keys, in order, into a map that holds no other key gives
      the map of just those writes. */
  lemma Overwrite8<K, V>(m: map<K, V>, k1: K, k2: K, k3: K, k4: K, k5: K, k6: K, k7: K, k8: K,
                         v1: V, v2: V, v3: V, v4: V, v5: V, v6: V, v7: V, v8: V)
    requires m.Keys <= {k1, k2, k3, k4, k5, k6, k7, k8}
    ensures m[k1 := v1][k2 := v2][k3 := v3][k4 := v4][k5 := v5][k6 := v6][k7 := v7][k8 := v8]
            == map[k1 := v1, k2 := v2, k3 := v3, k4 := v4, k5 := v5, k6 := v6, k7 := v7, k8 := v8]
  {
    var w := m[k1 := v1][k2 := v2][k3 := v3][k4 := v4][k5 := v5][k6 := v6][k7 := v7][k8 := v8];
    var f := map[k1 := v1, k2 := v2, k3 := v3, k4 := v4, k5 := v5, k6 := v6, k7 := v7, k8 := v8];
    assert w.Keys == f.Keys;
  }

  /** Writing all eight keys into a dict that holds at most those keys
      leaves just what was written. */
  lemma Overwritten(b: map<string, Json>, invoiceNo: Json, customerId: Json, invoiceDate: Json, country: Json,
                    stockCodes: Json, descriptions: Json, quantities: Json, unitPrices: Json)
    requires b.Keys <= ScalarKeys + ListKeys
    ensures b["InvoiceNo" := invoiceNo]["CustomerID" := customerId]
             ["InvoiceDate" := invoiceDate]["Country" := country]
             ["StockCodes" := stockCodes]["Descriptions" := descriptions]
             ["Quantities" := quantities]["UnitPrices" := unitPrices]
            == Full(invoiceNo, customerId, invoiceDate, country, stockCodes, descriptions, quantities, unitPrices)
  {
    Overwrite8(b, "InvoiceNo", "CustomerID", "InvoiceDate", "Country",
               "StockCodes", "Descriptions", "Quantities", "UnitPrices",
               invoiceNo, customerId, invoiceDate, country, stockCodes, descriptions, quantities, unitPrices);
  }

  /** The basket of some rows, written out key by key. */
  lemma BasketOfFull(rows: seq<Row>)
    requires rows != []
    ensures var r := rows[|rows| - 1];
      BasketOf(rows) == Full(r.invoiceNo, r.customerId, r.invoiceDate, r.country,
                             JList(ColumnOf(rows, StockCodes)), JList(ColumnOf(rows, Descriptions)),
                             JList(ColumnOf(rows, Quantities)), JList(ColumnOf(rows, UnitPrices)))
  {
    var r := rows[|rows| - 1];
    Overwritten(Scalars(r), r.invoiceNo, r.customerId, r.invoiceDate, r.country,
                JList(ColumnOf(rows, StockCodes)), JList(ColumnOf(rows, Descriptions)),
                JList(ColumnOf(rows, Quantities)), JList(ColumnOf(rows, UnitPrices)));
    assert BasketOf(rows) == Scalars(r) + Lists(rows);
  }

  /** Writing one more row into an empty dict or into the basket of the rows
      before it gives the basket of all the rows: every key is overwritten, so
      nothing of an earlier group can survive. */
  lemma BasketSnoc(b: map<string, Json>, rows: seq<Row>, r: Row)
    requires b == map[] || b == BasketOf(rows)
    ensures WithRow(b, rows, r) == BasketOf(rows + [r])
  {
    ColumnSnoc(rows, r, StockCodes);
    ColumnSnoc(rows, r, Descriptions);
    ColumnSnoc(rows, r, Quantities);
    ColumnSnoc(rows, r, UnitPrices);
    if b != map[] {
      BasketKeys(rows);
    }
    Overwritten(b, r.invoiceNo, r.customerId, r.invoiceDate, r.country,
                JList(ColumnOf(rows, StockCodes) + [r.stockCode]), JList(ColumnOf(rows, Descriptions) + [r.description]),
                JList(ColumnOf(rows, Quantities) + [r.quantity]), JList(ColumnOf(rows, UnitPrices) + [r.unitPrice]));
    BasketOfFull(rows + [r]);
    SnocFront(rows, r);
  }

  /** The keys of a basket: the four lists always, the scalar keys once a row
      has been read. */
  lemma BasketKeys(rows: seq<Row>)
    ensures BasketOf(rows).Keys == ListKeys + (if rows == [] then {} else ScalarKeys)
  {
  }

  /** Each list of the basket has one entry per row, holding that row's cell,
      in row order. */
  lemma BasketColumns(rows: seq<Row>, c: Column)
    ensures ListKey(c) in BasketOf(rows)
    ensures BasketOf(rows)[ListKey(c)].JList?
    ensures |BasketOf(rows)[ListKey(c)].items| == |rows|
    ensures forall i :: 0 <= i < |rows| ==> BasketOf(rows)[ListKey(c)].items[i] == Cell(rows[i], c)
  {
  }

  /** The scalar keys hold the values of the last row. */
  lemma BasketScalars(rows: seq<Row>)
    requires rows != []
    ensures BasketOf(rows)["InvoiceNo"] == rows[|rows| - 1].invoiceNo
    ensures BasketOf(rows)["CustomerID"] == rows[|rows| - 1].customerId
    ensures BasketOf(rows)["InvoiceDate"] == rows[|rows| - 1].invoiceDate
    ensures BasketOf(rows)["Country"] == rows[|rows| - 1].country
  {
  }

  /** The list key of column `c` holds the column. */
  lemma BasketColumn(rows: seq<Row>, c: Column)
    ensures ListKey(c) in BasketOf(rows) && BasketOf(rows)[ListKey(c)] == JList(ColumnOf(rows, c))
  {
    assert ListKey(c) in Lists(rows);
  }

  /** The column of a prefix of the rows is the prefix of the column. */
  lemma ColumnPrefix(rows: seq<Row>, k: nat, c: Column)
    requires k <= |rows|
    ensures ColumnOf(rows[..k], c) == ColumnOf(rows, c)[..k]
  {
    SameElements(ColumnOf(rows[..k], c), ColumnOf(rows, c)[..k]);
  }

  /** The lists of the basket of the first `k` rows are prefixes of the lists
      of the basket of all the rows. */
  lemma BasketPrefix(rows: seq<Row>, k: nat, c: Column)
    requires k <= |rows|
    ensures BasketOf(rows[..k])[ListKey(c)].items == BasketOf(rows)[ListKey(c)].items[..k]
  {
    BasketColumn(rows[..k], c);
    BasketColumn(rows, c);
    ColumnPrefix(rows, k, c);
  }

  /** `StaticElasticsearchFling.py`'s inner loop: overwrite the scalar keys and
      append to the four lists row by row, then store the lists. */
  method AggregateGroup(rows: seq<Row>) returns (basket: map<string, Json>)
    ensures basket == BasketOf(rows)
  {
    basket := map[];
    var stockcodes, descriptions, quantities, unitprices := [], [], [], [];
    for k := 0 to |rows|
      invariant k == 0 ==> basket == map[]
      invariant k > 0 ==> basket == Scalars(rows[k - 1])
      invariant stockcodes == ColumnOf(rows[..k], StockCodes)
      invariant descriptions == ColumnOf(rows[..k], Descriptions)
      invariant quantities == ColumnOf(rows[..k], Quantities)
      invariant unitprices == ColumnOf(rows[..k], UnitPrices)
    {
      var row := rows[k];
      ghost var before := basket;
      basket := basket["InvoiceNo" := row.invoiceNo];
      basket := basket["CustomerID" := row.customerId];
      basket := basket["InvoiceDate" := row.invoiceDate];
      basket := basket["Country" := row.country];
      ScalarsOverwritten(before, row);
      TakeSnoc(rows, k);
      ColumnSnoc(rows[..k], row, StockCodes);
      ColumnSnoc(rows[..k], row, Descriptions);
      ColumnSnoc(rows[..k], row, Quantities);
      ColumnSnoc(rows[..k], row, UnitPrices);
      stockcodes := stockcodes + [row.stockCode];
      descriptions := descriptions + [row.description];
      quantities := quantities + [row.quantity];
      unitprices := unitprices + [row.unitPrice];
    }
    TakeEnds(rows);
    basket := basket["StockCodes" := JList(stockcodes)];
    basket := basket["Descriptions" := JList(descriptions)];
    basket := basket["Quantities" := JList(quantities)];
    basket := basket["UnitPrices" := JList(unitprices)];
    if rows != [] {
      BasketOfFull(rows);
    }
  }
}
