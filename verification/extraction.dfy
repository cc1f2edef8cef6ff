/**
 * The data extractor (`extract_financial_data_by_period`,
 * bot_full.py:194-236): the figures of each classified line item of the
 * sheet, per reporting period.
 */
module Extraction {
  import opened Wrappers
  import opened Text
  import opened Classifier
  import opened Periods

  /** A cell of the sheet as pandas holds it: a number, a string, or nothing (NaN). */
  datatype Cell = Num(value: real) | Str(text: string) | Blank

  /** The cell of `row` in `column`; a row shorter than the header reads as blank there. */
  function CellAt(row: seq<Cell>, column: nat): Cell
  {
    if column < |row| then row[column] else Blank
  }

  /** `pd.to_numeric(cell, errors='coerce')` followed by `pd.isna`: only a number has a value. */
  function NumericValue(c: Cell): (r: Option<real>)
    ensures r.Some? <==> c.Num?
    ensures r.Some? ==> r.value == c.value
  {
    match c
    case Num(v) => Some(v)
    case _ => None
  }

  /** The per-period figures: period labels in insertion order, and each label's line items. */
  datatype Dataset = Dataset(order: seq<string>, data: map<string, map<string, real>>)

  // ---------------------------------------------------------------------
  // The period maps (bot_full.py:196-200).

  /**
   * The keys `financial_data` receives, in insertion order: each
   * distinct `formatted` label once, where it first occurs; assigning a
   * label again keeps its place.
   */
  function Labels(periods: seq<Period>): (r: seq<string>)
    ensures forall i, j :: 0 <= i < j < |r| ==> r[i] != r[j]
    ensures forall l :: l in r <==> exists p :: p in periods && p.formatted == l
  {
    if periods == [] then []
    else
      var init := periods[..|periods| - 1];
      var last := periods[|periods| - 1];
      assert periods == init + [last];
      var prev := Labels(init);
      if last.formatted in prev then prev else prev + [last.formatted]
  }

  /** The labels are in the order of their first occurrence among the periods. */
  lemma {:induction false} LabelsInOrder(periods: seq<Period>)
    ensures forall i, j :: 0 <= i < j < |Labels(periods)| ==> FirstWith(periods, Labels(periods)[i]) < FirstWith(periods, Labels(periods)[j])
  {
    if periods != [] {
      var init := periods[..|periods| - 1];
      var last := periods[|periods| - 1];
      assert periods == init + [last];
      var prev := Labels(init);
      LabelsInOrder(init);
      forall l | l in prev ensures FirstWith(periods, l) == FirstWith(init, l) {
        FirstWithSnoc(init, last, l);
      }
      if last.formatted !in prev {
        FirstWithNew(init, last);
        var r := Labels(periods);
        assert r == prev + [last.formatted];
        forall i, j | 0 <= i < j < |r| ensures FirstWith(periods, r[i]) < FirstWith(periods, r[j]) {
          if j < |prev| {
            assert r[i] == prev[i] && r[j] == prev[j];
          } else {
            assert r[i] == prev[i];
          }
        }
      }
    }
  }

  /** The position of the first period labelled `l`; past the end when there is none. */
  function FirstWith(periods: seq<Period>, l: string): (k: nat)
    ensures k <= |periods| && (k < |periods| ==> periods[k].formatted == l)
    ensures forall i :: 0 <= i < k ==> periods[i].formatted != l
  {
    if periods == [] then 0
    else if periods[0].formatted == l then 0
    else 1 + FirstWith(periods[1..], l)
  }

  /** A label already present keeps its first position when a period is added at the end. */
  lemma FirstWithSnoc(init: seq<Period>, last: Period, l: string)
    requires exists p :: p in init && p.formatted == l
    ensures FirstWith(init, l) < |init|
    ensures FirstWith(init + [last], l) == FirstWith(init, l)
  {
    var p :| p in init && p.formatted == l;
    var s := init + [last];
    assert p in s;
    assert forall i :: 0 <= i < |init| ==> s[i] == init[i];
  }

  /** A new label, added at the end, is first found there. */
  lemma FirstWithNew(init: seq<Period>, last: Period)
    requires forall p :: p in init ==> p.formatted != last.formatted
    ensures FirstWith(init + [last], last.formatted) == |init|
  {
    var s := init + [last];
    var k := FirstWith(s, last.formatted);
    assert s[|init|] == last;
    assert k <= |init|;
    assert forall i :: 0 <= i < |init| ==> s[i] == init[i];
  }

  /** An empty map for each label. */
  function EmptyMaps(labels: seq<string>): (r: map<string, map<string, real>>)
    ensures r.Keys == set l | l in labels
    ensures forall l :: l in r ==> r[l] == map[]
  {
    map l | l in labels :: map[]
  }

  // ---------------------------------------------------------------------
  // The label column (bot_full.py:202-207).

  /** A header naming the label column: it contains 'наименование' or 'показатель' once lower-cased. */
  predicate IsIndicatorHeader(header: string)
  {
    IsSubstring("наименование", Lower(header)) || IsSubstring("показатель", Lower(header))
  }

  /** The first label-column header from `from` on. */
  function IndicatorColumn(headers: seq<string>, from: nat): (r: Option<nat>)
    ensures r.None? <==> forall i :: from <= i < |headers| ==> !IsIndicatorHeader(headers[i])
    ensures r.Some? ==> && from <= r.value < |headers| && IsIndicatorHeader(headers[r.value])
                        && forall i :: from <= i < r.value ==> !IsIndicatorHeader(headers[i])
    decreases |headers| - from
  {
    if from >= |headers| then None
    else if IsIndicatorHeader(headers[from]) then Some(from)
    else IndicatorColumn(headers, from + 1)
  }

  // ---------------------------------------------------------------------
  // The rows (bot_full.py:212-234).

  /** Labels that head the two halves of a balance sheet or repeat its header; the rows they label are skipped. */
  const NoiseLabels: seq<string> := ["Актив", "Пассив", "Наименование показателя"]

  /**
   * The line item a row is booked under: its stripped label must be
   * non-empty, not a noise label (compared exactly, case included), and
   * classify to a key.
   */
  function RowItem(row: seq<Cell>, column: nat): (r: Option<string>)
    ensures r.Some? <==> && CellAt(row, column).Str? && Strip(CellAt(row, column).text) != []
                         && Strip(CellAt(row, column).text) !in NoiseLabels
                         && FindBalanceItem(Strip(CellAt(row, column).text)).Some?
    ensures r.Some? ==> r == FindBalanceItem(Strip(CellAt(row, column).text))
    ensures r.Some? ==> exists i :: 0 <= i < |BalanceItems| && r.value == BalanceItems[i].0
  {
    var cell := CellAt(row, column);
    if !cell.Str? then None
    else
      var name := Strip(cell.text);
      if name == [] || name in NoiseLabels then None else FindBalanceItem(name)
  }

  /** The line item of each row. */
  function RowItems(rows: seq<seq<Cell>>, column: nat): (r: seq<Option<string>>)
    ensures |r| == |rows| && forall i :: 0 <= i < |rows| ==> r[i] == RowItem(rows[i], column)
  {
    seq(|rows|, i requires 0 <= i < |rows| => RowItem(rows[i], column))
  }

  /** One assignment `financial_data[period][item] = value`. */
  datatype Write = Write(period: string, item: string, value: real)

  /** The assignments one classified row makes, period by period: one per non-zero number. */
  function RowWrites(row: seq<Cell>, item: string, periods: seq<Period>): (r: seq<Write>)
    ensures forall w :: w in r ==> w.item == item && w.value != 0.0
  {
    if periods == [] then []
    else RowWrites(row, item, periods[..|periods| - 1]) + CellWrite(row, item, periods[|periods| - 1])
  }

  /** The assignment the row's cell in the period's column makes: none unless it holds a non-zero number. */
  function CellWrite(row: seq<Cell>, item: string, p: Period): (r: seq<Write>)
    ensures |r| <= 1 && forall w :: w in r ==> w.item == item && w.value != 0.0
  {
    match NumericValue(CellAt(row, p.column))
    case Some(v) => if v != 0.0 then [Write(p.formatted, item, v)] else []
    case None => []
  }

  lemma RowWritesStep(row: seq<Cell>, item: string, periods: seq<Period>, j: nat)
    requires j < |periods|
    ensures RowWrites(row, item, periods[..j + 1]) == RowWrites(row, item, periods[..j]) + CellWrite(row, item, periods[j])
  {
    assert periods[..j + 1][..j] == periods[..j];
  }

  /** The assignments of a row booked under `item`: none when the row is unclassified. */
  function RowPart(row: seq<Cell>, item: Option<string>, periods: seq<Period>): seq<Write>
  {
    match item
    case Some(k) => RowWrites(row, k, periods)
    case None => []
  }

  /** All assignments, row by row, in the order the loops make them; `items` holds each row's line item. */
  function SheetWrites(rows: seq<seq<Cell>>, items: seq<Option<string>>, periods: seq<Period>): seq<Write>
    requires |items| == |rows|
  {
    if rows == [] then []
    else SheetWrites(rows[..|rows| - 1], items[..|rows| - 1], periods) + RowPart(rows[|rows| - 1], items[|rows| - 1], periods)
  }

  /** One assignment; the label's map is always present in the model's runs. */
  function Store(data: map<string, map<string, real>>, w: Write): map<string, map<string, real>>
  {
    data[w.period := (if w.period in data then data[w.period] else map[])[w.item := w.value]]
  }

  /** The assignments, in order. */
  function StoreAll(data: map<string, map<string, real>>, ws: seq<Write>): map<string, map<string, real>>
  {
    if ws == [] then data else Store(StoreAll(data, ws[..|ws| - 1]), ws[|ws| - 1])
  }

  /**
   * What `extract_financial_data_by_period(df, periods)` returns: one
   * map per distinct period label, in first-occurrence order, all empty
   * when the sheet has no label column.
   */
  function Extracted(headers: seq<string>, rows: seq<seq<Cell>>, periods: seq<Period>): (r: Dataset)
    ensures r.order == Labels(periods)
    ensures r.data.Keys == set p | p in periods :: p.formatted
    ensures IndicatorColumn(headers, 0).None? ==> forall l :: l in r.data ==> r.data[l] == map[]
  {
    var labels := Labels(periods);
    match IndicatorColumn(headers, 0)
    case None => Dataset(labels, EmptyMaps(labels))
    case Some(column) =>
      var ws := SheetWrites(rows, RowItems(rows, column), periods);
      SheetWritesLabelled(rows, RowItems(rows, column), periods);
      StoreAllKeys(EmptyMaps(labels), ws);
      Dataset(labels, StoreAll(EmptyMaps(labels), ws))
  }

  /** The assignments leave the set of period labels alone when every one names a present label. */
  lemma {:induction false} StoreAllKeys(data: map<string, map<string, real>>, ws: seq<Write>)
    requires forall w :: w in ws ==> w.period in data
    ensures StoreAll(data, ws).Keys == data.Keys
  {
    if ws != [] {
      assert forall w :: w in ws[..|ws| - 1] ==> w in ws;
      StoreAllKeys(data, ws[..|ws| - 1]);
    }
  }

  /** Every assignment names the label of one of the periods. */
  lemma SheetWritesLabelled(rows: seq<seq<Cell>>, items: seq<Option<string>>, periods: seq<Period>)
    requires |items| == |rows|
    ensures forall w :: w in SheetWrites(rows, items, periods) ==> w.period in Labels(periods)
  {
    forall w | w in SheetWrites(rows, items, periods)
      ensures w.period in Labels(periods)
    {
      SheetWritesMembers(rows, items, periods, w);
    }
  }

  // ---------------------------------------------------------------------
  // Which assignments are made, and which one counts.

  /** Period `p` books `w` from `row`: the row's cell in the period's column is `w`'s value, a non-zero number. */
  predicate Booked(row: seq<Cell>, p: Period, w: Write)
  {
    p.formatted == w.period && NumericValue(CellAt(row, p.column)) == Some(w.value) && w.value != 0.0
  }

  /** A classified row assigns exactly the non-zero numbers of the periods' columns. */
  lemma {:induction false} RowWritesMembers(row: seq<Cell>, item: string, periods: seq<Period>, w: Write)
    ensures w in RowWrites(row, item, periods) <==> w.item == item && exists p :: p in periods && Booked(row, p, w)
  {
    if periods != [] {
      var init := periods[..|periods| - 1];
      var last := periods[|periods| - 1];
      assert periods == init + [last];
      RowWritesMembers(row, item, init, w);
      assert w in CellWrite(row, item, last) <==> w.item == item && Booked(row, last, w);
    }
  }

  /** A row booked under `item` assigns `w`: `w` names that item, and some period labelled like `w` books it. */
  predicate RowBooks(row: seq<Cell>, item: Option<string>, periods: seq<Period>, w: Write)
  {
    item == Some(w.item) && exists p :: p in periods && Booked(row, p, w)
  }

  lemma RowPartMembers(row: seq<Cell>, item: Option<string>, periods: seq<Period>, w: Write)
    ensures w in RowPart(row, item, periods) <==> RowBooks(row, item, periods, w)
  {
    if item.Some? {
      RowWritesMembers(row, item.value, periods, w);
    }
  }

  /**
   * An assignment is made exactly when some row is booked under its item
   * and some period labelled like it holds a non-zero number in that row.
   */
  lemma {:induction false} SheetWritesMembers(rows: seq<seq<Cell>>, items: seq<Option<string>>, periods: seq<Period>, w: Write)
    requires |items| == |rows|
    ensures w in SheetWrites(rows, items, periods) <==> exists r :: 0 <= r < |rows| && RowBooks(rows[r], items[r], periods, w)
  {
    if rows != [] {
      var n := |rows| - 1;
      var before := SheetWrites(rows[..n], items[..n], periods);
      var last := RowPart(rows[n], items[n], periods);
      assert SheetWrites(rows, items, periods) == before + last;
      SheetWritesMembers(rows[..n], items[..n], periods, w);
      RowPartMembers(rows[n], items[n], periods, w);
      if w in before {
        var r :| 0 <= r < n && RowBooks(rows[..n][r], items[..n][r], periods, w);
        assert rows[..n][r] == rows[r] && items[..n][r] == items[r];
        assert RowBooks(rows[r], items[r], periods, w);
      } else if w in last {
        assert RowBooks(rows[n], items[n], periods, w);
      }
      if r :| 0 <= r < |rows| && RowBooks(rows[r], items[r], periods, w) {
        if r < n {
          assert rows[..n][r] == rows[r] && items[..n][r] == items[r];
          assert w in before;
        } else {
          assert w in last;
        }
      }
    }
  }

  /** `w` assigns line item `item` of period label `period`. */
  predicate Targets(w: Write, period: string, item: string)
  {
    w.period == period && w.item == item
  }

  /** The position of the last assignment to `period`'s `item`, if any. */
  function LastWrite(ws: seq<Write>, period: string, item: string): (r: Option<nat>)
    ensures r.None? <==> forall i :: 0 <= i < |ws| ==> !Targets(ws[i], period, item)
    ensures r.Some? ==> && r.value < |ws| && Targets(ws[r.value], period, item)
                        && forall j :: r.value < j < |ws| ==> !Targets(ws[j], period, item)
  {
    if ws == [] then None
    else if Targets(ws[|ws| - 1], period, item) then Some(|ws| - 1)
    else
      var r := LastWrite(ws[..|ws| - 1], period, item);
      assert forall i :: 0 <= i < |ws| - 1 ==> ws[..|ws| - 1][i] == ws[i];
      r
  }

  /** Last write wins: after the assignments, an item holds the value last assigned to it, or what it held before. */
  lemma {:induction false} StoreAllLastWrite(data: map<string, map<string, real>>, ws: seq<Write>, period: string, item: string)
    requires period in data
    ensures period in StoreAll(data, ws)
    ensures LastWrite(ws, period, item).Some? ==>
              item in StoreAll(data, ws)[period] && StoreAll(data, ws)[period][item] == ws[LastWrite(ws, period, item).value].value
    ensures LastWrite(ws, period, item).None? ==>
              && (item in StoreAll(data, ws)[period] <==> item in data[period])
              && (item in data[period] ==> StoreAll(data, ws)[period][item] == data[period][item])
  {
    if ws != [] {
      StoreAllLastWrite(data, ws[..|ws| - 1], period, item);
    }
  }

  // ---------------------------------------------------------------------
  // What the extractor promises.

  /**
   * Last write wins: a period label's line item holds the value of the
   * last assignment to it, in row order and, within a row, period order;
   * an item never assigned is absent.
   */
  lemma ExtractedLastWrite(headers: seq<string>, rows: seq<seq<Cell>>, periods: seq<Period>, column: nat, l: string, k: string)
    requires IndicatorColumn(headers, 0) == Some(column)
    requires l in Extracted(headers, rows, periods).data
    ensures var ws := SheetWrites(rows, RowItems(rows, column), periods);
            var figures := Extracted(headers, rows, periods).data[l];
            && (k in figures <==> LastWrite(ws, l, k).Some?)
            && (k in figures ==> figures[k] == ws[LastWrite(ws, l, k).value].value)
  {
    var labels := Labels(periods);
    StoreAllLastWrite(EmptyMaps(labels), SheetWrites(rows, RowItems(rows, column), periods), l, k);
  }

  /**
   * A line item is stored for a period label exactly when some row is
   * classified to it and some period with that label holds a non-zero
   * number in that row; the value stored is one such number, so it is
   * never zero.
   */
  lemma ExtractedBooked(headers: seq<string>, rows: seq<seq<Cell>>, periods: seq<Period>, column: nat, l: string, k: string)
    requires IndicatorColumn(headers, 0) == Some(column)
    requires l in Extracted(headers, rows, periods).data
    ensures var figures := Extracted(headers, rows, periods).data[l];
            && (k in figures <==> exists r, v :: 0 <= r < |rows| && RowBooks(rows[r], RowItems(rows, column)[r], periods, Write(l, k, v)))
            && (k in figures ==> figures[k] != 0.0)
            && (k in figures ==> exists r :: 0 <= r < |rows| && RowBooks(rows[r], RowItems(rows, column)[r], periods, Write(l, k, figures[k])))
  {
    var items := RowItems(rows, column);
    var ws := SheetWrites(rows, items, periods);
    var figures := Extracted(headers, rows, periods).data[l];
    ExtractedLastWrite(headers, rows, periods, column, l, k);
    if k in figures {
      var w := ws[LastWrite(ws, l, k).value];
      assert w == Write(l, k, figures[k]);
      SheetWritesMembers(rows, items, periods, w);
      var r :| 0 <= r < |rows| && RowBooks(rows[r], items[r], periods, w);
      assert w.value != 0.0;
    } else {
      if r, v :| 0 <= r < |rows| && RowBooks(rows[r], items[r], periods, Write(l, k, v)) {
        SheetWritesMembers(rows, items, periods, Write(l, k, v));
      }
    }
  }

  // ---------------------------------------------------------------------
  // The extractor.

  lemma StoreAllSnoc(data: map<string, map<string, real>>, ws: seq<Write>, w: Write)
    ensures StoreAll(data, ws + [w]) == Store(StoreAll(data, ws), w)
  {
    assert (ws + [w])[..|ws|] == ws;
  }

  lemma {:induction false} StoreAllAppend(data: map<string, map<string, real>>, a: seq<Write>, b: seq<Write>)
    ensures StoreAll(data, a + b) == StoreAll(StoreAll(data, a), b)
    decreases |b|
  {
    if b == [] {
      assert a + b == a;
    } else {
      var init := b[..|b| - 1];
      assert a + b == (a + init) + [b[|b| - 1]];
      StoreAllSnoc(data, a + init, b[|b| - 1]);
      StoreAllAppend(data, a, init);
    }
  }

  /** The inner loop (bot_full.py:225-234): the row's numbers stored under `item`, period by period. */
  method StoreRow(data: map<string, map<string, real>>, row: seq<Cell>, item: string, periods: seq<Period>)
    returns (result: map<string, map<string, real>>)
    ensures result == StoreAll(data, RowWrites(row, item, periods))
  {
    result := data;
    var j := 0;
    while j < |periods|
      invariant 0 <= j <= |periods|
      invariant result == StoreAll(data, RowWrites(row, item, periods[..j]))
    {
      var p := periods[j];
      RowWritesStep(row, item, periods, j);
      var value := NumericValue(CellAt(row, p.column));
      if value.Some? && value.value != 0.0 {
        var w := Write(p.formatted, item, value.value);
        StoreAllSnoc(data, RowWrites(row, item, periods[..j]), w);
        var items := if p.formatted in result then result[p.formatted] else map[];
        result := result[p.formatted := items[item := value.value]];
      } else {
        assert RowWrites(row, item, periods[..j]) + [] == RowWrites(row, item, periods[..j]);
      }
      j := j + 1;
    }
    assert periods[..j] == periods;
  }

  /** The first loop (bot_full.py:199-200): an empty map per period label. */
  method EmptyPeriodMaps(periods: seq<Period>) returns (order: seq<string>, data: map<string, map<string, real>>)
    ensures order == Labels(periods) && data == EmptyMaps(order)
  {
    order := [];
    data := map[];
    var i := 0;
    while i < |periods|
      invariant 0 <= i <= |periods|
      invariant order == Labels(periods[..i])
      invariant data == EmptyMaps(order)
    {
      assert periods[..i + 1][..i] == periods[..i];
      var key := periods[i].formatted;
      if key !in data {
        order := order + [key];
      }
      data := data[key := map[]];
      i := i + 1;
    }
    assert periods[..i] == periods;
  }

  /** The label-column search (bot_full.py:203-207). */
  method FindIndicatorColumn(headers: seq<string>) returns (indicator: Option<nat>)
    ensures indicator == IndicatorColumn(headers, 0)
  {
    indicator := None;
    var col := 0;
    while col < |headers|
      invariant 0 <= col <= |headers|
      invariant IndicatorColumn(headers, 0) == IndicatorColumn(headers, col)
    {
      if IsIndicatorHeader(headers[col]) {
        indicator := Some(col);
        return;
      }
      col := col + 1;
    }
  }

  lemma SheetWritesStep(rows: seq<seq<Cell>>, items: seq<Option<string>>, periods: seq<Period>, r: nat)
    requires |items| == |rows| && r < |rows|
    ensures SheetWrites(rows[..r + 1], items[..r + 1], periods)
         == SheetWrites(rows[..r], items[..r], periods) + RowPart(rows[r], items[r], periods)
  {
    assert rows[..r + 1][..r] == rows[..r];
    assert items[..r + 1][..r] == items[..r];
  }

  /** One row (bot_full.py:214-234): its numbers stored under its line item, if it is classified. */
  method StoreClassifiedRow(data: map<string, map<string, real>>, row: seq<Cell>, column: nat, periods: seq<Period>)
    returns (result: map<string, map<string, real>>)
    ensures result == StoreAll(data, RowPart(row, RowItem(row, column), periods))
  {
    result := data;
    var cell := CellAt(row, column);
    if cell.Str? {
      var name := Strip(cell.text);
      if name != [] && name !in NoiseLabels {
        var item := FindBalanceItem(name);
        assert RowItem(row, column) == item;
        if item.Some? {
          result := StoreRow(data, row, item.value, periods);
        }
        return;
      }
    }
    assert RowItem(row, column) == None;
  }

  /** The row loop (bot_full.py:213-234). */
  method StoreRows(init: map<string, map<string, real>>, rows: seq<seq<Cell>>, column: nat, periods: seq<Period>)
    returns (data: map<string, map<string, real>>)
    ensures data == StoreAll(init, SheetWrites(rows, RowItems(rows, column), periods))
  {
    ghost var items := RowItems(rows, column);
    data := init;
    var r := 0;
    while r < |rows|
      invariant 0 <= r <= |rows|
      invariant data == StoreAll(init, SheetWrites(rows[..r], items[..r], periods))
    {
      SheetWritesStep(rows, items, periods, r);
      StoreAllAppend(init, SheetWrites(rows[..r], items[..r], periods), RowPart(rows[r], items[r], periods));
      data := StoreClassifiedRow(data, rows[r], column, periods);
      r := r + 1;
    }
    assert rows[..r] == rows && items[..r] == items;
  }

  /** `extract_financial_data_by_period(df, periods)`. */
  method ExtractFinancialData(headers: seq<string>, rows: seq<seq<Cell>>, periods: seq<Period>) returns (result: Dataset)
    ensures result == Extracted(headers, rows, periods)
  {
    var order, data := EmptyPeriodMaps(periods);
    var indicator := FindIndicatorColumn(headers);
    if indicator.None? {
      return Dataset(order, data);
    }
    data := StoreRows(data, rows, indicator.value, periods);
    result := Dataset(order, data);
  }
}
