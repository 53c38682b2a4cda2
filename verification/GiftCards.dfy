/**
 The gift-card list: one joined query, one row for each rate (or one without a rate),
 grouped by a loop that compares each row with the group it opened last.
 */
module GiftCards {
  import opened Base

  datatype Brand = Brand(
    id: nat, name: string, slug: string, logoUrl: Option<string>,
    requiresImage: bool, hasPin: bool, note: Option<string>)

  datatype Rate = Rate(countryCode: string, countryName: string, currency: string, perUnit: Naira, min: real, max: real)

  /** A row of the LEFT JOIN; the rate columns are all absent for a brand without an active rate. */
  datatype Row = Row(
    brand: Brand,
    countryCode: Option<string>, countryName: Option<string>, currency: Option<string>,
    perUnit: Option<Naira>, min: Option<real>, max: Option<real>)

  function RateOf(row: Row): Option<Rate> {
    if row.countryCode.Some? && row.countryName.Some? && row.currency.Some?
       && row.perUnit.Some? && row.min.Some? && row.max.Some?
    then Some(Rate(row.countryCode.value, row.countryName.value, row.currency.value,
                   row.perUnit.value, row.min.value, row.max.value))
    else None
  }

  datatype Group = Group(brand: Brand, rates: seq<Rate>)

  /** A group for the brand at the end, opened if the last one is another brand's. */
  function Open(groups: seq<Group>, brand: Brand): (r: seq<Group>)
    ensures r != [] && r[|r| - 1].brand.id == brand.id
  {
    if groups == [] || groups[|groups| - 1].brand.id != brand.id then groups + [Group(brand, [])] else groups
  }

  function AddRate(groups: seq<Group>, rate: Rate): seq<Group>
    requires groups != []
  {
    groups[..|groups| - 1] + [WithRate(groups[|groups| - 1], rate)]
  }

  function WithRate(group: Group, rate: Rate): Group {
    Group(group.brand, group.rates + [rate])
  }

  function AddRow(groups: seq<Group>, row: Row): seq<Group> {
    match RateOf(row)
    case None => Open(groups, row.brand)
    case Some(rate) => AddRate(Open(groups, row.brand), rate)
  }

  function Grouped(rows: seq<Row>): seq<Group> {
    if rows == [] then [] else AddRow(Grouped(rows[..|rows| - 1]), rows[|rows| - 1])
  }

  method Brands(rows: seq<Row>) returns (brands: seq<Group>)
    ensures brands == Grouped(rows)
  {
    brands := [];
    for i := 0 to |rows|
      invariant brands == Grouped(rows[..i])
    {
      GroupedPush(rows, i);
      var row := rows[i];
      ghost var before := brands;
      if brands == [] || brands[|brands| - 1].brand.id != row.brand.id {
        brands := brands + [Group(row.brand, [])];
      }
      assert brands == Open(before, row.brand);
      match RateOf(row) {
        case None =>
        case Some(rate) =>
          LastUpdated(brands, rate);
          brands := brands[|brands| - 1 := WithRate(brands[|brands| - 1], rate)];
      }
    }
    assert rows[..|rows|] == rows;
  }

  lemma LastUpdated(groups: seq<Group>, rate: Rate)
    requires groups != []
    ensures groups[|groups| - 1 := WithRate(groups[|groups| - 1], rate)] == AddRate(groups, rate)
  {
  }

  lemma {:induction false} GroupedPush(rows: seq<Row>, i: nat)
    requires i < |rows|
    ensures Grouped(rows[..i + 1]) == AddRow(Grouped(rows[..i]), rows[i])
  {
    assert rows[..i + 1][..i] == rows[..i];
  }

  // ---------------------------------------------------------------------
  // Nothing is lost, nothing moves
  // ---------------------------------------------------------------------

  function Tagged(id: nat, rates: seq<Rate>): seq<(nat, Rate)> {
    if rates == [] then [] else Tagged(id, rates[..|rates| - 1]) + [(id, rates[|rates| - 1])]
  }

  /** The groups flattened: every rate with the brand it is listed under. */
  function Rates(groups: seq<Group>): seq<(nat, Rate)> {
    if groups == [] then []
    else Rates(groups[..|groups| - 1]) + Tagged(groups[|groups| - 1].brand.id, groups[|groups| - 1].rates)
  }

  function RowRates(rows: seq<Row>): seq<(nat, Rate)> {
    if rows == [] then []
    else
      var row := rows[|rows| - 1];
      RowRates(rows[..|rows| - 1]) + match RateOf(row) case None => [] case Some(rate) => [(row.brand.id, rate)]
  }

  lemma {:induction false} RatesPush(front: seq<Group>, last: Group)
    ensures Rates(front + [last]) == Rates(front) + Tagged(last.brand.id, last.rates)
  {
    assert (front + [last])[..|front|] == front;
  }

  lemma {:induction false} OpeningAddsNoRates(groups: seq<Group>, brand: Brand)
    ensures Rates(Open(groups, brand)) == Rates(groups)
  {
    RatesPush(groups, Group(brand, []));
    assert Tagged(brand.id, []) == [];
  }

  lemma {:induction false} TaggedPush(id: nat, rates: seq<Rate>, rate: Rate)
    ensures Tagged(id, rates + [rate]) == Tagged(id, rates) + [(id, rate)]
  {
    assert (rates + [rate])[..|rates|] == rates;
  }

  lemma {:induction false} AddedRateTo(front: seq<Group>, last: Group, rate: Rate)
    ensures Rates(front + [WithRate(last, rate)]) == Rates(front + [last]) + [(last.brand.id, rate)]
  {
    RatesPush(front, last);
    RatesPush(front, WithRate(last, rate));
    TaggedPush(last.brand.id, last.rates, rate);
  }

  lemma {:induction false} AddedRate(groups: seq<Group>, rate: Rate)
    requires groups != []
    ensures Rates(AddRate(groups, rate)) == Rates(groups) + [(groups[|groups| - 1].brand.id, rate)]
  {
    var n := |groups| - 1;
    AddedRateTo(groups[..n], groups[n], rate);
    assert groups == groups[..n] + [groups[n]];
  }

  lemma {:induction false} AddedRow(groups: seq<Group>, row: Row)
    ensures var after := AddRow(groups, row);
      && after != [] && after[|after| - 1].brand.id == row.brand.id
      && Rates(after) == Rates(groups) + match RateOf(row) case None => [] case Some(rate) => [(row.brand.id, rate)]
  {
    OpeningAddsNoRates(groups, row.brand);
    if RateOf(row).Some? {
      AddedRate(Open(groups, row.brand), RateOf(row).value);
    }
  }

  /** Flattening the groups gives back the rate rows, in order, each under its own brand. */
  lemma {:induction false} FlatteningIsTheRows(rows: seq<Row>)
    ensures Rates(Grouped(rows)) == RowRates(rows)
  {
    if rows != [] {
      FlatteningIsTheRows(rows[..|rows| - 1]);
      AddedRow(Grouped(rows[..|rows| - 1]), rows[|rows| - 1]);
    }
  }

  /** All six rate columns are there. */
  predicate HasRate(row: Row) {
    && row.countryCode != None && row.countryName != None && row.currency != None
    && row.perUnit != None && row.min != None && row.max != None
  }

  /** The rate is the row's, column by column, under the row's brand. */
  predicate IsRateOf(entry: (nat, Rate), row: Row) {
    && entry.0 == row.brand.id
    && row.countryCode == Some(entry.1.countryCode) && row.countryName == Some(entry.1.countryName)
    && row.currency == Some(entry.1.currency) && row.perUnit == Some(entry.1.perUnit)
    && row.min == Some(entry.1.min) && row.max == Some(entry.1.max)
  }

  function RowsWithRates(rows: seq<Row>): seq<Row> {
    if rows == [] then []
    else RowsWithRates(rows[..|rows| - 1]) + if HasRate(rows[|rows| - 1]) then [rows[|rows| - 1]] else []
  }

  /** The rates listed, one after the other, are those of the rows that have one, column by column. */
  lemma {:induction false} RatesAreTheRows(rows: seq<Row>)
    ensures |Rates(Grouped(rows))| == |RowsWithRates(rows)|
    ensures forall i :: 0 <= i < |RowsWithRates(rows)| ==> IsRateOf(Rates(Grouped(rows))[i], RowsWithRates(rows)[i])
  {
    FlatteningIsTheRows(rows);
    RowRatesAreColumns(rows);
  }

  lemma {:induction false} RowRatesAreColumns(rows: seq<Row>)
    ensures |RowRates(rows)| == |RowsWithRates(rows)|
    ensures forall i :: 0 <= i < |RowRates(rows)| ==> IsRateOf(RowRates(rows)[i], RowsWithRates(rows)[i])
  {
    if rows != [] {
      RowRatesAreColumns(rows[..|rows| - 1]);
    }
  }

  ghost predicate BrandOfSome(brand: Brand, rows: seq<Row>) {
    exists i :: 0 <= i < |rows| && rows[i].brand == brand
  }

  /** Each group is headed by the brand of one of the rows, column by column. */
  lemma {:induction false} HeadsAreBrands(rows: seq<Row>)
    ensures forall g :: 0 <= g < |Grouped(rows)| ==> BrandOfSome(Grouped(rows)[g].brand, rows)
  {
    if rows != [] {
      var n := |rows| - 1;
      var front := rows[..n];
      HeadsAreBrands(front);
      var before, after := Grouped(front), Grouped(rows);
      forall g | 0 <= g < |after| ensures BrandOfSome(after[g].brand, rows) {
        if g < |before| {
          assert after[g].brand == before[g].brand;
          var i :| 0 <= i < |front| && front[i].brand == before[g].brand;
          assert rows[i].brand == after[g].brand;
        } else {
          assert rows[n].brand == after[g].brand;
        }
      }
    }
  }

  // ---------------------------------------------------------------------
  // Each brand once
  // ---------------------------------------------------------------------

  function Ids(groups: seq<Group>): (ids: seq<nat>)
    ensures |ids| == |groups| && forall i :: 0 <= i < |ids| ==> ids[i] == groups[i].brand.id
  {
    seq(|groups|, i requires 0 <= i < |groups| => groups[i].brand.id)
  }

  lemma {:induction false} AddedId(groups: seq<Group>, row: Row)
    ensures Ids(AddRow(groups, row))
      == if groups == [] || groups[|groups| - 1].brand.id != row.brand.id
         then Ids(groups) + [row.brand.id] else Ids(groups)
  {
  }

  lemma {:induction false} NeighboursDiffer(rows: seq<Row>)
    ensures forall i :: 0 < i < |Grouped(rows)| ==> Grouped(rows)[i - 1].brand.id != Grouped(rows)[i].brand.id
  {
    if rows != [] {
      NeighboursDiffer(rows[..|rows| - 1]);
      var before, after := Grouped(rows[..|rows| - 1]), Grouped(rows);
      AddedId(before, rows[|rows| - 1]);
      forall i | 0 < i < |after| ensures after[i - 1].brand.id != after[i].brand.id {
        assert Ids(after)[i - 1] == after[i - 1].brand.id && Ids(after)[i] == after[i].brand.id;
        assert i < |before| ==> before[i - 1].brand.id != before[i].brand.id;
      }
    }
  }

  predicate Distinct(ids: seq<nat>) {
    forall i, j :: 0 <= i < j < |ids| ==> ids[i] != ids[j]
  }

  /** The rows of a brand stand together. */
  ghost predicate Contiguous(rows: seq<Row>) {
    forall i, j, k :: Together(rows, i, j, k)
  }

  predicate Together(rows: seq<Row>, i: int, j: int, k: int) {
    0 <= i < j < k < |rows| && rows[i].brand.id == rows[k].brand.id ==> rows[j].brand.id == rows[i].brand.id
  }

  predicate Mentioned(rows: seq<Row>, id: nat) {
    exists i :: 0 <= i < |rows| && rows[i].brand.id == id
  }

  lemma {:induction false} LastIsLast(rows: seq<Row>)
    requires rows != []
    ensures Grouped(rows) != [] && Grouped(rows)[|Grouped(rows)| - 1].brand.id == rows[|rows| - 1].brand.id
  {
    AddedRow(Grouped(rows[..|rows| - 1]), rows[|rows| - 1]);
  }

  lemma {:induction false} IdsPush(groups: seq<Group>, row: Row, id: nat)
    ensures id in Ids(AddRow(groups, row)) <==> id in Ids(groups) || id == row.brand.id
  {
    AddedId(groups, row);
    if groups != [] {
      assert Ids(groups)[|groups| - 1] in Ids(groups);
    }
  }

  /** Every brand of the query is listed, also one without a rate, and no other. */
  lemma {:induction false} EveryBrandIsListed(rows: seq<Row>, id: nat)
    ensures id in Ids(Grouped(rows)) <==> Mentioned(rows, id)
  {
    if rows != [] {
      var n := |rows| - 1;
      EveryBrandIsListed(rows[..n], id);
      IdsPush(Grouped(rows[..n]), rows[n], id);
      MentionedPush(rows, id);
    }
  }

  lemma MentionedPush(rows: seq<Row>, id: nat)
    requires rows != []
    ensures Mentioned(rows, id) <==> Mentioned(rows[..|rows| - 1], id) || rows[|rows| - 1].brand.id == id
  {
    var front := rows[..|rows| - 1];
    assert forall i :: 0 <= i < |front| ==> front[i] == rows[i];
    if Mentioned(front, id) {
      var i :| 0 <= i < |front| && front[i].brand.id == id;
      assert rows[i].brand.id == id;
    }
  }

  /** The last row goes back to a brand that another brand's row has already ended. */
  predicate Returns(rows: seq<Row>)
    requires rows != []
  {
    var n := |rows| - 1;
    n > 0 && rows[n - 1].brand.id != rows[n].brand.id && Mentioned(rows[..n], rows[n].brand.id)
  }

  lemma {:induction false} ContiguousPush(rows: seq<Row>)
    requires rows != []
    ensures Contiguous(rows) <==> (Contiguous(rows[..|rows| - 1]) && !Returns(rows))
  {
    var n := |rows| - 1;
    var front, id := rows[..n], rows[n].brand.id;
    if Contiguous(front) && !Returns(rows) {
      forall i, j, k ensures Together(rows, i, j, k) {
        assert Together(front, i, j, k) && Together(front, i, j, n - 1);
        if 0 <= i < j < k == n && rows[i].brand.id == id {
          assert front[i].brand.id == id;
        }
      }
    }
    if Contiguous(rows) {
      forall i, j, k ensures Together(front, i, j, k) {
        assert Together(rows, i, j, k);
      }
      if Mentioned(front, id) {
        var i :| 0 <= i < n && front[i].brand.id == id;
        assert Together(rows, i, n - 1, n);
      }
    }
  }

  /** Nothing open, or the open group is this brand's, or the brand has had no group yet. */
  predicate Fits(groups: seq<Group>, id: nat) {
    groups == [] || groups[|groups| - 1].brand.id == id || id !in Ids(groups)
  }

  lemma {:induction false} DistinctStep(groups: seq<Group>, row: Row)
    ensures Distinct(Ids(AddRow(groups, row))) <==> Distinct(Ids(groups)) && Fits(groups, row.brand.id)
  {
    AddedId(groups, row);
    DistinctPush(Ids(groups), row.brand.id);
  }

  lemma {:induction false} ReturnsIffUnfit(rows: seq<Row>)
    requires rows != []
    ensures Returns(rows) <==> !Fits(Grouped(rows[..|rows| - 1]), rows[|rows| - 1].brand.id)
  {
    var front := rows[..|rows| - 1];
    EveryBrandIsListed(front, rows[|rows| - 1].brand.id);
    if front != [] { LastIsLast(front); }
  }

  /** Every brand appears exactly once exactly when its rows stand together. */
  lemma {:induction false} EachBrandOnceIff(rows: seq<Row>)
    ensures Distinct(Ids(Grouped(rows))) <==> Contiguous(rows)
  {
    if rows != [] {
      var front := rows[..|rows| - 1];
      EachBrandOnceIff(front);
      DistinctStep(Grouped(front), rows[|rows| - 1]);
      ReturnsIffUnfit(rows);
      ContiguousPush(rows);
    }
  }

  lemma DistinctPush(ids: seq<nat>, id: nat)
    ensures Distinct(ids + [id]) <==> Distinct(ids) && id !in ids
  {
    var more := ids + [id];
    assert forall i :: 0 <= i < |ids| ==> more[i] == ids[i];
    if Distinct(more) {
      forall i, j | 0 <= i < j < |ids| ensures ids[i] != ids[j] { assert more[i] != more[j]; }
      forall i | 0 <= i < |ids| ensures ids[i] != id { assert more[i] != more[|ids|]; }
    }
  }

  // ---------------------------------------------------------------------
  // Each brand with all its rates
  // ---------------------------------------------------------------------

  function RatesFor(tagged: seq<(nat, Rate)>, id: nat): seq<Rate> {
    if tagged == [] then []
    else RatesFor(tagged[..|tagged| - 1], id) + if tagged[|tagged| - 1].0 == id then [tagged[|tagged| - 1].1] else []
  }

  lemma {:induction false} RatesForAppend(a: seq<(nat, Rate)>, b: seq<(nat, Rate)>, id: nat)
    ensures RatesFor(a + b, id) == RatesFor(a, id) + RatesFor(b, id)
  {
    if b == [] {
      assert a + b == a;
    } else {
      assert (a + b)[..|a + b| - 1] == a + b[..|b| - 1];
      RatesForAppend(a, b[..|b| - 1], id);
    }
  }

  lemma {:induction false} RatesForTagged(tag: nat, rates: seq<Rate>, id: nat)
    ensures RatesFor(Tagged(tag, rates), id) == if tag == id then rates else []
  {
    if rates != [] {
      var n := |rates| - 1;
      RatesForTagged(tag, rates[..n], id);
      var t := Tagged(tag, rates);
      assert t[..|t| - 1] == Tagged(tag, rates[..n]);
      assert rates == rates[..n] + [rates[n]];
    }
  }

  lemma {:induction false} RatesSplit(groups: seq<Group>, id: nat)
    requires groups != []
    ensures var n := |groups| - 1;
      RatesFor(Rates(groups), id)
      == RatesFor(Rates(groups[..n]), id) + if groups[n].brand.id == id then groups[n].rates else []
  {
    var n := |groups| - 1;
    RatesForAppend(Rates(groups[..n]), Tagged(groups[n].brand.id, groups[n].rates), id);
    RatesForTagged(groups[n].brand.id, groups[n].rates, id);
  }

  lemma {:induction false} GroupHoldsItsRates(groups: seq<Group>, i: nat)
    requires Distinct(Ids(groups)) && i < |groups|
    ensures RatesFor(Rates(groups), groups[i].brand.id) == groups[i].rates
    decreases |groups|
  {
    var n := |groups| - 1;
    RatesSplit(groups, groups[i].brand.id);
    assert Ids(groups[..n]) == Ids(groups)[..n];
    if i < n {
      assert Ids(groups)[i] != Ids(groups)[n];
      GroupHoldsItsRates(groups[..n], i);
    } else {
      NoRatesElsewhere(groups[..n], groups[i].brand.id);
    }
  }

  lemma {:induction false} NoRatesElsewhere(groups: seq<Group>, id: nat)
    requires id !in Ids(groups)
    ensures RatesFor(Rates(groups), id) == []
    decreases |groups|
  {
    if groups != [] {
      var n := |groups| - 1;
      assert Ids(groups)[n] == groups[n].brand.id;
      assert Ids(groups[..n]) == Ids(groups)[..n];
      NoRatesElsewhere(groups[..n], id);
      RatesSplit(groups, id);
    }
  }

  /** With contiguous rows each brand's one entry holds all the brand's rates, in the order of the rows. */
  lemma BrandHoldsAllItsRates(rows: seq<Row>, i: nat)
    requires Contiguous(rows) && i < |Grouped(rows)|
    ensures Grouped(rows)[i].rates == RatesFor(RowRates(rows), Grouped(rows)[i].brand.id)
  {
    EachBrandOnceIff(rows);
    GroupHoldsItsRates(Grouped(rows), i);
    FlatteningIsTheRows(rows);
  }

  // ---------------------------------------------------------------------
  // The query orders by name
  // ---------------------------------------------------------------------

  predicate OrderedByName(rows: seq<Row>) {
    forall i, j :: 0 <= i < j < |rows| ==> !Before(rows[j].brand.name, rows[i].brand.name)
  }

  predicate NamesAreUnique(rows: seq<Row>) {
    forall i, j :: 0 <= i < |rows| && 0 <= j < |rows| ==>
      (rows[i].brand.id == rows[j].brand.id <==> rows[i].brand.name == rows[j].brand.name)
  }

  /** Ordering by name keeps a brand's rows together as long as no two brands share a name. */
  lemma UniqueNamesStandTogether(rows: seq<Row>)
    requires OrderedByName(rows) && NamesAreUnique(rows)
    ensures Contiguous(rows)
  {
    forall i, j, k ensures Together(rows, i, j, k) {
      if 0 <= i < j < k < |rows| && rows[i].brand.id == rows[k].brand.id {
        assert rows[i].brand.name == rows[k].brand.name;
        assert !Before(rows[j].brand.name, rows[i].brand.name) && !Before(rows[k].brand.name, rows[j].brand.name);
        OneOrTheOther(rows[j].brand.name, rows[i].brand.name);
      }
    }
  }

  /**
   Names are not unique in the table. Two brands of one name, ordered by rate within it, split: one
   is listed twice.
   */
  lemma {:induction false} SharedNamesSplitABrand() returns (rows: seq<Row>)
    ensures OrderedByName(rows) && |rows| == 3
    ensures forall i :: 0 <= i < 3 ==> rows[i].perUnit.Some?
    ensures rows[0].perUnit.value > rows[1].perUnit.value > rows[2].perUnit.value
    ensures !Distinct(Ids(Grouped(rows)))
  {
    var a := Brand(1, "Steam", "steam", None, true, false, None);
    var b := Brand(2, "Steam", "steam-eu", None, true, false, None);
    rows := [
      Row(a, Some("US"), Some("United States"), Some("USD"), Some(900.0), Some(10.0), Some(100.0)),
      Row(b, Some("DE"), Some("Germany"), Some("EUR"), Some(850.0), Some(10.0), Some(100.0)),
      Row(a, Some("GB"), Some("United Kingdom"), Some("GBP"), Some(800.0), Some(10.0), Some(100.0))];
    Irreflexive("Steam");
    SplitBrandsAppearTwice(rows, 0, 1, 2);
  }

  lemma {:induction false} SplitBrandsAppearTwice(rows: seq<Row>, i: nat, j: nat, k: nat)
    requires i < j < k < |rows| && rows[i].brand.id == rows[k].brand.id != rows[j].brand.id
    ensures !Distinct(Ids(Grouped(rows)))
  {
    assert !Together(rows, i, j, k);
    EachBrandOnceIff(rows);
  }
}
