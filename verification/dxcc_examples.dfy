/** The matrices of the reducers' unit tests, as lemmas about the model. */
module DxccExamples {
  import opened DxccStats

  const Row1: (string, Bands) := ("1", [("20m", 1), ("40m", 2)])
  const Row100: (string, Bands) := ("100", [("20m", 3), ("15m", 1)])
  const Row200: (string, Bands) := ("200", [("10m", 2)])
  const Row291: (string, Bands) := ("291", [("20m", 1), ("40m", 1), ("80m", 3)])

  /** The test fixture's matrix of four entities. */
  const Sample: Matrix := [Row1, Row100, Row200, Row291]

  lemma SampleRows(rule: Rule)
    ensures Entities(Sample, rule) ==
              RowPart("1", Row1.1, rule) + RowPart("100", Row100.1, rule)
              + RowPart("200", Row200.1, rule) + RowPart("291", Row291.1, rule)
  {
    EntitiesSingle(Row1, rule);
    EntitiesSnoc([Row1], Row100, rule);
    EntitiesSnoc([Row1, Row100], Row200, rule);
    EntitiesSnoc([Row1, Row100, Row200], Row291, rule);
    assert [Row1] + [Row100] == [Row1, Row100];
    assert [Row1, Row100] + [Row200] == [Row1, Row100, Row200];
    assert [Row1, Row100, Row200] + [Row291] == Sample;
  }

  lemma SampleWorked()
    ensures Entities(Sample, AnyStatus) == {"1", "100", "200", "291"}
  {
    SampleRows(AnyStatus);
    assert HasStatus(Row1.1, AnyStatus) && HasStatus(Row100.1, AnyStatus);
    assert HasStatus(Row200.1, AnyStatus) && HasStatus(Row291.1, AnyStatus);
  }

  lemma SampleConfirmed()
    ensures Entities(Sample, ConfirmedOrVerified) == {"1", "100", "291"}
  {
    SampleRows(ConfirmedOrVerified);
    assert HasStatus(Row1.1, ConfirmedOrVerified) && HasStatus(Row100.1, ConfirmedOrVerified);
    assert !HasStatus(Row200.1, ConfirmedOrVerified) && HasStatus(Row291.1, ConfirmedOrVerified);
  }

  lemma SampleVerified()
    ensures Entities(Sample, OnlyVerified) == {"100", "291"}
  {
    SampleRows(OnlyVerified);
    assert !HasStatus(Row1.1, OnlyVerified) && HasStatus(Row100.1, OnlyVerified);
    assert !HasStatus(Row200.1, OnlyVerified) && HasStatus(Row291.1, OnlyVerified);
  }

  /** The fixture gives 4 worked, 3 confirmed and 2 verified entities. */
  lemma SampleTotals()
    ensures BridgeTotals(Sample) == Totals(4, 3, 2)
  {
    SampleWorked();
    SampleConfirmed();
    SampleVerified();
  }

  /** An empty matrix gives zero totals in both reducers. */
  lemma EmptyTotals()
    ensures BridgeTotals([]) == Totals(0, 0, 0)
    ensures CoordinatorTotals([]) == Totals(0, 0, 0)
  {
  }

  /** One entity seen on several bands is counted once in each set. */
  lemma SeveralBandsCountOnce()
    ensures BridgeTotals([("1", [("20m", 2), ("40m", 1), ("80m", 3)])]) == Totals(1, 1, 1)
  {
    var row: (string, Bands) := ("1", [("20m", 2), ("40m", 1), ("80m", 3)]);
    EntitiesSingle(row, AnyStatus);
    EntitiesSingle(row, ConfirmedOrVerified);
    EntitiesSingle(row, OnlyVerified);
    assert HasStatus(row.1, AnyStatus) && HasStatus(row.1, ConfirmedOrVerified);
    assert HasStatus(row.1, OnlyVerified);
  }

  /** A band with status 1 makes the bridge report one worked entity and the
      coordinator none; a band with status 2 (worked, not confirmed) makes
      the coordinator report one confirmed entity and the bridge none. */
  lemma ReducersDiverge()
    ensures BridgeTotals([("1", [("20m", 1)])]).worked == 1
    ensures CoordinatorTotals([("1", [("20m", 1)])]).worked == 0
    ensures CoordinatorTotals([("1", [("20m", 1)])]).confirmed == 1
    ensures BridgeTotals([("1", [("20m", 2)])]).confirmed == 0
    ensures CoordinatorTotals([("1", [("20m", 2)])]).confirmed == 1
  {
    var one: (string, Bands) := ("1", [("20m", 1)]);
    var two: (string, Bands) := ("1", [("20m", 2)]);
    EntitiesSingle(one, AnyStatus);
    EntitiesSingle(one, AtLeast(2));
    EntitiesSingle(one, AtLeast(1));
    EntitiesSingle(two, ConfirmedOrVerified);
    EntitiesSingle(two, AtLeast(1));
    assert HasStatus(one.1, AnyStatus) && !HasStatus(one.1, AtLeast(2)) && HasStatus(one.1, AtLeast(1));
    assert !HasStatus(two.1, ConfirmedOrVerified) && HasStatus(two.1, AtLeast(1));
  }
}
