/** The two DXCC reducers: `compute_dxcc_stats` of the standalone bridge and
    the inline loop of the integration's coordinator. Both walk the matrix
    `{dxcc_id: {band: status}}` and collect entity ids into three sets; they
    differ in which statuses put an entity in which set. */
module DxccStats {

  /** One entity's bands, in insertion order: band name and status. */
  type Bands = seq<(string, int)>

  /** The DXCC matrix, in insertion order: entity id and its bands. */
  type Matrix = seq<(string, Bands)>

  /** The status codes ClubLog uses in the matrix (const.py). */
  const StatusConfirmed := 1
  const StatusWorked := 2
  const StatusVerified := 3

  /** Which band statuses put an entity into a set. */
  datatype Rule =
    | AnyStatus            // the bridge's worked set: any band at all
    | ConfirmedOrVerified  // the bridge's confirmed set: status in (1, 3)
    | OnlyVerified         // the bridge's verified set: status == 3
    | AtLeast(k: int)      // the coordinator's sets: status >= k

  predicate Counts(rule: Rule, status: int) {
    match rule
    case AnyStatus => true
    case ConfirmedOrVerified => status == StatusConfirmed || status == StatusVerified
    case OnlyVerified => status == StatusVerified
    case AtLeast(k) => status >= k
  }

  /** Some band of the entity has a status the rule counts. */
  predicate HasStatus(bands: Bands, rule: Rule) {
    bands != [] && (HasStatus(bands[..|bands| - 1], rule) || Counts(rule, bands[|bands| - 1].1))
  }

  /** `HasStatus` stated directly. */
  lemma {:induction false} HasStatusSome(bands: Bands, rule: Rule)
    ensures HasStatus(bands, rule) <==> exists j :: 0 <= j < |bands| && Counts(rule, bands[j].1)
  {
    if bands != [] {
      var p := bands[..|bands| - 1];
      HasStatusSome(p, rule);
      assert forall k :: 0 <= k < |p| ==> p[k] == bands[k];
    }
  }

  /** The ids of the entities the rule counts: the set the reducer builds,
      row by row. */
  function Entities(m: Matrix, rule: Rule): set<string> {
    if m == [] then {}
    else Entities(m[..|m| - 1], rule) + RowPart(m[|m| - 1].0, m[|m| - 1].1, rule)
  }

  /** The set a row contributes once its first bands have been seen. */
  function RowPart(id: string, bands: Bands, rule: Rule): set<string> {
    if HasStatus(bands, rule) then {id} else {}
  }

  /** Membership stated directly: an id is in the set exactly when some row
      with that id has a band the rule counts. */
  lemma {:induction false} EntitiesMembers(m: Matrix, rule: Rule, x: string)
    ensures x in Entities(m, rule) <==>
              exists i :: 0 <= i < |m| && m[i].0 == x && HasStatus(m[i].1, rule)
  {
    if m != [] {
      var p := m[..|m| - 1];
      EntitiesMembers(p, rule, x);
      assert forall k :: 0 <= k < |p| ==> p[k] == m[k];
    }
  }

  /** All entity ids of the matrix. */
  function Ids(m: Matrix): set<string> {
    set i | 0 <= i < |m| :: m[i].0
  }

  /** A Python dict never holds the same key twice. */
  predicate DistinctIds(m: Matrix) {
    forall i, j :: 0 <= i < j < |m| ==> m[i].0 != m[j].0
  }

  /** The bridge's three totals (worked, confirmed, verified). */
  datatype Totals = Totals(worked: nat, confirmed: nat, verified: nat)

  function BridgeTotals(m: Matrix): Totals {
    Totals(|Entities(m, AnyStatus)|, |Entities(m, ConfirmedOrVerified)|,
           |Entities(m, OnlyVerified)|)
  }

  function CoordinatorTotals(m: Matrix): Totals {
    Totals(|Entities(m, AtLeast(StatusWorked))|, |Entities(m, AtLeast(StatusConfirmed))|,
           |Entities(m, AtLeast(StatusVerified))|)
  }

  // ---------------------------------------------------------------------
  // The loops
  // ---------------------------------------------------------------------

  /** Adding a row's contribution to the set of the rows before it gives the
      set of the rows up to and including it. */
  lemma EntitiesStep(m: Matrix, i: nat, rule: Rule, before: set<string>, after: set<string>)
    requires i < |m|
    requires before == Entities(m[..i], rule)
    requires after == before + RowPart(m[i].0, m[i].1, rule)
    ensures after == Entities(m[..i + 1], rule)
  {
    assert m[..i + 1][..i] == m[..i];
  }

  /** Seeing one more band adds the entity when the rule counts its status. */
  lemma RowPartStep(id: string, bands: Bands, j: nat, rule: Rule, before: set<string>, s0: set<string>)
    requires j < |bands|
    requires before == s0 + RowPart(id, bands[..j], rule)
    ensures (if Counts(rule, bands[j].1) then before + {id} else before) ==
              s0 + RowPart(id, bands[..j + 1], rule)
  {
    assert bands[..j + 1][..j] == bands[..j];
  }

  /** `compute_dxcc_stats` (clublog-ha-bridge.py): every band adds its
      entity to `worked`; status 1 or 3 also to `confirmed`; status 3 also
      to `verified`. */
  method ComputeDxccStats(m: Matrix) returns (worked: nat, confirmed: nat, verified: nat)
    ensures Totals(worked, confirmed, verified) == BridgeTotals(m)
  {
    var ws: set<string>, cs: set<string>, vs: set<string> := {}, {}, {};
    for i := 0 to |m|
      invariant ws == Entities(m[..i], AnyStatus)
      invariant cs == Entities(m[..i], ConfirmedOrVerified)
      invariant vs == Entities(m[..i], OnlyVerified)
    {
      var id, bands := m[i].0, m[i].1;
      ghost var ws0, cs0, vs0 := ws, cs, vs;
      assert bands[..0] == [];
      for j := 0 to |bands|
        invariant ws == ws0 + RowPart(id, bands[..j], AnyStatus)
        invariant cs == cs0 + RowPart(id, bands[..j], ConfirmedOrVerified)
        invariant vs == vs0 + RowPart(id, bands[..j], OnlyVerified)
      {
        var status := bands[j].1;
        RowPartStep(id, bands, j, AnyStatus, ws, ws0);
        RowPartStep(id, bands, j, ConfirmedOrVerified, cs, cs0);
        RowPartStep(id, bands, j, OnlyVerified, vs, vs0);
        ws := ws + {id};
        if status == 1 || status == 3 {
          cs := cs + {id};
        }
        if status == 3 {
          vs := vs + {id};
        }
      }
      assert bands[..|bands|] == bands;
      EntitiesStep(m, i, AnyStatus, ws0, ws);
      EntitiesStep(m, i, ConfirmedOrVerified, cs0, cs);
      EntitiesStep(m, i, OnlyVerified, vs0, vs);
    }
    assert m[..|m|] == m;
    worked, confirmed, verified := |ws|, |cs|, |vs|;
  }

  /** The stats loop of the coordinator's `_async_update_data`: status >= 1
      adds the entity to `confirmed`, >= 2 to `worked`, >= 3 to `verified`. */
  method CoordinatorStats(m: Matrix) returns (worked: nat, confirmed: nat, verified: nat)
    ensures Totals(worked, confirmed, verified) == CoordinatorTotals(m)
  {
    var ws: set<string>, cs: set<string>, vs: set<string> := {}, {}, {};
    for i := 0 to |m|
      invariant ws == Entities(m[..i], AtLeast(2))
      invariant cs == Entities(m[..i], AtLeast(1))
      invariant vs == Entities(m[..i], AtLeast(3))
    {
      var id, bands := m[i].0, m[i].1;
      ghost var ws0, cs0, vs0 := ws, cs, vs;
      assert bands[..0] == [];
      for j := 0 to |bands|
        invariant ws == ws0 + RowPart(id, bands[..j], AtLeast(2))
        invariant cs == cs0 + RowPart(id, bands[..j], AtLeast(1))
        invariant vs == vs0 + RowPart(id, bands[..j], AtLeast(3))
      {
        var status := bands[j].1;
        RowPartStep(id, bands, j, AtLeast(2), ws, ws0);
        RowPartStep(id, bands, j, AtLeast(1), cs, cs0);
        RowPartStep(id, bands, j, AtLeast(3), vs, vs0);
        if status >= 1 {
          cs := cs + {id};
        }
        if status >= 2 {
          ws := ws + {id};
        }
        if status >= 3 {
          vs := vs + {id};
        }
      }
      assert bands[..|bands|] == bands;
      EntitiesStep(m, i, AtLeast(2), ws0, ws);
      EntitiesStep(m, i, AtLeast(1), cs0, cs);
      EntitiesStep(m, i, AtLeast(3), vs0, vs);
    }
    assert m[..|m|] == m;
    worked, confirmed, verified := |ws|, |cs|, |vs|;
  }

  // ---------------------------------------------------------------------
  // Properties
  // ---------------------------------------------------------------------

  lemma SubsetCard(a: set<string>, b: set<string>)
    requires a <= b
    ensures |a| <= |b|
  {
    assert b == a + (b - a);
  }

  /** A rule that counts fewer statuses counts fewer entities, and every
      counted entity is an entity of the matrix. */
  lemma EntitiesMonotone(m: Matrix, r1: Rule, r2: Rule)
    requires forall s :: Counts(r1, s) ==> Counts(r2, s)
    ensures Entities(m, r1) <= Entities(m, r2) <= Ids(m)
  {
    forall x | x in Entities(m, r1) ensures x in Entities(m, r2) {
      EntitiesMembers(m, r1, x);
      EntitiesMembers(m, r2, x);
      var i :| 0 <= i < |m| && m[i].0 == x && HasStatus(m[i].1, r1);
      HasStatusSome(m[i].1, r1);
      HasStatusSome(m[i].1, r2);
    }
    forall x | x in Entities(m, r2) ensures x in Ids(m) {
      EntitiesMembers(m, r2, x);
    }
  }

  /** A matrix of n entries names at most n entities. */
  lemma {:induction false} IdsCard(m: Matrix)
    ensures |Ids(m)| <= |m|
  {
    if m != [] {
      var p := m[..|m| - 1];
      IdsCard(p);
      assert Ids(m) == Ids(p) + {m[|m| - 1].0} by {
        assert forall k :: 0 <= k < |p| ==> p[k] == m[k];
      }
    }
  }

  /** The bridge's totals: verified <= confirmed <= worked <= entities. */
  lemma BridgeTotalsOrdered(m: Matrix)
    ensures var t := BridgeTotals(m);
            t.verified <= t.confirmed <= t.worked <= |Ids(m)| <= |m|
  {
    EntitiesMonotone(m, OnlyVerified, ConfirmedOrVerified);
    EntitiesMonotone(m, ConfirmedOrVerified, AnyStatus);
    SubsetCard(Entities(m, OnlyVerified), Entities(m, ConfirmedOrVerified));
    SubsetCard(Entities(m, ConfirmedOrVerified), Entities(m, AnyStatus));
    SubsetCard(Entities(m, AnyStatus), Ids(m));
    IdsCard(m);
  }

  /** The coordinator's totals are ordered the other way round for worked and
      confirmed: verified <= worked <= confirmed <= entities. */
  lemma CoordinatorTotalsOrdered(m: Matrix)
    ensures var t := CoordinatorTotals(m);
            t.verified <= t.worked <= t.confirmed <= |Ids(m)| <= |m|
  {
    EntitiesMonotone(m, AtLeast(3), AtLeast(2));
    EntitiesMonotone(m, AtLeast(2), AtLeast(1));
    SubsetCard(Entities(m, AtLeast(3)), Entities(m, AtLeast(2)));
    SubsetCard(Entities(m, AtLeast(2)), Entities(m, AtLeast(1)));
    SubsetCard(Entities(m, AtLeast(1)), Ids(m));
    IdsCard(m);
  }

  /** In the bridge, an entity is worked exactly when its band map is not
      empty, whatever the statuses (even ones outside 1..3). */
  lemma WorkedIffSomeBand(m: Matrix, i: nat)
    requires DistinctIds(m) && i < |m|
    ensures m[i].0 in Entities(m, AnyStatus) <==> m[i].1 != []
  {
    EntitiesMembers(m, AnyStatus, m[i].0);
    HasStatusSome(m[i].1, AnyStatus);
    if m[i].1 != [] {
      assert Counts(AnyStatus, m[i].1[0].1);
    }
  }

  /** An entity with an empty band map is counted by no rule. */
  lemma EmptyBandsNotCounted(m: Matrix, i: nat, rule: Rule)
    requires DistinctIds(m) && i < |m| && m[i].1 == []
    ensures m[i].0 !in Entities(m, rule)
  {
    EntitiesMembers(m, rule, m[i].0);
  }

  /** Appending a row adds its contribution. */
  lemma EntitiesSnoc(m: Matrix, row: (string, Bands), rule: Rule)
    ensures Entities(m + [row], rule) == Entities(m, rule) + RowPart(row.0, row.1, rule)
  {
    assert (m + [row])[..|m|] == m;
  }

  /** The one-row matrix of one entity. */
  lemma EntitiesSingle(row: (string, Bands), rule: Rule)
    ensures Entities([row], rule) == RowPart(row.0, row.1, rule)
  {
    EntitiesSnoc([], row, rule);
    assert [] + [row] == [row];
  }
}
