/** Flight pricing (src/utils/destinationAnalyzer.ts:4-76): a two-level table keyed by
    the user's country (the origin), then the destination country, with two fallbacks:
    an origin without a row is priced from the "United States" row, and a destination
    whose cell is missing or 0 (falsy in JavaScript) costs 700. */
module FlightPricing {
  import opened Wrappers
  import opened Travel

  /** The own properties of a JavaScript object literal, in authored order. */
  type Entries<V> = seq<(string, V)>

  /** Destination country to base fare. */
  type Row = Entries<int>

  /** Origin country to row. */
  type CostTable = Entries<Row>

  /** `obj[key]` restricted to own properties: the value of the first entry named
      `key`, or nothing. */
  function Get<V>(entries: Entries<V>, key: string): Option<V> {
    if entries == [] then None
    else if entries[0].0 == key then Some(entries[0].1)
    else Get(entries[1..], key)
  }

  /** `Get` finds a value exactly when some entry carries the key, and what it finds
      is the value of the first such entry. */
  lemma {:induction false} GetSpec<V>(entries: Entries<V>, key: string)
    ensures Get(entries, key).Some? <==> exists i :: 0 <= i < |entries| && entries[i].0 == key
    ensures Get(entries, key).Some? ==>
              exists i :: 0 <= i < |entries| && entries[i] == (key, Get(entries, key).value)
                          && forall j :: 0 <= j < i ==> entries[j].0 != key
  {
    if entries != [] && entries[0].0 != key {
      GetSpec(entries[1..], key);
      if Get(entries, key).Some? {
        var i :| 0 <= i < |entries| - 1 && entries[1..][i] == (key, Get(entries, key).value)
                 && forall j :: 0 <= j < i ==> entries[1..][j].0 != key;
        assert entries[i + 1] == (key, Get(entries, key).value);
      }
      assert forall i :: 0 < i < |entries| ==> entries[i] == entries[1..][i - 1];
    } else if entries != [] {
      assert entries[0] == (key, Get(entries, key).value);
    }
  }

  /** The row used when the origin has none of its own. */
  const DefaultOrigin: string := "United States"

  /** The fare when the chosen row has no truthy cell for the destination. */
  const DefaultCost: int := 700

  const UnitedStatesRow: Row := [
    ("Indonesia", 850), ("Maldives", 950), ("Thailand", 750), ("Switzerland", 700),
    ("Chile", 800), ("Canada", 350), ("France", 650), ("Italy", 700),
    ("Czech Republic", 600), ("Morocco", 750), ("Jordan", 800)
  ]

  const UnitedKingdomRow: Row := [
    ("Indonesia", 750), ("Maldives", 850), ("Thailand", 650), ("Switzerland", 200),
    ("Chile", 900), ("Canada", 500), ("France", 150), ("Italy", 200),
    ("Czech Republic", 180), ("Morocco", 250), ("Jordan", 400)
  ]

  const CanadaRow: Row := [
    ("Indonesia", 900), ("Maldives", 1000), ("Thailand", 800), ("Switzerland", 650),
    ("Chile", 750), ("Canada", 200), ("France", 600), ("Italy", 650),
    ("Czech Republic", 550), ("Morocco", 700), ("Jordan", 750)
  ]

  const AustraliaRow: Row := [
    ("Indonesia", 400), ("Maldives", 600), ("Thailand", 350), ("Switzerland", 1200),
    ("Chile", 800), ("Canada", 1000), ("France", 1100), ("Italy", 1150),
    ("Czech Republic", 1050), ("Morocco", 1000), ("Jordan", 900)
  ]

  const GermanyRow: Row := [
    ("Indonesia", 700), ("Maldives", 800), ("Thailand", 600), ("Switzerland", 150),
    ("Chile", 850), ("Canada", 550), ("France", 120), ("Italy", 180),
    ("Czech Republic", 100), ("Morocco", 300), ("Jordan", 350)
  ]

  const BaseCosts: CostTable := [
    ("United States", UnitedStatesRow),
    ("United Kingdom", UnitedKingdomRow),
    ("Canada", CanadaRow),
    ("Australia", AustraliaRow),
    ("Germany", GermanyRow)
  ]

  /** The destination countries every row prices, in authored order. */
  const Columns: seq<string> := [
    "Indonesia", "Maldives", "Thailand", "Switzerland", "Chile", "Canada",
    "France", "Italy", "Czech Republic", "Morocco", "Jordan"]

  /** No two entries share a key. An object literal that repeats a key keeps the
      last value, so first-match lookup is JavaScript's lookup only on entries like these. */
  predicate DistinctKeys<V>(entries: Entries<V>) {
    forall i, j :: 0 <= i < j < |entries| ==> entries[i].0 != entries[j].0
  }

  /** With distinct keys, a lookup of any entry's key finds that entry's value. */
  lemma GetDistinct<V>(entries: Entries<V>, i: nat)
    requires DistinctKeys(entries) && i < |entries|
    ensures Get(entries, entries[i].0) == Some(entries[i].1)
  {
    var key := entries[i].0;
    GetSpec(entries, key);
    var k :| 0 <= k < |entries| && entries[k] == (key, Get(entries, key).value)
             && forall j :: 0 <= j < k ==> entries[j].0 != key;
    if k < i {
      assert entries[k].0 == entries[i].0;
    } else if i < k {
      assert entries[i].0 == key;
    }
  }

  /** The property names of an object literal, in order. */
  function Keys<V>(entries: Entries<V>): (ks: seq<string>)
    ensures |ks| == |entries|
    ensures forall i :: 0 <= i < |entries| ==> ks[i] == entries[i].0
  {
    seq(|entries|, i requires 0 <= i < |entries| => entries[i].0)
  }

  /** Every row prices exactly the same destinations. */
  lemma RowsShareColumns()
    ensures forall i :: 0 <= i < |BaseCosts| ==> Keys(BaseCosts[i].1) == Columns
  {
  }

  /** The origins with a row of their own, in authored order. */
  lemma TableOrigins()
    ensures Keys(BaseCosts) == ["United States", "United Kingdom", "Canada", "Australia", "Germany"]
  {
  }

  /** The table and every row name each country once, as their literals do. */
  lemma CostTableDistinct()
    ensures DistinctKeys(BaseCosts)
    ensures forall i :: 0 <= i < |BaseCosts| ==> DistinctKeys(BaseCosts[i].1)
  {
    TableOrigins();
    RowsShareColumns();
    assert DistinctKeys(BaseCosts) by {
      forall i, j | 0 <= i < j < |BaseCosts| ensures Keys(BaseCosts)[i] != Keys(BaseCosts)[j] { }
    }
    forall i | 0 <= i < |BaseCosts| ensures DistinctKeys(BaseCosts[i].1) {
      forall a, b | 0 <= a < b < |BaseCosts[i].1| ensures Keys(BaseCosts[i].1)[a] != Keys(BaseCosts[i].1)[b] {
        assert Columns[a] != Columns[b];
      }
    }
  }

  /** A key some entry carries is found. */
  lemma GetPresent<V>(entries: Entries<V>, key: string)
    requires key in Keys(entries)
    ensures Get(entries, key).Some?
  {
    GetSpec(entries, key);
    var i :| 0 <= i < |entries| && Keys(entries)[i] == key;
    assert entries[i].0 == key;
  }

  /** Every fare in every row is at least `bound`. */
  predicate CellsAtLeast(table: CostTable, bound: int) {
    forall i, j :: 0 <= i < |table| && 0 <= j < |table[i].1| ==> table[i].1[j].1 >= bound
  }

  /** A table whose default origin has a row: the only shape the lookup accepts. */
  predicate HasDefaultRow(table: CostTable) {
    Get(table, DefaultOrigin).Some?
  }

  /** The row an origin is priced from: its own, else the default origin's. */
  function RowFor(table: CostTable, origin: string): (row: Row)
    requires HasDefaultRow(table)
    ensures exists i :: 0 <= i < |table| && table[i].1 == row
              && (table[i].0 == origin || (Get(table, origin) == None && table[i].0 == DefaultOrigin))
  {
    GetSpec(table, origin);
    GetSpec(table, DefaultOrigin);
    Get(table, origin).GetOr(Get(table, DefaultOrigin).value)
  }

  /** `row[dest] || 700`: a missing cell and a 0 cell both fall through. */
  function CellOr(row: Row, dest: string): (cost: int)
    ensures cost != 0
    ensures cost == DefaultCost || exists j :: 0 <= j < |row| && row[j] == (dest, cost)
    ensures (exists j :: 0 <= j < |row| && row[j].0 == dest && row[j].1 != 0) || cost == DefaultCost
  {
    GetSpec(row, dest);
    var cell := Get(row, dest);
    if cell.Some? && cell.value != 0 then cell.value else DefaultCost
  }

  /** The fare from `origin` to `dest` under `table`, with both fallbacks: a non-zero
      fare that is either the default or a cell for `dest` in some row. */
  function LookupCost(table: CostTable, origin: string, dest: string): (cost: int)
    requires HasDefaultRow(table)
    ensures cost != 0
    ensures cost == DefaultCost
            || exists i, j :: 0 <= i < |table| && 0 <= j < |table[i].1| && table[i].1[j] == (dest, cost)
  {
    var row := RowFor(table, origin);
    GetSpec(table, origin);
    GetSpec(table, DefaultOrigin);
    GetSpec(row, dest);
    CellOr(row, dest)
  }

  /** `calculateFlightCost(userLocation, destinationCountry)`. */
  function FlightCost(from: UserLocation, dest: string): (cost: int)
    ensures cost > 0
  {
    BaseCostsPositive();
    LookupLowerBound(BaseCosts, from.country, dest);
    LookupCost(BaseCosts, from.country, dest)
  }

  /** Every fare in the table is positive. */
  lemma BaseCostsPositive()
    ensures HasDefaultRow(BaseCosts)
    ensures CellsAtLeast(BaseCosts, 1)
  {
  }

  /** An exact (origin, destination) hit with a non-zero cell is that cell. */
  lemma LookupHit(table: CostTable, origin: string, dest: string, row: Row, cell: int)
    requires HasDefaultRow(table)
    requires Get(table, origin) == Some(row) && Get(row, dest) == Some(cell) && cell != 0
    ensures LookupCost(table, origin, dest) == cell
  {
  }

  /** An origin without a row is priced exactly as the default origin. */
  lemma LookupUnknownOrigin(table: CostTable, origin: string, dest: string)
    requires HasDefaultRow(table) && Get(table, origin) == None
    ensures LookupCost(table, origin, dest) == LookupCost(table, DefaultOrigin, dest)
  {
  }

  /** A destination missing from the row used, or holding 0 there, costs the default. */
  lemma LookupMiss(table: CostTable, origin: string, dest: string)
    requires HasDefaultRow(table)
    requires Get(RowFor(table, origin), dest) in {None, Some(0)}
    ensures LookupCost(table, origin, dest) == DefaultCost
  {
  }

  /** With no negative cell every fare is positive: the falsy fallback turns 0 into 700. */
  lemma LookupLowerBound(table: CostTable, origin: string, dest: string)
    requires HasDefaultRow(table)
    requires CellsAtLeast(table, 0)
    ensures LookupCost(table, origin, dest) > 0
  {
  }

  /** Pricing looks only at the user's country, never at the city or coordinates. */
  lemma FlightCostIgnoresCityAndCoordinates(a: UserLocation, b: UserLocation, dest: string)
    requires a.country == b.country
    ensures FlightCost(a, dest) == FlightCost(b, dest)
  {
  }

  /** The table's own example: United Kingdom to Switzerland is 200. */
  lemma UnitedKingdomToSwitzerland(from: UserLocation)
    requires from.country == "United Kingdom"
    ensures FlightCost(from, "Switzerland") == 200
  {
    assert Get(BaseCosts, "United Kingdom") == Some(UnitedKingdomRow);
    assert Get(UnitedKingdomRow, "Switzerland") == Some(200);
    LookupHit(BaseCosts, "United Kingdom", "Switzerland", UnitedKingdomRow, 200);
  }

  /** Countries with no row, such as "Japan", "France" or "Unknown", pay United States fares. */
  lemma UnlistedOriginPaysUnitedStatesFares(from: UserLocation, dest: string)
    requires Get(BaseCosts, from.country) == None
    ensures FlightCost(from, dest) == LookupCost(BaseCosts, "United States", dest)
  {
    LookupUnknownOrigin(BaseCosts, from.country, dest);
  }

  /** A key no entry carries is not found. */
  lemma GetAbsent<V>(entries: Entries<V>, key: string)
    requires forall i :: 0 <= i < |entries| ==> entries[i].0 != key
    ensures Get(entries, key) == None
  {
    GetSpec(entries, key);
  }

  /** "United States" is in no row, so it costs 700 from every origin. */
  lemma UnitedStatesCostsDefault(from: UserLocation)
    ensures FlightCost(from, "United States") == DefaultCost
  {
    var row := RowFor(BaseCosts, from.country);
    GetSpec(BaseCosts, from.country);
    GetSpec(BaseCosts, DefaultOrigin);
    assert row in {UnitedStatesRow, UnitedKingdomRow, CanadaRow, AustraliaRow, GermanyRow};
    assert forall j :: 0 <= j < |row| ==> |row[j].0| != |"United States"|;
    GetAbsent(row, "United States");
    LookupMiss(BaseCosts, from.country, "United States");
  }

  // --- The origin lookup as written ---

  /** Members every JavaScript object literal inherits from Object.prototype. Indexing
      the cost table with one of them yields a truthy value that is not a row. */
  const InheritedKeys: set<string> := {
    "constructor", "__proto__", "hasOwnProperty", "isPrototypeOf",
    "propertyIsEnumerable", "toLocaleString", "toString", "valueOf",
    "__defineGetter__", "__defineSetter__", "__lookupGetter__", "__lookupSetter__"}

  /** A name starting with an upper-case ASCII letter; no member of the inherited
      values above or of their prototypes is named like this. */
  predicate Capitalised(s: string) {
    s != [] && 'A' <= s[0] <= 'Z'
  }

  /** `baseCosts[userCountry] || baseCosts['United States']` followed by
      `costs[destinationCountry] || 700`, with the prototype chain taken into account:
      an inherited member is truthy, so the default row is skipped, and it has no
      property named after a country, so every fare falls through to 700. An own row
      shadows an inherited member of the same name. */
  function LookupCostAsWritten(table: CostTable, origin: string, dest: string): (cost: int)
    requires HasDefaultRow(table) && Capitalised(dest)
    ensures origin !in InheritedKeys ==> cost == LookupCost(table, origin, dest)
    ensures origin in InheritedKeys && Get(table, origin) == None ==> cost == DefaultCost
  {
    match Get(table, origin)
    case Some(row) => CellOr(row, dest)
    case None => if origin in InheritedKeys then DefaultCost else CellOr(Get(table, DefaultOrigin).value, dest)
  }

  /** A manual entry such as "Paris, toString" makes the origin "toString": as written
      Bali costs 700, while an unknown origin is meant to pay the United States fare, 850. */
  lemma InheritedOriginSkipsDefaultRow()
    ensures LookupCostAsWritten(BaseCosts, "toString", "Indonesia") == 700
    ensures LookupCost(BaseCosts, "toString", "Indonesia") == 850
  {
    assert forall i :: 0 <= i < |BaseCosts| ==> |BaseCosts[i].0| != |"toString"|;
    GetAbsent(BaseCosts, "toString");
    assert Get(BaseCosts, DefaultOrigin) == Some(UnitedStatesRow);
    assert Get(UnitedStatesRow, "Indonesia") == Some(850);
  }
}
