/** The fleet table of frontend/src/pages/Admin/Dashboard.jsx: the status
    chips that narrow it, the vehicle-name filter, and row deletion. */
module Dashboard {
  import opened Common

  /** The fields of a table row the page logic reads. */
  datatype VehicleRow = VehicleRow(
    vehicleName: string,
    internalNumber: string,
    status: string,
    nextService: string)

  const OverdueChip := "Overdue"
  const DueSoonChip := "Due Soon"
  const NeedsRepairChip := "Needs Repair"

  // ---------------------------------------------------------------------
  // Chips

  /** The chip set after `toggleChip(key)`: `key` flips, nothing else moves. */
  function Toggle(chips: set<string>, key: string): (r: set<string>)
    ensures key in r <==> key !in chips
    ensures forall k :: k != key ==> (k in r <==> k in chips)
  {
    if key in chips then chips - {key} else chips + {key}
  }

  /** Toggling the same chip twice restores the selection. */
  lemma ToggleTwice(chips: set<string>, key: string)
    ensures Toggle(Toggle(chips, key), key) == chips
  {
  }

  // ---------------------------------------------------------------------
  // Row filter

  /** The search key: the query trimmed and lower-cased. */
  function QueryKey(nameQuery: string): string { Lower(Trim(nameQuery)) }

  /** An empty key matches every name; otherwise a case-insensitive
      substring test. */
  predicate NameMatches(r: VehicleRow, key: string) {
    key != "" ==> Includes(Lower(r.vehicleName), key)
  }

  /** At least one selected chip describes the row. */
  predicate ChipMatches(r: VehicleRow, chips: set<string>) {
    || (OverdueChip in chips && r.nextService == "Overdue")
    || (DueSoonChip in chips && r.nextService == "Due Soon")
    || (NeedsRepairChip in chips && r.status == "Needs Repair")
  }

  /** The predicate `filteredRows` passes to `rows.filter`. */
  predicate RowShown(r: VehicleRow, key: string, chips: set<string>) {
    if chips == {} then NameMatches(r, key) else NameMatches(r, key) && ChipMatches(r, chips)
  }

  function FilterRows(rows: seq<VehicleRow>, key: string, chips: set<string>): (r: seq<VehicleRow>)
    ensures IsSubsequence(r, rows)
    ensures forall x :: x in r <==> x in rows && NameMatches(x, key) && (chips == {} || ChipMatches(x, chips))
    ensures forall x :: multiset(r)[x] == if RowShown(x, key, chips) then multiset(rows)[x] else 0
  {
    FilterCounts(x => RowShown(x, key, chips), rows);
    Filter(x => RowShown(x, key, chips), rows)
  }

  /** `filteredRows`: the rows in their order, kept when the name matches
      and, if any chip is selected, one of the chips matches. */
  function FilteredRows(rows: seq<VehicleRow>, nameQuery: string, chips: set<string>): (r: seq<VehicleRow>)
    ensures IsSubsequence(r, rows)
    ensures forall x :: x in r <==>
              x in rows && NameMatches(x, QueryKey(nameQuery)) && (chips == {} || ChipMatches(x, chips))
    ensures forall x :: multiset(r)[x] ==
              if RowShown(x, QueryKey(nameQuery), chips) then multiset(rows)[x] else 0
  {
    FilterRows(rows, QueryKey(nameQuery), chips)
  }

  /** A blank query with no chip selected shows every row. */
  lemma BlankQueryShowsAll(rows: seq<VehicleRow>, nameQuery: string)
    requires AllSpace(nameQuery)
    ensures FilteredRows(rows, nameQuery, {}) == rows
  {
    assert Trim(nameQuery) == [];
  }

  /** A character keeps or loses its white-space status under lower-casing. */
  lemma LowerCharSpace(c: char)
    ensures IsJsSpace(LowerChar(c)) <==> IsJsSpace(c)
  {
  }

  lemma {:induction false} LeadingSpacesLower(s: string)
    ensures LeadingSpaces(Lower(s)) == LeadingSpaces(s)
  {
    if s != [] {
      LowerCharSpace(s[0]);
      assert Lower(s)[1..] == Lower(s[1..]);
      LeadingSpacesLower(s[1..]);
    }
  }

  lemma {:induction false} TrailingSpacesLower(s: string)
    ensures TrailingSpaces(Lower(s)) == TrailingSpaces(s)
  {
    if s != [] {
      LowerCharSpace(s[|s| - 1]);
      assert Lower(s)[..|s| - 1] == Lower(s[..|s| - 1]);
      TrailingSpacesLower(s[..|s| - 1]);
    }
  }

  /** Trimming and lower-casing commute. */
  lemma LowerTrimCommute(s: string)
    ensures Lower(Trim(s)) == Trim(Lower(s))
  {
    var ls := Lower(s);
    LeadingSpacesLower(s);
    var lead := LeadingSpaces(s);
    var t := s[lead..];
    LowerSlice(s, lead, |s|);
    assert s[lead..|s|] == t && ls[lead..|s|] == ls[lead..];
    TrailingSpacesLower(t);
    var r, lr := Trim(s), Trim(ls);
    assert |r| == |t| - TrailingSpaces(t) == |lr|;
    forall i | 0 <= i < |r| ensures Lower(r)[i] == lr[i] {
      assert r[i] == s[lead + i] && lr[i] == ls[lead + i];
    }
  }

  lemma LowerSlice(s: string, i: nat, j: nat)
    requires i <= j <= |s|
    ensures Lower(s[i..j]) == Lower(s)[i..j]
  {
  }

  /** The filter ignores letter case in the query: two queries that agree
      once lower-cased show the same rows. */
  lemma QueryCaseInsensitive(rows: seq<VehicleRow>, q1: string, q2: string, chips: set<string>)
    requires Lower(q1) == Lower(q2)
    ensures FilteredRows(rows, q1, chips) == FilteredRows(rows, q2, chips)
  {
    LowerTrimCommute(q1);
    LowerTrimCommute(q2);
  }

  // ---------------------------------------------------------------------
  // Page state

  class DashboardPage {
    var rows: seq<VehicleRow>
    var selectedVehicle: Option<VehicleRow>
    var nameQuery: string
    var chips: set<string>

    constructor (initialRows: seq<VehicleRow>)
      ensures rows == initialRows && selectedVehicle == None && nameQuery == "" && chips == {}
    {
      rows := initialRows;
      selectedVehicle := None;
      nameQuery := "";
      chips := {};
    }

    /** The rows the table shows. */
    function Shown(): (r: seq<VehicleRow>)
      reads this
      ensures IsSubsequence(r, rows)
    {
      FilteredRows(rows, nameQuery, chips)
    }

    /** `toggleChip(key)`. */
    method ToggleChip(key: string)
      modifies this`chips
      ensures chips == Toggle(old(chips), key)
    {
      if key in chips {
        chips := chips - {key};
      } else {
        chips := chips + {key};
      }
    }

    /** `onDelete(row)` once the confirmation dialog has answered. */
    method OnDelete(row: VehicleRow, confirmed: bool)
      modifies this`rows, this`selectedVehicle
      ensures !confirmed ==> rows == old(rows) && selectedVehicle == old(selectedVehicle)
      ensures confirmed ==> rows == Filter((r: VehicleRow) => r.internalNumber != row.internalNumber, old(rows))
      ensures confirmed ==> forall r :: r in rows ==> r.internalNumber != row.internalNumber
      ensures confirmed ==> forall r :: r in old(rows) && r.internalNumber != row.internalNumber ==> r in rows
      ensures confirmed ==> IsSubsequence(rows, old(rows))
      ensures confirmed && old(selectedVehicle).Some? && old(selectedVehicle).value.internalNumber == row.internalNumber ==>
                selectedVehicle == None
      ensures confirmed && !(old(selectedVehicle).Some? && old(selectedVehicle).value.internalNumber == row.internalNumber) ==>
                selectedVehicle == old(selectedVehicle)
    {
      if !confirmed {
        return;
      }
      rows := Filter((r: VehicleRow) => r.internalNumber != row.internalNumber, rows);
      if selectedVehicle.Some? && selectedVehicle.value.internalNumber == row.internalNumber {
        selectedVehicle := None;
      }
    }
  }
}
