/**
 The constructors of the authorisation record and the channel set: sort, walk once, report
 everything wrong. What they accept is exactly what the rest of the model takes for granted.
 */
module Documents {
  import opened Ordering
  import opened Parts

  // ---------------------------------------------------------------- authorisation

  lemma RowsAreTotal(a: Signer, b: Signer)
    ensures a == b <==> !SignerBefore(a, b) && !SignerBefore(b, a)
    ensures !(SignerBefore(a, b) && SignerBefore(b, a))
  {
    hide Before;
    BeforeIsTotal(a.person, b.person);
  }

  lemma RowsAreTransitive(a: Signer, b: Signer, c: Signer)
    requires SignerBefore(a, b) && SignerBefore(b, c)
    ensures SignerBefore(a, c)
  {
    hide Before;
    if Before(a.person, b.person) && Before(b.person, c.person) { BeforeIsTransitive(a.person, b.person, c.person); }
  }

  function InsertRow(rows: seq<Signer>, row: Signer): (r: seq<Signer>)
    ensures |r| == |rows| + 1
  {
    if rows == [] || !SignerBefore(row, rows[|rows| - 1]) then rows + [row]
    else InsertRow(rows[..|rows| - 1], row) + [rows[|rows| - 1]]
  }

  /** `sort`, by person and then family. */
  function SortRows(rows: seq<Signer>): (r: seq<Signer>)
    ensures |r| == |rows|
  {
    if rows == [] then [] else InsertRow(SortRows(rows[..|rows| - 1]), rows[|rows| - 1])
  }

  predicate InOrder(rows: seq<Signer>, i: nat)
    requires 0 < i < |rows|
  {
    !SignerBefore(rows[i], rows[i - 1])
  }

  predicate RowsInOrder(rows: seq<Signer>) { forall i :: 0 < i < |rows| ==> InOrder(rows, i) }

  lemma {:induction false} InsertRowPermutes(rows: seq<Signer>, row: Signer)
    ensures multiset(InsertRow(rows, row)) == multiset(rows) + multiset{row}
  {
    hide SignerBefore;
    if rows == [] {
    } else if SignerBefore(row, rows[|rows| - 1]) {
      InsertRowPermutes(rows[..|rows| - 1], row);
      WithoutLast(rows);
    }
  }

  lemma InitInOrder(rows: seq<Signer>)
    requires RowsInOrder(rows) && rows != []
    ensures RowsInOrder(rows[..|rows| - 1])
  {
    hide SignerBefore;
    var n := |rows| - 1;
    forall i | 0 < i < n ensures InOrder(rows[..n], i) { assert InOrder(rows, i); }
  }

  lemma SnocInOrder(rows: seq<Signer>, row: Signer)
    requires RowsInOrder(rows) && (rows == [] || !SignerBefore(row, rows[|rows| - 1]))
    ensures RowsInOrder(rows + [row])
  {
    hide SignerBefore;
    forall i | 0 < i < |rows| + 1 ensures InOrder(rows + [row], i) {
      if i < |rows| { assert InOrder(rows, i); }
    }
  }

  lemma {:induction false} InsertRowKeeps(rows: seq<Signer>, row: Signer)
    requires RowsInOrder(rows)
    ensures RowsInOrder(InsertRow(rows, row))
    ensures InsertRow(rows, row)[|rows|] == row || (rows != [] && InsertRow(rows, row)[|rows|] == rows[|rows| - 1])
  {
    hide SignerBefore, RowsInOrder;
    var n := |rows| - 1;
    if rows != [] && SignerBefore(row, rows[n]) {
      InitInOrder(rows);
      InsertRowKeeps(rows[..n], row);
      RowsAreTotal(row, rows[n]);
      LastTwoInOrder(rows);
      SnocInOrder(InsertRow(rows[..n], row), rows[n]);
    } else {
      SnocInOrder(rows, row);
    }
  }

  lemma LastTwoInOrder(rows: seq<Signer>)
    requires RowsInOrder(rows)
    ensures |rows| > 1 ==> !SignerBefore(rows[|rows| - 1], rows[|rows| - 2])
  {
    hide SignerBefore;
    if |rows| > 1 { assert InOrder(rows, |rows| - 1); }
  }

  lemma {:induction false} SortRowsSorts(rows: seq<Signer>)
    ensures RowsInOrder(SortRows(rows)) && multiset(SortRows(rows)) == multiset(rows)
  {
    hide RowsInOrder, InsertRow;
    if rows == [] {
      NothingOutOfOrder();
    } else {
      var n := |rows| - 1;
      SortRowsSorts(rows[..n]);
      InsertRowKeeps(SortRows(rows[..n]), rows[n]);
      InsertRowPermutes(SortRows(rows[..n]), rows[n]);
      assert rows == rows[..n] + [rows[n]];
    }
  }

  lemma NothingOutOfOrder()
    ensures RowsInOrder([])
  {
  }

  /** The rows equal to the one just before them. */
  function RepeatedRows(rows: seq<Signer>): set<Signer> {
    if rows == [] then {} else
      var n := |rows| - 1;
      RepeatedRows(rows[..n]) + if n > 0 && rows[n - 1] == rows[n] then {rows[n]} else {}
  }

  lemma RepeatedRowsStep(rows: seq<Signer>, n: nat)
    requires n < |rows|
    ensures RepeatedRows(rows[..n + 1]) == RepeatedRows(rows[..n]) + if n > 0 && rows[n - 1] == rows[n] then {rows[n]}
      else {}
  {
    assert rows[..n + 1][..n] == rows[..n];
  }

  predicate RowDiffers(rows: seq<Signer>, i: nat)
    requires 0 < i < |rows|
  {
    rows[i - 1] != rows[i]
  }

  lemma {:induction false} RepeatsAreAdjacent(rows: seq<Signer>)
    ensures RepeatedRows(rows) == {} <==> forall i :: 0 < i < |rows| ==> RowDiffers(rows, i)
  {
    if rows == [] {
    } else {
      var n := |rows| - 1;
      RepeatsAreAdjacent(rows[..n]);
      assert forall i :: 0 < i < n ==> RowDiffers(rows[..n], i) == RowDiffers(rows, i);
      if n > 0 { assert RowDiffers(rows, n) <==> rows[n - 1] != rows[n]; }
    }
  }

  lemma {:induction false} RowsChain(rows: seq<Signer>, i: nat, j: nat)
    requires i < j < |rows| && RowsInOrder(rows) && forall k :: 0 < k < |rows| ==> RowDiffers(rows, k)
    ensures SignerBefore(rows[i], rows[j])
  {
    hide SignerBefore;
    assert InOrder(rows, j) && RowDiffers(rows, j);
    RowsAreTotal(rows[j - 1], rows[j]);
    if i + 1 < j {
      RowsChain(rows, i, j - 1);
      RowsAreTransitive(rows[i], rows[j - 1], rows[j]);
    }
  }

  /** Sorted rows are strictly ordered exactly when none is repeated. */
  lemma OrderedRowsRepeat(rows: seq<Signer>)
    requires RowsInOrder(rows)
    ensures RepeatedRows(rows) == {} <==> StrictBy(SignerBefore, rows)
  {
    hide SignerBefore, RepeatedRows;
    RepeatsAreAdjacent(rows);
    if RepeatedRows(rows) == {} {
      forall i, j | 0 <= i < j < |rows|
        ensures rows[i] != rows[j] && SignerBefore(rows[i], rows[j]) && !SignerBefore(rows[j], rows[i])
      {
        RowsChain(rows, i, j);
        RowsAreTotal(rows[i], rows[j]);
      }
    }
    if StrictBy(SignerBefore, rows) {
      forall i | 0 < i < |rows| ensures RowDiffers(rows, i) { assert rows[i - 1] != rows[i]; }
    }
  }

  /** Everything wrong with listed rows. */
  datatype RowReport = RowReport(duplicates: set<Signer>, noCompanySigner: bool)

  const ROWS_CLEAN := RowReport({}, false)

  function RowsReport(sorted: seq<Signer>): RowReport {
    RowReport(RepeatedRows(sorted), !HasCompanySigner(sorted))
  }

  /** `AuthorisationV1::new` as a result. */
  function AuthorisationOf(rows: seq<Signer>): Result<seq<Signer>, RowReport> {
    var sorted := SortRows(rows);
    if RowsReport(sorted) == ROWS_CLEAN then Ok(sorted) else Err(RowsReport(sorted))
  }

  /** `AuthorisationV1::new`: sort, one walk with the previous row, and a search for a company signer. */
  method NewAuthorisation(rows: seq<Signer>) returns (r: Result<seq<Signer>, RowReport>)
    ensures r == AuthorisationOf(rows)
  {
    hide SortRows;
    var sorted := SortRows(rows);
    var duplicates: set<Signer> := {};
    var previous: Option<Signer> := None;
    for i := 0 to |sorted|
      invariant previous == if i == 0 then None else Some(sorted[i - 1])
      invariant duplicates == RepeatedRows(sorted[..i])
    {
      RepeatedRowsStep(sorted, i);
      if previous == Some(sorted[i]) { duplicates := duplicates + {sorted[i]}; }
      previous := Some(sorted[i]);
    }
    assert sorted[..|sorted|] == sorted;
    var company := false;
    for i := 0 to |sorted|
      invariant company <==> exists k :: 0 <= k < i && sorted[k].family == CompanyFamily
    {
      if sorted[i].family == CompanyFamily { company := true; }
    }
    var report := RowReport(duplicates, !company);
    r := if report == ROWS_CLEAN then Ok(sorted) else Err(report);
  }

  /** Accepted exactly when, once sorted, the rows are an authorisation: no row twice, and a company signer. */
  lemma AcceptedAuthorisationIsValid(rows: seq<Signer>)
    ensures AuthorisationOf(rows).Ok? <==> StrictBy(SignerBefore, SortRows(rows)) && HasCompanySigner(rows)
    ensures AuthorisationOf(rows).Ok? ==> multiset(AuthorisationOf(rows).value) == multiset(rows)
  {
    hide SignerBefore, RepeatedRows, SortRows, RowsInOrder;
    var sorted := SortRows(rows);
    SortRowsSorts(rows);
    OrderedRowsRepeat(sorted);
    CompanySignerListed(sorted, rows);
    CompanySignerListed(rows, sorted);
  }

  lemma CompanySignerListed(a: seq<Signer>, b: seq<Signer>)
    requires multiset(a) == multiset(b)
    ensures HasCompanySigner(a) ==> HasCompanySigner(b)
  {
    if HasCompanySigner(a) {
      var i :| 0 <= i < |a| && a[i].family == CompanyFamily;
      assert a[i] in multiset(b);
      var j :| 0 <= j < |b| && b[j] == a[i];
    }
  }

  // ---------------------------------------------------------------- the channel set

  const MAX_CHANNELS: nat := 1_000

  /** Everything wrong with listed channels. */
  datatype ChannelReport = ChannelReport(tooMany: bool, none: bool, duplicates: set<Id>)

  /** `DecisionChannelsV1::new` as a result. */
  function ChannelsOf(channels: seq<Channel>): Result<seq<Channel>, ChannelReport> {
    var sorted := SortBy(ChannelId, channels);
    var report := ChannelReport(false, channels == [], Repeated(ChannelIds(sorted)));
    if |channels| > MAX_CHANNELS then Err(ChannelReport(true, false, {}))
    else if report == ChannelReport(false, false, {}) then Ok(sorted)
    else Err(report)
  }

  /** `DecisionChannelsV1::new`: sort by id and one walk with the previous id. */
  method NewChannels(channels: seq<Channel>) returns (r: Result<seq<Channel>, ChannelReport>)
    ensures r == ChannelsOf(channels)
  {
    hide SortBy, Repeated;
    if |channels| > MAX_CHANNELS { return Err(ChannelReport(true, false, {})); }
    var none := channels == [];
    var sorted := SortBy(ChannelId, channels);
    var ids := ChannelIds(sorted);
    var duplicates: set<Id> := {};
    var previous: Option<Id> := None;
    NothingListed();
    for i := 0 to |sorted|
      invariant previous == if i == 0 then None else Some(ids[i - 1])
      invariant duplicates == Repeated(ids[..i])
    {
      RepeatedStep(ids, i);
      if previous == Some(sorted[i].id) { duplicates := duplicates + {sorted[i].id}; }
      previous := Some(sorted[i].id);
    }
    assert ids[..|ids|] == ids;
    var report := ChannelReport(false, none, duplicates);
    r := if report == ChannelReport(false, false, {}) then Ok(sorted) else Err(report);
  }

  /** Accepted exactly when there are channels, not too many, and no id twice. */
  lemma AcceptedChannelsAreValid(channels: seq<Channel>)
    ensures ChannelsOf(channels).Ok? <==>
      channels != [] && |channels| <= MAX_CHANNELS && Strict(ChannelIds(SortBy(ChannelId, channels)))
    ensures ChannelsOf(channels).Ok? ==> multiset(ChannelsOf(channels).value) == multiset(channels)
  {
    hide Repeated, SortBy;
    SortSorts(ChannelId, channels);
    NothingRepeated(ChannelIds(SortBy(ChannelId, channels)));
  }
}
