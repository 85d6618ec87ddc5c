/** The reports page (components/HistoryLog.tsx): the date and type filter over
    the transactions, the revenue and average-duration figures, and the CSV
    text the export builds. Local-time day bucketing and the ISO and number
    formatting of the browser are parameters. */
module HistoryLog {
  import opened Wrappers
  import opened Types
  import Seqs
  import Fees
  import Text
  import Store

  // ---------------------------------------------------------------------------
  // The filter
  // ---------------------------------------------------------------------------

  /** The type selector: 'All' or one vehicle type. */
  datatype TypeChoice = AllTypes | JustType(vehicleType: VehicleType)

  /** A date bound is the midnight timestamp of the chosen day, or None when the
      field is empty; like the source's truthiness test, a bound of 0 is unset. */
  predicate IsSet(bound: Option<int>)
  {
    bound.Some? && bound.value != 0
  }

  /** The three conditions of the filter for one transaction; `day` maps a
      timestamp to the midnight of its local day. */
  predicate Keeps(day: int -> int, start: Option<int>, end: Option<int>, choice: TypeChoice, t: Transaction)
  {
    && (IsSet(start) ==> day(t.entryTime) >= start.value)
    && (IsSet(end) ==> day(t.entryTime) <= end.value)
    && (choice.JustType? ==> t.vehicleType == choice.vehicleType)
  }

  function KeepsBy(day: int -> int, start: Option<int>, end: Option<int>, choice: TypeChoice): Transaction -> bool
  {
    (t: Transaction) => Keeps(day, start, end, choice, t)
  }

  /** `filteredTransactions`. */
  function FilterTransactions(ts: seq<Transaction>, day: int -> int, start: Option<int>, end: Option<int>,
                              choice: TypeChoice): seq<Transaction>
  {
    Seqs.Filter(ts, KeepsBy(day, start, end, choice))
  }

  /** The filter keeps exactly the transactions meeting all three conditions,
      and keeps them in their original order. */
  lemma FilterMeaning(a: seq<Transaction>, b: seq<Transaction>, day: int -> int, start: Option<int>,
                      end: Option<int>, choice: TypeChoice)
    ensures var r := FilterTransactions(a, day, start, end, choice);
      && (forall i :: 0 <= i < |r| ==> r[i] in a && Keeps(day, start, end, choice, r[i]))
      && (forall i :: 0 <= i < |a| && Keeps(day, start, end, choice, a[i]) ==> a[i] in r)
    ensures FilterTransactions(a + b, day, start, end, choice)
         == FilterTransactions(a, day, start, end, choice) + FilterTransactions(b, day, start, end, choice)
  {
    Seqs.FilterMembers(a, KeepsBy(day, start, end, choice));
    Seqs.FilterConcat(a, b, KeepsBy(day, start, end, choice));
  }

  /** Unset date bounds and 'All' keep every transaction. */
  lemma UnsetFilterKeepsAll(ts: seq<Transaction>, day: int -> int, start: Option<int>, end: Option<int>)
    requires !IsSet(start) && !IsSet(end)
    ensures FilterTransactions(ts, day, start, end, AllTypes) == ts
  {
    Seqs.FilterAll(ts, KeepsBy(day, start, end, AllTypes));
  }

  // ---------------------------------------------------------------------------
  // Figures
  // ---------------------------------------------------------------------------

  function Amount(t: Transaction): real
  {
    t.finalAmount
  }

  /** `totalRevenue`. */
  function TotalRevenue(ts: seq<Transaction>): real
  {
    Seqs.Sum(ts, Amount)
  }

  function KeptAmount(day: int -> int, start: Option<int>, end: Option<int>, choice: TypeChoice): Transaction -> real
  {
    (t: Transaction) => if Keeps(day, start, end, choice, t) then t.finalAmount else 0.0
  }

  /** The revenue of the filtered list is the revenue of all transactions with
      the filtered-out ones counted as zero; it is never negative, since every
      settled amount is clamped at zero. */
  lemma RevenueOfFilter(ts: seq<Transaction>, day: int -> int, start: Option<int>, end: Option<int>,
                        choice: TypeChoice)
    requires forall i :: 0 <= i < |ts| ==> ts[i].finalAmount >= 0.0
    ensures TotalRevenue(FilterTransactions(ts, day, start, end, choice)) == Seqs.Sum(ts, KeptAmount(day, start, end, choice))
    ensures TotalRevenue(FilterTransactions(ts, day, start, end, choice)) >= 0.0
  {
    var kept := KeepsBy(day, start, end, choice);
    Seqs.SumFilter(ts, kept, Amount, KeptAmount(day, start, end, choice));
    var r := FilterTransactions(ts, day, start, end, choice);
    Seqs.FilterMembers(ts, kept);
    forall i | 0 <= i < |r|
      ensures Amount(r[i]) >= 0.0
    {
      assert r[i] in ts;
    }
    Seqs.SumNonNegative(r, Amount);
  }

  /** The report over the ledger's own history: every filter shows a
      non-negative revenue, since the ledger only records clamped amounts. */
  lemma LedgerRevenue(ledger: Store.ParkingProvider, day: int -> int, start: Option<int>, end: Option<int>,
                      choice: TypeChoice)
    requires ledger.Valid()
    ensures TotalRevenue(FilterTransactions(ledger.transactions, day, start, end, choice)) >= 0.0
  {
    RevenueOfFilter(ledger.transactions, day, start, end, choice);
  }

  /** The sum of the billed minutes. */
  function TotalMinutes(ts: seq<Transaction>): int
  {
    if ts == [] then 0 else TotalMinutes(ts[..|ts| - 1]) + ts[|ts| - 1].durationMinutes
  }

  /** `avgDuration`: the rounded mean of the billed minutes, 0 when nothing is
      listed. */
  function AvgDuration(ts: seq<Transaction>): int
  {
    if |ts| > 0 then Fees.JsRound(TotalMinutes(ts) as real / |ts| as real) else 0
  }

  lemma {:induction false} TotalMinutesBounds(ts: seq<Transaction>, lo: int, hi: int)
    requires forall i :: 0 <= i < |ts| ==> lo <= ts[i].durationMinutes <= hi
    ensures |ts| * lo <= TotalMinutes(ts) <= |ts| * hi
  {
    if ts != [] {
      TotalMinutesBounds(ts[..|ts| - 1], lo, hi);
    }
  }

  /** The average lies between the shortest and the longest stay listed. */
  lemma AvgDurationBetween(ts: seq<Transaction>, lo: int, hi: int)
    requires |ts| > 0
    requires forall i :: 0 <= i < |ts| ==> lo <= ts[i].durationMinutes <= hi
    ensures lo <= AvgDuration(ts) <= hi
  {
    TotalMinutesBounds(ts, lo, hi);
    var n := |ts| as real;
    var mean := TotalMinutes(ts) as real / n;
    assert n * (lo as real) <= TotalMinutes(ts) as real <= n * (hi as real);
    assert lo as real <= mean <= hi as real by {
      DivBounds(TotalMinutes(ts) as real, n, lo as real, hi as real);
    }
  }

  /** Dividing by a positive count keeps bounds that hold for the multiples;
      kept apart so the solver sees one quotient at a time. */
  lemma DivBounds(x: real, n: real, lo: real, hi: real)
    requires n > 0.0 && n * lo <= x <= n * hi
    ensures lo <= x / n <= hi
  {
  }

  // ---------------------------------------------------------------------------
  // The CSV export
  // ---------------------------------------------------------------------------

  /** The browser's `toISOString` for a timestamp and JavaScript's default
      number-to-string conversion for an amount. */
  datatype Formats = Formats(iso: int -> string, number: real -> string)

  const CsvPrefix: string := "data:text/csv;charset=utf-8,"

  const Headers: seq<string> :=
    ["Transaction ID", "Plate Number", "Type", "Entry Time", "Exit Time", "Duration (mins)", "Amount"]

  /** One row's cells, in header order. */
  function Cells(t: Transaction, fmt: Formats): (r: seq<string>)
    ensures |r| == |Headers|
  {
    [t.id, t.plateNumber, t.vehicleType.Name(), fmt.iso(t.entryTime), fmt.iso(t.exitTime),
     Text.IntToString(t.durationMinutes), fmt.number(t.finalAmount)]
  }

  /** `e.join(",")`. */
  function RowLine(t: Transaction, fmt: Formats): string
  {
    Text.Join(Cells(t, fmt), ",")
  }

  /** `rows.map(e => e.join(","))`: one line per transaction, in order. */
  function RowLines(ts: seq<Transaction>, fmt: Formats): (r: seq<string>)
    ensures |r| == |ts|
    ensures forall i :: 0 <= i < |ts| ==> r[i] == RowLine(ts[i], fmt)
    ensures forall line :: line in r <==> exists t :: t in ts && line == RowLine(t, fmt)
  {
    seq(|ts|, i requires 0 <= i < |ts| => RowLine(ts[i], fmt))
  }

  /** The text after the prefix: the header line, a newline, and the rows
      joined by newlines. */
  function CsvBody(ts: seq<Transaction>, fmt: Formats): string
  {
    Text.Join(Headers, ",") + "\n" + Text.Join(RowLines(ts, fmt), "\n")
  }

  /** `csvContent`. */
  function CsvContent(ts: seq<Transaction>, fmt: Formats): (r: string)
    ensures |CsvPrefix| <= |r| && r[..|CsvPrefix|] == CsvPrefix
  {
    CsvPrefix + CsvBody(ts, fmt)
  }

  /** A separator that occurs in no part and not in the glue occurs nowhere in
      the joined text. */
  lemma {:induction false} JoinAvoids(xs: seq<string>, sep: string, c: char)
    requires forall k :: 0 <= k < |xs| ==> c !in xs[k]
    requires c !in sep
    ensures c !in Text.Join(xs, sep)
  {
    if |xs| > 1 {
      JoinAvoids(xs[1..], sep, c);
    }
  }

  /** No cell breaks the line. */
  predicate SingleLineCells(t: Transaction, fmt: Formats)
  {
    forall k :: 0 <= k < |Cells(t, fmt)| ==> '\n' !in Cells(t, fmt)[k]
  }

  /** No cell breaks the line or the column structure. */
  predicate PlainCells(t: Transaction, fmt: Formats)
  {
    forall k :: 0 <= k < |Cells(t, fmt)| ==> '\n' !in Cells(t, fmt)[k] && ',' !in Cells(t, fmt)[k]
  }

  /** Each row splits back into its seven cells when no cell holds a comma or a
      newline (the export does no quoting). */
  lemma RowColumns(t: Transaction, fmt: Formats)
    requires PlainCells(t, fmt)
    ensures Text.Split(RowLine(t, fmt), ',') == Cells(t, fmt)
    ensures |Text.Split(RowLine(t, fmt), ',')| == 7
  {
    Text.SplitJoin(Cells(t, fmt), ',');
  }

  /** The header line has the seven column names. */
  lemma HeaderColumns()
    ensures Text.Split(Text.Join(Headers, ","), ',') == Headers
  {
    Text.SplitJoin(Headers, ',');
  }

  function Lines(ts: seq<Transaction>, fmt: Formats): seq<string>
  {
    [Text.Join(Headers, ",")] + (if ts == [] then [""] else RowLines(ts, fmt))
  }

  lemma BodyIsJoin(ts: seq<Transaction>, fmt: Formats)
    ensures CsvBody(ts, fmt) == Text.Join(Lines(ts, fmt), "\n")
  {
    var lines := Lines(ts, fmt);
    assert lines[1..] == if ts == [] then [""] else RowLines(ts, fmt);
  }

  lemma HeaderPlain()
    ensures '\n' !in Text.Join(Headers, ",")
  {
    forall k | 0 <= k < |Headers|
      ensures '\n' !in Headers[k]
    {
    }
    JoinAvoids(Headers, ",", '\n');
  }

  lemma RowPlain(t: Transaction, fmt: Formats)
    requires SingleLineCells(t, fmt)
    ensures '\n' !in RowLine(t, fmt)
  {
    JoinAvoids(Cells(t, fmt), ",", '\n');
  }

  lemma LinesPlain(ts: seq<Transaction>, fmt: Formats)
    requires forall i :: 0 <= i < |ts| ==> SingleLineCells(ts[i], fmt)
    ensures forall k :: 0 <= k < |Lines(ts, fmt)| ==> '\n' !in Lines(ts, fmt)[k]
  {
    HeaderPlain();
    if ts != [] {
      var rows := RowLines(ts, fmt);
      forall k | 0 <= k < |rows|
        ensures '\n' !in rows[k]
      {
        RowPlain(ts[k], fmt);
      }
      assert Lines(ts, fmt) == [Text.Join(Headers, ",")] + rows;
    }
  }

  /** The body's lines are the header line and then one line per transaction,
      in order (an empty report ends with an empty line); commas inside cells
      do not matter here. */
  lemma CsvLines(ts: seq<Transaction>, fmt: Formats)
    requires forall i :: 0 <= i < |ts| ==> SingleLineCells(ts[i], fmt)
    ensures Text.Split(CsvBody(ts, fmt), '\n')
         == [Text.Join(Headers, ",")] + (if ts == [] then [""] else RowLines(ts, fmt))
  {
    BodyIsJoin(ts, fmt);
    LinesPlain(ts, fmt);
    Text.SplitJoin(Lines(ts, fmt), '\n');
  }
}
