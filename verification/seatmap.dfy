/**
 * The seat map: the fixed grid of seat buttons, the "row-column" keys used
 * to look up booked seats, the selection highlight, and the seat labels.
 */
module SeatMap {
  import opened Wrappers
  import opened Text
  import opened Schema

  /** The key a seat is looked up by: `${row}-${col}`. */
  function SeatKey(row: int, column: int): (k: string)
    ensures |k| >= 3
    ensures IsDigit(k[0]) <==> row >= 0
  {
    var k := IntToString(row) + "-" + IntToString(column);
    assert k[0] == IntToString(row)[0];
    k
  }

  /**
   * A key of a seat with non-negative coordinates is the key of that seat
   * only, whatever integers the other seat has.
   */
  lemma SeatKeyIdentifiesSeat(row: nat, column: nat, row': int, column': int)
    requires SeatKey(row, column) == SeatKey(row', column')
    ensures row == row' && column == column'
  {
    assert row' >= 0;
    SplitAtFirstDash(NatToString(row), IntToString(column), NatToString(row'), IntToString(column'));
    NatToStringInjective(row, row');
    assert IsDigit(IntToString(column')[0]);
    NatToStringInjective(column, column');
  }

  /** Distinct seats of the grid never share a key. */
  lemma SeatKeyInjectiveOnGrid(a: Seat, b: Seat)
    requires OnGrid(a) && OnGrid(b) && a != b
    ensures SeatKey(a.row, a.column) != SeatKey(b.row, b.column)
  {
    if SeatKey(a.row, a.column) == SeatKey(b.row, b.column) {
      SeatKeyIdentifiesSeat(a.row, a.column, b.row, b.column);
    }
  }

  /** Looking up a seat's key in a set built from booked seats finds exactly those seats. */
  lemma KeyLookupMatchesSeats(seats: seq<Seat>, row: nat, column: nat)
    ensures SeatKey(row, column) in (set s | s in seats :: SeatKey(s.row, s.column)) <==> Seat(row, column) in seats
  {
    if SeatKey(row, column) in (set s | s in seats :: SeatKey(s.row, s.column)) {
      var s :| s in seats && SeatKey(s.row, s.column) == SeatKey(row, column);
      SeatKeyIdentifiesSeat(row, column, s.row, s.column);
    }
  }

  /** `String.fromCharCode(n)`: the UTF-16 code unit `n` modulo 2^16. */
  function FromCharCode(n: int): (unit: int)
    ensures 0 <= unit < 0x1_0000
    ensures 0 <= n < 0x1_0000 ==> unit == n
  {
    n % 0x1_0000
  }

  /** The letter the seat map draws on the button of a 0-based column index. */
  function GridLetter(colIndex: int): int {
    FromCharCode(65 + colIndex)
  }

  /** The letter shown for a 1-based booked column in the summary, confirmation and bookings pages. */
  function SeatLetter(column: int): int {
    FromCharCode(64 + column)
  }

  /** On the grid both formulas give the same letter, and it is one of A to D. */
  lemma SeatLettersAgree(column: int)
    requires 1 <= column <= COLUMNS
    ensures GridLetter(column - 1) == SeatLetter(column)
    ensures 'A' as int <= SeatLetter(column) <= 'D' as int
    ensures SeatLetter(column) == 'A' as int + column - 1
  {
  }

  /** One button of the seat map, and the (row, column) its click reports. */
  datatype SeatButton = SeatButton(row: int, column: int, letter: int, rowLabel: string, disabled: bool, selected: bool)
  {
    function SeatOf(): Seat {
      Seat(row, column)
    }
  }

  /** Whether a seat's key is among the booked keys. */
  predicate IsBooked(bookedKeys: set<string>, row: int, column: int) {
    SeatKey(row, column) in bookedKeys
  }

  /** Whether the seat is the selected one: both its row and its column match. */
  predicate IsSelected(selected: Option<Seat>, row: int, column: int)
    ensures IsSelected(selected, row, column) <==> selected == Some(Seat(row, column))
  {
    selected.Some? && selected.value.row == row && selected.value.column == column
  }

  function ButtonAt(rowIndex: nat, colIndex: nat, bookedKeys: set<string>, selected: Option<Seat>): SeatButton {
    var row := rowIndex + 1;
    var column := colIndex + 1;
    SeatButton(row, column, GridLetter(colIndex), IntToString(row),
               IsBooked(bookedKeys, row, column), IsSelected(selected, row, column))
  }

  /** The buttons of the map, row by row, left to right. */
  function RenderSeatMap(bookedKeys: set<string>, selected: Option<Seat>): (buttons: seq<SeatButton>)
    ensures |buttons| == ROWS * COLUMNS
    ensures forall i :: 0 <= i < |buttons| ==> OnGrid(buttons[i].SeatOf())
    ensures forall i, j :: 0 <= i < j < |buttons| ==> buttons[i].SeatOf() != buttons[j].SeatOf()
    ensures forall s :: OnGrid(s) ==> exists i :: 0 <= i < |buttons| && buttons[i].SeatOf() == s
    ensures forall i :: 0 <= i < |buttons| ==>
      && (buttons[i].disabled <==> SeatKey(buttons[i].row, buttons[i].column) in bookedKeys)
      && (buttons[i].selected <==> selected == Some(Seat(buttons[i].row, buttons[i].column)))
      && buttons[i].letter == SeatLetter(buttons[i].column)
  {
    var buttons := seq(ROWS * COLUMNS, i requires 0 <= i < ROWS * COLUMNS =>
      ButtonAt(i / COLUMNS, i % COLUMNS, bookedKeys, selected));
    forall s | OnGrid(s)
      ensures exists i :: 0 <= i < |buttons| && buttons[i].SeatOf() == s
    {
      var i := (s.row - 1) * COLUMNS + (s.column - 1);
      assert buttons[i].SeatOf() == s;
    }
    buttons
  }
}
