/** The rows of `ConsoleTable` (table_interface.py): `insert` truncates
    the transcription for display and appends one row. The rendering, the
    date formatting and the clock are not modelled: the formatted date is a
    parameter. */
module TableInterface {

  /** `t[:m]`, with Python's meaning for a negative `m` (count from the
      end, and an empty result once that passes the start). */
  function PrefixSlice(t: string, m: int): (r: string)
    ensures |r| == (if m >= 0 then (if m < |t| then m else |t|) else (if |t| + m > 0 then |t| + m else 0))
    ensures r == t[..|r|]
  {
    if m >= 0 then (if m < |t| then t[..m] else t)
    else if |t| + m > 0 then t[..|t| + m]
    else []
  }

  const ELLIPSIS: string := "..."

  /** The text `insert` shows for a transcription, given
      `max_display_text_length`: with a non-negative limit it never exceeds
      the limit by more than the ellipsis. */
  function DisplayText(transcription: string, maxLength: int): (d: string)
    ensures maxLength >= 0 ==> |d| <= maxLength + 3
  {
    if |transcription| > maxLength then PrefixSlice(transcription, maxLength) + ELLIPSIS
    else transcription
  }

  /** A transcription within the limit is shown as it is. */
  lemma ShortTextUnchanged(transcription: string, maxLength: int)
    requires |transcription| <= maxLength
    ensures DisplayText(transcription, maxLength) == transcription
  {
  }

  /** A transcription over a non-negative limit is shown as its first
      `maxLength` characters and an ellipsis: exactly `maxLength + 3`
      characters. */
  lemma LongTextTruncated(transcription: string, maxLength: nat)
    requires |transcription| > maxLength
    ensures var d := DisplayText(transcription, maxLength);
      && |d| == maxLength + 3
      && d[..maxLength] == transcription[..maxLength]
      && d[maxLength..] == "..."
  {
  }

  /** Whatever the limit, the shown text is the transcription itself or a
      prefix of it followed by the ellipsis. */
  lemma DisplayIsPrefix(transcription: string, maxLength: int)
    ensures var d := DisplayText(transcription, maxLength);
      || d == transcription
      || (|d| >= 3 && d[|d| - 3..] == "..." && d[..|d| - 3] == transcription[..|d| - 3])
  {
    var d := DisplayText(transcription, maxLength);
    if d != transcription {
      var p := PrefixSlice(transcription, maxLength);
      assert d == p + "...";
      assert d[..|d| - 3] == p;
    }
  }

  /** One line of the table: the formatted date, the shown text and the
      cost of the request. */
  datatype Row = Row(date: string, text: string, cost: real)

  /** The running total of the rows' costs. */
  function TotalCost(rows: seq<Row>): real
    decreases |rows|
  {
    if rows == [] then 0.0 else TotalCost(rows[..|rows| - 1]) + rows[|rows| - 1].cost
  }

  class ConsoleTable {
    /** `config.max_display_text_length`. */
    const maxDisplayTextLength: int
    var rows: seq<Row>
    /** `total_cost`, summed exactly. */
    var totalCost: real

    /** The footer total is the sum of the rows' costs, and with a
        non-negative limit no shown text exceeds it by more than the
        ellipsis. */
    ghost predicate Valid()
      reads this
    {
      && totalCost == TotalCost(rows)
      && (maxDisplayTextLength >= 0 ==>
            forall i :: 0 <= i < |rows| ==> |rows[i].text| <= maxDisplayTextLength + 3)
    }

    constructor (maxDisplayTextLength: int)
      ensures Valid()
      ensures this.maxDisplayTextLength == maxDisplayTextLength
      ensures rows == [] && totalCost == 0.0
    {
      this.maxDisplayTextLength := maxDisplayTextLength;
      rows := [];
      totalCost := 0.0;
    }

    /** `insert`: appends one row, the earlier rows unchanged, and adds the
        cost to the total. */
    method Insert(transcription: string, cost: real, date: string)
      requires Valid()
      modifies this
      ensures Valid()
      ensures rows == old(rows) + [Row(date, DisplayText(transcription, maxDisplayTextLength), cost)]
      ensures totalCost == old(totalCost) + cost
    {
      var displayText: string;
      if |transcription| > maxDisplayTextLength {
        displayText := PrefixSlice(transcription, maxDisplayTextLength) + ELLIPSIS;
      } else {
        displayText := transcription;
      }
      var row := Row(date, displayText, cost);
      assert (rows + [row])[..|rows|] == rows;
      assert TotalCost(rows + [row]) == TotalCost(rows) + cost;
      rows := rows + [row];
      totalCost := totalCost + cost;
    }
  }
}
