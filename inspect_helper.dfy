/** InspectHelper: the two rows of a node's diagram. The node's label (its
    `to_s`) and the text of its data are given as strings. */
module InspectHelper {
  import opened Outcomes

  const ARROWLESS_LENGTH := 30
  const ONE_ARROW_LENGTH := 33
  const TWO_ARROW_LENGTH := 36
  /** Pipes and padding length. */
  const P_AND_P_LENGTH := 4
  const MAX_BODY_LENGTH := 26
  const MIN_LOWER_LENGTH := 9
  const ARROW_PADDING := "   "

  const BACK_ARROW := "<--"
  const FRONT_ARROW := "-->"
  const PIPE := "|"

  /** The label that precedes the data text in the lower row. */
  const DATA_LABEL := "data: "

  /** The two rows of a diagram (the `:upper` and `:lower` entries). */
  datatype Rows = Rows(upper: string, lower: string)

  /** n blanks: the closed form of what Spaces yields for a count n >= 0. */
  function Blank(n: nat): (r: string)
  {
    seq(n, _ => ' ')
  }

  /** Ruby's `' ' * count` (String#*): raises ArgumentError for a negative
      count, and otherwise yields count blanks, that is Blank(count). */
  function Spaces(count: int): (r: Result<string>)
    ensures r.Err? <==> count < 0
    ensures r.Err? ==> r.error == ArgumentError
    ensures r.Ok? ==> r.value == Blank(count)
    decreases if count < 0 then 0 else count
  {
    if count < 0 then Err(ArgumentError)
    else if count == 0 then Ok("")
    else Ok(" " + Spaces(count - 1).value)
  }

  /** text sits in the middle of body: floor((width - |text|) / 2) blanks on
      the left, as many on the right plus one more when width - |text| is
      odd. */
  predicate CentredIn(body: string, text: string, width: nat)
  {
    && |text| <= width
    && var left := (width - |text|) / 2;
       var right := left + (width - |text|) % 2;
       body == Blank(left) + text + Blank(right)
  }

  /** upper_row: the label between pipes, one blank on each side. */
  function UpperRow(title: string): (r: string)
    ensures |r| == |title| + P_AND_P_LENGTH
    ensures r[..2] == PIPE + " " && r[|r| - 2..] == " " + PIPE
    ensures r[2..|r| - 2] == title
  {
    PIPE + " " + title + " " + PIPE
  }

  /** The data text fits the body: the row can be built. */
  predicate Fits(text: string)
  {
    |DATA_LABEL + text| <= MAX_BODY_LENGTH
  }

  /** lower_row: "data: " + text centred in a 26-character body between
      pipes. A text too long for the body makes the padding negative and
      `' ' * padding` raise ArgumentError. Ruby's integer division floors;
      for the positive divisor 2 Dafny's division agrees with it. */
  function LowerRow(text: string): (r: Result<string>)
    ensures r.Ok? <==> Fits(text)
    ensures r.Err? ==> r.error == ArgumentError
    ensures r.Ok? ==> |r.value| == ARROWLESS_LENGTH
    ensures r.Ok? ==> && r.value[..2] == PIPE + " "
                      && r.value[ARROWLESS_LENGTH - 2..] == " " + PIPE
                      && CentredIn(r.value[2..ARROWLESS_LENGTH - 2], DATA_LABEL + text, MAX_BODY_LENGTH)
  {
    var lowerText := DATA_LABEL + text;
    var padding := (MAX_BODY_LENGTH - |lowerText|) / 2;
    match Spaces(padding)
    case Err(e) => Err(e)
    case Ok(pSpace) =>
      var body := pSpace + lowerText + pSpace;
      var lBody := if P_AND_P_LENGTH + |body| < ARROWLESS_LENGTH then body + " " else body;
      var row := PIPE + " " + lBody + " " + PIPE;
      assert CentredIn(lBody, lowerText, MAX_BODY_LENGTH) by {
        PaddedBodyCentred(lowerText, padding);
      }
      assert && |row| == ARROWLESS_LENGTH && row[..2] == PIPE + " "
             && row[2..ARROWLESS_LENGTH - 2] == lBody && row[ARROWLESS_LENGTH - 2..] == " " + PIPE by {
        assert |lBody| == MAX_BODY_LENGTH;
      }
      Ok(row)
  }

  /** The padding step of lower_row: the text between two runs of
      floor((26 - n) / 2) blanks, plus one blank when the row would fall
      short of 30, is the text centred in 26 characters. */
  lemma PaddedBodyCentred(lowerText: string, padding: nat)
    requires |lowerText| <= MAX_BODY_LENGTH
    requires padding == (MAX_BODY_LENGTH - |lowerText|) / 2
    ensures var body := Blank(padding) + lowerText + Blank(padding);
      CentredIn(if P_AND_P_LENGTH + |body| < ARROWLESS_LENGTH then body + " " else body,
                lowerText, MAX_BODY_LENGTH)
  {
  }

  /** only_data_insp: no arrows. */
  function OnlyDataInsp(title: string, text: string): (r: Result<Rows>)
    ensures r.Ok? <==> Fits(text)
    ensures r.Ok? ==> && r.value.upper == UpperRow(title)
                      && r.value.lower == LowerRow(text).value
  {
    match LowerRow(text)
    case Err(e) => Err(e)
    case Ok(lower) => Ok(Rows(UpperRow(title), lower))
  }

  /** nil_back_insp: a front arrow after the upper row, blanks after the
      lower row. */
  function NilBackInsp(title: string, text: string): (r: Result<Rows>)
    ensures r.Ok? <==> Fits(text)
    ensures r.Ok? ==> && r.value.upper == UpperRow(title) + FRONT_ARROW
                      && r.value.lower == LowerRow(text).value + ARROW_PADDING
                      && |r.value.lower| == ONE_ARROW_LENGTH
  {
    match LowerRow(text)
    case Err(e) => Err(e)
    case Ok(lower) => Ok(Rows(UpperRow(title) + FRONT_ARROW, lower + ARROW_PADDING))
  }

  /** nil_front_insp: blanks before the upper row, a back arrow before the
      lower row. */
  function NilFrontInsp(title: string, text: string): (r: Result<Rows>)
    ensures r.Ok? <==> Fits(text)
    ensures r.Ok? ==> && r.value.upper == ARROW_PADDING + UpperRow(title)
                      && r.value.lower == BACK_ARROW + LowerRow(text).value
                      && |r.value.lower| == ONE_ARROW_LENGTH
  {
    match LowerRow(text)
    case Err(e) => Err(e)
    case Ok(lower) => Ok(Rows(ARROW_PADDING + UpperRow(title), BACK_ARROW + lower))
  }

  /** doubly_linked_insp: arrows or blanks on both ends of both rows. */
  function DoublyLinkedInsp(title: string, text: string): (r: Result<Rows>)
    ensures r.Ok? <==> Fits(text)
    ensures r.Ok? ==> && r.value.upper == ARROW_PADDING + UpperRow(title) + FRONT_ARROW
                      && r.value.lower == BACK_ARROW + LowerRow(text).value + ARROW_PADDING
                      && |r.value.lower| == TWO_ARROW_LENGTH
  {
    match LowerRow(text)
    case Err(e) => Err(e)
    case Ok(lower) => Ok(Rows(ARROW_PADDING + UpperRow(title) + FRONT_ARROW, BACK_ARROW + lower + ARROW_PADDING))
  }

  /** Both rows draw their box from column col: the opening pipes share that
      column, each closing pipe ends its row's box, and the rows' widths
      differ by exactly the label's excess over the body width. */
  predicate Aligned(rows: Rows, title: string, col: nat)
  {
    && col + |title| + 3 < |rows.upper| && col + ARROWLESS_LENGTH - 1 < |rows.lower|
    && rows.upper[col] == '|' && rows.lower[col] == '|'
    && rows.upper[col + |title| + 3] == '|' && rows.lower[col + ARROWLESS_LENGTH - 1] == '|'
    && |rows.upper| - |rows.lower| == |title| - MAX_BODY_LENGTH
  }

  /** In every layout the arrows and their padding blocks keep the two rows
      aligned: the boxes start in column 0 without a back arrow and in
      column 3 with one. */
  lemma LayoutsAlign(title: string, text: string)
    requires Fits(text)
    ensures Aligned(OnlyDataInsp(title, text).value, title, 0)
    ensures Aligned(NilBackInsp(title, text).value, title, 0)
    ensures Aligned(NilFrontInsp(title, text).value, title, 3)
    ensures Aligned(DoublyLinkedInsp(title, text).value, title, 3)
  {
  }

  /** The lower row for the data text "test_symbol", as drawn for a node
      holding the Symbol :test_symbol: five blanks before the 17-character
      text and six after it, between pipes. */
  lemma LowerRowGolden()
    ensures LowerRow("test_symbol") == Ok(PIPE + Blank(5) + "data: test_symbol" + Blank(6) + PIPE)
  {
    var lowerText := DATA_LABEL + "test_symbol";
    assert lowerText == "data: test_symbol";
    assert (MAX_BODY_LENGTH - |lowerText|) / 2 == 4 && (MAX_BODY_LENGTH - |lowerText|) % 2 == 1;
    var r := LowerRow("test_symbol").value;
    assert r[2..28] == Blank(4) + lowerText + Blank(5);
    assert " " + Blank(4) == Blank(5) && Blank(5) + " " == Blank(6);
    calc {
      r;
      r[..2] + r[2..28] + r[28..];
      "| " + (Blank(4) + lowerText + Blank(5)) + " |";
      PIPE + (" " + Blank(4)) + lowerText + (Blank(5) + " ") + PIPE;
      PIPE + Blank(5) + lowerText + Blank(6) + PIPE;
    }
  }
}
