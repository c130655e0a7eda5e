/**
 * The message components both button bars are built from: Discord buttons
 * laid out in action rows of at most five, in order (Guava's
 * `Lists.partition(buttons, 5)` followed by `ActionRow.of` on each chunk).
 */
module Components {
  import opened JavaStrings

  datatype ButtonStyle = Secondary | Success

  /** A button: its style, the custom id its press reports, and its caption (a label or an emoji). */
  datatype Button = Button(style: ButtonStyle, customId: string, caption: string)

  const ROW_SIZE: nat := 5

  /** The rows, read in order, are the buttons; every row is full except possibly the last. */
  function ActionRows(buttons: seq<Button>): (rows: seq<seq<Button>>)
    ensures Flatten(rows) == buttons
    ensures forall i :: 0 <= i < |rows| ==> 1 <= |rows[i]| <= ROW_SIZE
    ensures forall i :: 0 <= i < |rows| - 1 ==> |rows[i]| == ROW_SIZE
  {
    PartitionFlatten(buttons, ROW_SIZE);
    Partition(buttons, ROW_SIZE)
  }
}
