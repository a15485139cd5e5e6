/**
 * The constant label tables of the diamond domain. Each table lists the enum's values
 * in declaration order, which is the order Python's enum iteration yields them in; a
 * label's position in its table is its ordinal rank.
 */
module DiamondsEnums {
  import opened Lists

  /** DiamondColorEnum: best (D) to worst (J). */
  const ColorLabels: seq<string> := ["D", "E", "F", "G", "H", "I", "J"]

  /** DiamondClarityEnum. */
  const ClarityLabels: seq<string> := ["IF", "VVS1", "VVS2", "VS1", "VS2", "SI1", "SI2", "I1"]

  /** DiamondCutEnum. */
  const CutLabels: seq<string> := ["Fair", "Good", "Very Good", "Ideal", "Premium"]

  /** DiamondColumnsEnum: the names of the dataset's columns. */
  const ColumnLabels: seq<string> :=
    ["carat", "color", "clarity", "cut", "price", "depth", "table", "x", "y", "z"]

  /** No table repeats a label, so each label's rank is unique. */
  lemma LabelTablesDistinct()
    ensures Distinct(CutLabels) && |CutLabels| == 5
    ensures Distinct(ColorLabels) && |ColorLabels| == 7
    ensures Distinct(ClarityLabels) && |ClarityLabels| == 8
    ensures Distinct(ColumnLabels) && |ColumnLabels| == 10
  {
  }
}
