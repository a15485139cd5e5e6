/**
 * The ordinal categorical encoder: `pd.Categorical(df[column], categories=list, ordered=True)`.
 * Each value becomes its label's position in the list; a value that is not a label of
 * the list becomes the missing code -1 instead of raising.
 */
module DatasetService {
  import opened Wrappers
  import opened Exceptions
  import opened Lists
  import opened Frames

  /**
   * The code of one cell. A string is looked up by equality; a number never equals a
   * string label; a cell that is already categorical is re-coded by its label.
   */
  function OrdinalCode(categories: seq<string>, c: Cell): (code: int)
    ensures -1 <= code < |categories|
    ensures c.Text? ==> (code == -1 <==> c.s !in categories)
    ensures c.Text? && code >= 0 ==> categories[code] == c.s
    ensures c.IntCell? || c.Num? ==> code == -1
  {
    match c
    case Text(s) => IndexOf(categories, s)
    case Cat(k, prior) => if 0 <= k < |prior| then IndexOf(categories, prior[k]) else -1
    case _ => -1
  }

  function EncodeCell(categories: seq<string>, c: Cell): Cell {
    Cat(OrdinalCode(categories, c), categories)
  }

  /** The whole column, cell by cell. */
  function Encode(categories: seq<string>, cells: seq<Cell>): (r: seq<Cell>)
    ensures |r| == |cells|
  {
    seq(|cells|, i requires 0 <= i < |cells| => EncodeCell(categories, cells[i]))
  }

  lemma EncodeSingle(categories: seq<string>, c: Cell)
    ensures Encode(categories, [c]) == [EncodeCell(categories, c)]
  {
  }

  /**
   * `convert_column_into_ordinal_categorical_data_type`: reads `df[columnName]` (KeyError
   * when absent), then builds the categorical (pandas refuses a category list with a
   * repeated label). The frame itself is only read.
   */
  function ConvertColumnIntoOrdinalCategoricalDataType(
    df: Table, columnName: string, categoriesList: seq<string>): (r: Result<seq<Cell>, Error>)
    ensures r.Failure? <==> columnName !in Names(df) || !Distinct(categoriesList)
    ensures columnName !in Names(df) ==> r == Failure(KeyError(columnName))
    ensures r.Success? ==>
      var column := Lookup(df, columnName).value;
      && |r.value| == |column|
      && forall i :: 0 <= i < |column| ==>
           && r.value[i].Cat?
           && r.value[i].categories == categoriesList
           && -1 <= r.value[i].code < |categoriesList|
           && (column[i].Text? ==> (r.value[i].code == -1 <==> column[i].s !in categoriesList))
           && (column[i].Text? && 0 <= r.value[i].code ==>
                 categoriesList[r.value[i].code] == column[i].s)
  {
    match Lookup(df, columnName)
    case Failure(e) => Failure(e)
    case Success(column) =>
      if !Distinct(categoriesList) then
        Failure(ValueError("Categorical categories must be unique"))
      else
        Success(Encode(categoriesList, column))
  }

  /** `<` between two entries of an ordered categorical: by code, and false when either is missing. */
  predicate CatLess(a: Cell, b: Cell)
    requires a.Cat? && b.Cat?
  {
    a.code != -1 && b.code != -1 && a.code < b.code
  }

  /** A label of the list is encoded as its position in the list. */
  lemma {:induction false} LabelEncodedAsPosition(categories: seq<string>, i: int)
    requires Distinct(categories)
    requires 0 <= i < |categories|
    ensures EncodeCell(categories, Text(categories[i])) == Cat(i, categories)
  {
    IndexOfDistinct(categories, i);
  }

  /** The order of encoded values is the order of the labels in the list. */
  lemma EncodedOrderFollowsList(categories: seq<string>, a: string, b: string)
    requires Distinct(categories)
    requires a in categories && b in categories
    ensures CatLess(EncodeCell(categories, Text(a)), EncodeCell(categories, Text(b)))
        <==> Precedes(categories, a, b)
  {
    var i, j := IndexOf(categories, a), IndexOf(categories, b);
    if Precedes(categories, a, b) {
      var i', j' :| 0 <= i' < j' < |categories| && categories[i'] == a && categories[j'] == b;
      IndexOfDistinct(categories, i');
      IndexOfDistinct(categories, j');
    }
  }
}
