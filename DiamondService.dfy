/**
 * The price-prediction path: validate the request, build a one-row frame in the training
 * column order, prepare a copy of it for the model (encode cut, color and clarity as
 * ordinal codes, drop the price placeholder), predict, and format the answer. Loading
 * the model and running it are foreign calls and enter as function parameters.
 */
module DiamondService {
  import opened Wrappers
  import opened Exceptions
  import opened Lists
  import opened DiamondsEnums
  import opened DiamondSchema
  import opened Frames
  import opened Helpers
  import opened DatasetService

  const ModelPath: string := "data/models/model_xcgboost.pkl"
  const ResponsePrefix: string := "The predicted value for the diamond is: $"

  /** The columns of the built row, the model's training schema plus `price`. */
  const BuiltColumnOrder: seq<string> :=
    ["carat", "cut", "color", "clarity", "depth", "table", "price", "x", "y", "z"]

  /** The columns the model is given. */
  const FeatureColumnOrder: seq<string> :=
    ["carat", "cut", "color", "clarity", "depth", "table", "x", "y", "z"]

  function ToCell(v: Value): Cell {
    match v
    case Float(n) => Num(n)
    case Str(s) => Text(s)
  }

  // ---------------------------------------------------------------------------
  // create_dataframe_from_diamond_schema

  /** The single record built from a request, with a placeholder price of 0. */
  function BuildRow(d: DiamondFeatures): Table {
    [Column("carat", [Num(d.carat)]), Column("cut", [Text(d.cut)]),
     Column("color", [Text(d.color)]), Column("clarity", [Text(d.clarity)]),
     Column("depth", [Num(d.depth)]), Column("table", [Num(d.table)]),
     Column("price", [IntCell(0)]),
     Column("x", [Num(d.x)]), Column("y", [Num(d.y)]), Column("z", [Num(d.z)])]
  }

  method CreateDataframeFromDiamondSchema(data: DiamondFeatures) returns (df: DataFrame)
    ensures fresh(df) && df.columns == BuildRow(data)
  {
    df := new DataFrame(BuildRow(data));
  }

  /** The built row has one record and the ten columns in the training order. */
  lemma BuiltRowShape(d: DiamondFeatures)
    ensures Names(BuildRow(d)) == BuiltColumnOrder
    ensures forall i :: 0 <= i < |BuildRow(d)| ==> |BuildRow(d)[i].cells| == 1
  {
    var t := BuildRow(d);
    assert forall i :: 0 <= i < |t| ==> Names(t)[i] == BuiltColumnOrder[i];
  }

  lemma BuiltColumnOrderDistinct()
    ensures Distinct(BuiltColumnOrder)
  {
  }

  /** Every request field lands unchanged in the column of its name. */
  lemma BuiltRowHoldsField(d: DiamondFeatures, k: int)
    requires 0 <= k < |PredictionFields(d)|
    ensures var f := PredictionFields(d)[k];
      Lookup(BuildRow(d), f.name) == Success([ToCell(f.value)])
  {
    BuiltRowShape(d);
    BuiltColumnOrderDistinct();
    BuiltColumnOfField(d, k);
    LookupUnique(BuildRow(d), if k < 6 then k else k + 1);
  }

  /** The price column holds the placeholder 0. */
  lemma BuiltRowPricePlaceholder(d: DiamondFeatures)
    ensures Lookup(BuildRow(d), "price") == Success([IntCell(0)])
  {
    BuiltRowShape(d);
    BuiltColumnOrderDistinct();
    LookupUnique(BuildRow(d), 6);
  }

  /** Field `k` of the request is column `k` of the row, counting past the price column. */
  lemma BuiltColumnOfField(d: DiamondFeatures, k: int)
    requires 0 <= k < |PredictionFields(d)|
    ensures var f := PredictionFields(d)[k];
      BuildRow(d)[if k < 6 then k else k + 1] == Column(f.name, [ToCell(f.value)])
  {
  }

  /** The built row's columns are exactly the ten names of DiamondColumnsEnum, in another order. */
  lemma BuiltRowMatchesColumnsEnum(d: DiamondFeatures)
    ensures |Names(BuildRow(d))| == |ColumnLabels|
    ensures forall n :: n in Names(BuildRow(d)) <==> n in ColumnLabels
  {
    BuiltRowShape(d);
  }

  // ---------------------------------------------------------------------------
  // prepare_diamond_df

  /** `df[name] = convert_column_into_ordinal_categorical_data_type(df, name, categories)`. */
  function EncodeColumn(t: Table, name: string, categories: seq<string>): Result<Table, Error> {
    match ConvertColumnIntoOrdinalCategoricalDataType(t, name, categories)
    case Failure(e) => Failure(e)
    case Success(codes) => Success(SetColumn(t, name, codes))
  }

  /**
   * What preparing does to a frame: `frame` is the state the caller's frame is left in
   * (cut, color and clarity are assigned in place, one after the other), `result` is the
   * returned frame without price, or the exception that stopped the steps.
   */
  datatype Prepared = Prepared(frame: Table, result: Result<Table, Error>)

  function Prepare(t: Table): Prepared {
    match EncodeColumn(t, "cut", CutLabels)
    case Failure(e) => Prepared(t, Failure(e))
    case Success(t1) =>
      match EncodeColumn(t1, "color", ColorLabels)
      case Failure(e) => Prepared(t1, Failure(e))
      case Success(t2) =>
        match EncodeColumn(t2, "clarity", ClarityLabels)
        case Failure(e) => Prepared(t2, Failure(e))
        case Success(t3) => Prepared(t3, DropColumn(t3, "price"))
  }

  /** The ValueError, TypeError or KeyError of any step is re-raised as it is. */
  method PrepareDiamondDf(df: DataFrame) returns (r: Result<DataFrame, Error>)
    modifies df
    ensures df.columns == Prepare(old(df.columns)).frame
    ensures Prepare(old(df.columns)).result.Failure? ==>
      r == Failure(Prepare(old(df.columns)).result.error)
    ensures Prepare(old(df.columns)).result.Success? ==>
      r.Success? && fresh(r.value) && r.value.columns == Prepare(old(df.columns)).result.value
  {
    var cut := ConvertColumnIntoOrdinalCategoricalDataType(df.columns, "cut", CutLabels);
    if cut.Failure? {
      return Failure(cut.error);
    }
    df.SetItem("cut", cut.value);

    var color := ConvertColumnIntoOrdinalCategoricalDataType(df.columns, "color", ColorLabels);
    if color.Failure? {
      return Failure(color.error);
    }
    df.SetItem("color", color.value);

    var clarity := ConvertColumnIntoOrdinalCategoricalDataType(df.columns, "clarity", ClarityLabels);
    if clarity.Failure? {
      return Failure(clarity.error);
    }
    df.SetItem("clarity", clarity.value);

    r := df.Drop("price");
  }

  /** Encoding a column of a frame with distinct names replaces that column where it stands. */
  lemma EncodeColumnAt(t: Table, k: int, categories: seq<string>)
    requires Distinct(Names(t)) && Distinct(categories)
    requires 0 <= k < |t|
    ensures var t' := t[k := Column(t[k].name, Encode(categories, t[k].cells))];
      EncodeColumn(t, t[k].name, categories) == Success(t') && Names(t') == Names(t)
  {
    var c := Column(t[k].name, Encode(categories, t[k].cells));
    LookupUnique(t, k);
    DistinctNamesBefore(t, k);
    SetColumnAt(t, k, c.cells);
    NamesUpdate(t, k, c);
  }

  /** The nine feature columns in training order, with the given categorical cells. */
  function FeatureRow(d: DiamondFeatures, cut: Cell, color: Cell, clarity: Cell): Table {
    [Column("carat", [Num(d.carat)]), Column("cut", [cut]), Column("color", [color]),
     Column("clarity", [clarity]), Column("depth", [Num(d.depth)]), Column("table", [Num(d.table)]),
     Column("x", [Num(d.x)]), Column("y", [Num(d.y)]), Column("z", [Num(d.z)])]
  }

  /** The same for a one-record frame: the single cell is replaced by its code. */
  lemma EncodeOneCellAt(t: Table, k: int, categories: seq<string>)
    requires Distinct(Names(t)) && Distinct(categories)
    requires 0 <= k < |t| && |t[k].cells| == 1
    ensures var t' := t[k := Column(t[k].name, [EncodeCell(categories, t[k].cells[0])])];
      EncodeColumn(t, t[k].name, categories) == Success(t') && Names(t') == Names(t)
  {
    assert t[k].cells == [t[k].cells[0]];
    EncodeSingle(categories, t[k].cells[0]);
    EncodeColumnAt(t, k, categories);
  }

  /** The built row with the given categorical cells assigned in place; price is still there. */
  function FeatureFrame(d: DiamondFeatures, cut: Cell, color: Cell, clarity: Cell): Table {
    BuildRow(d)[1 := Column("cut", [cut])][2 := Column("color", [color])][3 := Column("clarity", [clarity])]
  }

  /** The nine features the model is given for a request: categorical labels as their ranks. */
  function EncodedRow(d: DiamondFeatures): Table {
    FeatureRow(d, EncodeCell(CutLabels, Text(d.cut)), EncodeCell(ColorLabels, Text(d.color)),
      EncodeCell(ClarityLabels, Text(d.clarity)))
  }

  /** The built row after cut, color and clarity have been assigned their codes in place. */
  function EncodedFrame(d: DiamondFeatures): Table {
    FeatureFrame(d, EncodeCell(CutLabels, Text(d.cut)), EncodeCell(ColorLabels, Text(d.color)),
      EncodeCell(ClarityLabels, Text(d.clarity)))
  }

  lemma FeatureRowIsFrameWithoutPrice(d: DiamondFeatures, cut: Cell, color: Cell, clarity: Cell)
    ensures FeatureFrame(d, cut, color, clarity)[..6] + FeatureFrame(d, cut, color, clarity)[7..]
         == FeatureRow(d, cut, color, clarity)
    ensures Names(FeatureFrame(d, cut, color, clarity)) == BuiltColumnOrder
  {
  }

  /** The three in-place assignments turn the built row into EncodedFrame. */
  lemma {:induction false} EncodeBuiltRow(d: DiamondFeatures)
    ensures EncodeColumn(BuildRow(d), "cut", CutLabels).Success?
    ensures var t1 := EncodeColumn(BuildRow(d), "cut", CutLabels).value;
      && EncodeColumn(t1, "color", ColorLabels).Success?
      && var t2 := EncodeColumn(t1, "color", ColorLabels).value;
      && EncodeColumn(t2, "clarity", ClarityLabels) == Success(EncodedFrame(d))
  {
    BuiltRowShape(d);
    BuiltColumnOrderDistinct();
    EncodeLabelColumns(BuildRow(d), d.cut, d.color, d.clarity);
  }

  /**
   * The three assignments on any frame with distinct names whose columns 1 to 3 are cut,
   * color and clarity, one label each.
   */
  lemma EncodeLabelColumns(t: Table, cut: string, color: string, clarity: string)
    requires Distinct(Names(t)) && |t| > 3
    requires t[1] == Column("cut", [Text(cut)])
    requires t[2] == Column("color", [Text(color)])
    requires t[3] == Column("clarity", [Text(clarity)])
    ensures var t1 := t[1 := Column("cut", [EncodeCell(CutLabels, Text(cut))])];
      var t2 := t1[2 := Column("color", [EncodeCell(ColorLabels, Text(color))])];
      && EncodeColumn(t, "cut", CutLabels) == Success(t1)
      && EncodeColumn(t1, "color", ColorLabels) == Success(t2)
      && EncodeColumn(t2, "clarity", ClarityLabels)
           == Success(t2[3 := Column("clarity", [EncodeCell(ClarityLabels, Text(clarity))])])
  {
    LabelTablesDistinct();
    EncodeOneCellAt(t, 1, CutLabels);
    var t1 := t[1 := Column("cut", [EncodeCell(CutLabels, Text(cut))])];
    EncodeOneCellAt(t1, 2, ColorLabels);
    var t2 := t1[2 := Column("color", [EncodeCell(ColorLabels, Text(color))])];
    EncodeOneCellAt(t2, 3, ClarityLabels);
  }

  /**
   * Preparing a built row never fails, whatever the labels: it yields the encoded
   * nine-column row, and the caller's frame is left with the codes and the price column.
   */
  lemma PrepareBuiltRow(d: DiamondFeatures)
    ensures Prepare(BuildRow(d)) == Prepared(EncodedFrame(d), Success(EncodedRow(d)))
  {
    EncodeBuiltRow(d);
    DropPrice(d, EncodeCell(CutLabels, Text(d.cut)), EncodeCell(ColorLabels, Text(d.color)),
      EncodeCell(ClarityLabels, Text(d.clarity)));
  }

  /** Dropping price from the assigned frame leaves the nine feature columns. */
  lemma DropPrice(d: DiamondFeatures, cut: Cell, color: Cell, clarity: Cell)
    ensures DropColumn(FeatureFrame(d, cut, color, clarity), "price") == Success(FeatureRow(d, cut, color, clarity))
  {
    var t := FeatureFrame(d, cut, color, clarity);
    FeatureRowIsFrameWithoutPrice(d, cut, color, clarity);
    BuiltColumnOrderDistinct();
    assert Names(t)[6] == "price";
    WithoutAt(t, 6);
  }

  lemma FeatureColumnOrderDistinct()
    ensures Distinct(FeatureColumnOrder)
  {
  }

  /** The feature row has the nine columns in training order, one record, and no price. */
  lemma FeatureRowShape(d: DiamondFeatures, cut: Cell, color: Cell, clarity: Cell)
    ensures Names(FeatureRow(d, cut, color, clarity)) == FeatureColumnOrder
    ensures "price" !in Names(FeatureRow(d, cut, color, clarity))
    ensures forall i :: 0 <= i < 9 ==> |FeatureRow(d, cut, color, clarity)[i].cells| == 1
  {
  }

  /** The categorical columns of the feature row hold the given cells. */
  lemma FeatureRowCategorical(d: DiamondFeatures, cut: Cell, color: Cell, clarity: Cell)
    ensures Lookup(FeatureRow(d, cut, color, clarity), "cut") == Success([cut])
    ensures Lookup(FeatureRow(d, cut, color, clarity), "color") == Success([color])
    ensures Lookup(FeatureRow(d, cut, color, clarity), "clarity") == Success([clarity])
  {
    var r := FeatureRow(d, cut, color, clarity);
    FeatureRowShape(d, cut, color, clarity);
    FeatureColumnOrderDistinct();
    LookupUnique(r, 1);
    LookupUnique(r, 2);
    LookupUnique(r, 3);
  }

  /** The numeric columns of the feature row are exactly as built from the request. */
  lemma FeatureRowNumeric(d: DiamondFeatures, cut: Cell, color: Cell, clarity: Cell, n: string)
    requires n in ["carat", "depth", "table", "x", "y", "z"]
    ensures Lookup(FeatureRow(d, cut, color, clarity), n) == Lookup(BuildRow(d), n)
  {
    var r := FeatureRow(d, cut, color, clarity);
    FeatureRowShape(d, cut, color, clarity);
    FeatureColumnOrderDistinct();
    BuiltRowShape(d);
    BuiltColumnOrderDistinct();
    var k :| 0 <= k < 6 && ["carat", "depth", "table", "x", "y", "z"][k] == n;
    var i := [0, 4, 5, 6, 7, 8][k];
    var j := [0, 4, 5, 7, 8, 9][k];
    LookupUnique(r, i);
    LookupUnique(BuildRow(d), j);
  }

  /**
   * Each categorical label of the tables is encoded as its position in the table, for each
   * feature on its own: a valid cut is ranked whatever the color and clarity are.
   */
  lemma LabelsEncodedAsRanks(d: DiamondFeatures, i: int, j: int, k: int)
    ensures 0 <= i < |CutLabels| && d.cut == CutLabels[i] ==>
      Lookup(EncodedRow(d), "cut") == Success([Cat(i, CutLabels)])
    ensures 0 <= j < |ColorLabels| && d.color == ColorLabels[j] ==>
      Lookup(EncodedRow(d), "color") == Success([Cat(j, ColorLabels)])
    ensures 0 <= k < |ClarityLabels| && d.clarity == ClarityLabels[k] ==>
      Lookup(EncodedRow(d), "clarity") == Success([Cat(k, ClarityLabels)])
  {
    LabelTablesDistinct();
    FeatureRowCategorical(d, EncodeCell(CutLabels, Text(d.cut)), EncodeCell(ColorLabels, Text(d.color)),
      EncodeCell(ClarityLabels, Text(d.clarity)));
    if 0 <= i < |CutLabels| && d.cut == CutLabels[i] {
      LabelEncodedAsPosition(CutLabels, i);
    }
    if 0 <= j < |ColorLabels| && d.color == ColorLabels[j] {
      LabelEncodedAsPosition(ColorLabels, j);
    }
    if 0 <= k < |ClarityLabels| && d.clarity == ClarityLabels[k] {
      LabelEncodedAsPosition(ClarityLabels, k);
    }
  }

  /** A label outside its table is encoded as missing (-1); preparation does not fail on it. */
  lemma UnknownLabelsAreMissing(d: DiamondFeatures)
    ensures d.cut !in CutLabels ==> Lookup(EncodedRow(d), "cut") == Success([Cat(-1, CutLabels)])
    ensures d.color !in ColorLabels ==> Lookup(EncodedRow(d), "color") == Success([Cat(-1, ColorLabels)])
    ensures d.clarity !in ClarityLabels ==>
      Lookup(EncodedRow(d), "clarity") == Success([Cat(-1, ClarityLabels)])
  {
    FeatureRowCategorical(d, EncodeCell(CutLabels, Text(d.cut)), EncodeCell(ColorLabels, Text(d.color)),
      EncodeCell(ClarityLabels, Text(d.clarity)));
  }

  /**
   * Preparing fails exactly when one of cut, color, clarity or price is missing, with the
   * KeyError of the first one missing in that order (the lookup's carries the column name,
   * the drop's the "not found in axis" message); on a missing cut the frame is untouched.
   */
  lemma PrepareFailsOnMissingColumn(t: Table)
    ensures Prepare(t).result.Failure? <==>
      !("cut" in Names(t) && "color" in Names(t) && "clarity" in Names(t) && "price" in Names(t))
    ensures "cut" !in Names(t) ==> Prepare(t) == Prepared(t, Failure(KeyError("cut")))
    ensures "cut" in Names(t) && "color" !in Names(t) ==>
      Prepare(t).result == Failure(KeyError("color"))
    ensures "cut" in Names(t) && "color" in Names(t) && "clarity" !in Names(t) ==>
      Prepare(t).result == Failure(KeyError("clarity"))
    ensures "cut" in Names(t) && "color" in Names(t) && "clarity" in Names(t) && "price" !in Names(t) ==>
      Prepare(t).result == Failure(KeyError(NotFoundInAxis("price")))
  {
    LabelTablesDistinct();
    if "cut" in Names(t) {
      var cut := ConvertColumnIntoOrdinalCategoricalDataType(t, "cut", CutLabels).value;
      SetColumnNames(t, "cut", cut);
      var t1 := SetColumn(t, "cut", cut);
      if "color" in Names(t) {
        var color := ConvertColumnIntoOrdinalCategoricalDataType(t1, "color", ColorLabels).value;
        SetColumnNames(t1, "color", color);
        var t2 := SetColumn(t1, "color", color);
        if "clarity" in Names(t) {
          var clarity := ConvertColumnIntoOrdinalCategoricalDataType(t2, "clarity", ClarityLabels).value;
          SetColumnNames(t2, "clarity", clarity);
        }
      }
    }
  }

  // ---------------------------------------------------------------------------
  // validate_data_to_predict_diamond

  /** The service's own copy of the zero-value loop; it behaves exactly as the shared helper. */
  method ValidateDataToPredictDiamond(data: DiamondFeatures) returns (r: Outcome<Error>)
    ensures r == ValidateDataHasNoZeroValues(PredictionFields(data))
  {
    var fields := PredictionFields(data);
    for i := 0 to |fields|
      invariant forall j :: 0 <= j < i ==> !IsZero(fields[j].value)
    {
      if IsZero(fields[i].value) {
        return Fail(ValueError(ZeroValueMessage(fields[i].name)));
      }
    }
    return Pass;
  }

  /** The end-to-end test's request body with carat 0 is refused naming carat. */
  lemma ZeroCaratRejected(cut: string, color: string, clarity: string)
    ensures ValidateDataHasNoZeroValues(PredictionFields(
              DiamondFeatures(0.0, cut, color, clarity, 1.0, 1.0, 1.0, 1.0, 1.0)))
         == Fail(ValueError("carat must have value grather than 0."))
  {
    var fields := PredictionFields(DiamondFeatures(0.0, cut, color, clarity, 1.0, 1.0, 1.0, 1.0, 1.0));
    ZeroAfterNonZeroPrefix([], fields);
    assert [] + fields == fields;
    CaratMessage();
  }

  /** The end-to-end test's request body with depth 0 is refused naming depth. */
  lemma ZeroDepthRejected(cut: string, color: string, clarity: string)
    ensures ValidateDataHasNoZeroValues(PredictionFields(
              DiamondFeatures(1.0, cut, color, clarity, 0.0, 1.0, 1.0, 1.0, 1.0)))
         == Fail(ValueError("depth must have value grather than 0."))
  {
    var fields := PredictionFields(DiamondFeatures(1.0, cut, color, clarity, 0.0, 1.0, 1.0, 1.0, 1.0));
    ZeroAfterNonZeroPrefix(fields[..4], fields[4..]);
    assert fields[..4] + fields[4..] == fields;
    DepthMessage();
  }

  // ---------------------------------------------------------------------------
  // predict_diamond_price

  /**
   * The answer to a prediction request. `load` stands for unpickling the model at a path,
   * `predict` for running it on a frame, `render` for formatting a float; each foreign
   * call may raise, and every exception is re-raised as it is.
   */
  function PredictSpec<M>(
    data: DiamondFeatures,
    load: string -> Result<M, Error>,
    predict: (M, Table) -> Result<seq<real>, Error>,
    render: real -> string): Result<string, Error>
  {
    match ValidateDataHasNoZeroValues(PredictionFields(data))
    case Fail(e) => Failure(e)
    case Pass =>
      match load(ModelPath)
      case Failure(e) => Failure(e)
      case Success(model) =>
        match Prepare(BuildRow(data)).result
        case Failure(e) => Failure(e)
        case Success(features) =>
          match predict(model, features)
          case Failure(e) => Failure(e)
          case Success(prediction) =>
            if |prediction| == 0 then Failure(IndexError("index 0 is out of bounds for axis 0 with size 0"))
            else Success(ResponsePrefix + render(prediction[0]))
  }

  /**
   * Validate, build the row, load the model, copy the row, prepare the copy, predict,
   * format: in that order.
   */
  method PredictDiamondPrice<M>(
    data: DiamondFeatures,
    load: string -> Result<M, Error>,
    predict: (M, Table) -> Result<seq<real>, Error>,
    render: real -> string) returns (r: Result<string, Error>)
    ensures r == PredictSpec(data, load, predict, render)
  {
    var checked := ValidateDataToPredictDiamond(data);
    if checked.Fail? {
      return Failure(checked.error);
    }
    var diamondDf := CreateDataframeFromDiamondSchema(data);
    var model := load(ModelPath);
    if model.Failure? {
      return Failure(model.error);
    }
    var newDiamondDf := diamondDf.Copy();
    var prepared := PrepareDiamondDf(newDiamondDf);
    // Preparation assigned columns of the copy only: the built row is as it was.
    assert diamondDf.columns == BuildRow(data);
    if prepared.Failure? {
      return Failure(prepared.error);
    }
    var prediction := predict(model.value, prepared.value.columns);
    if prediction.Failure? {
      return Failure(prediction.error);
    }
    if |prediction.value| == 0 {
      return Failure(IndexError("index 0 is out of bounds for axis 0 with size 0"));
    }
    r := Success(ResponsePrefix + render(prediction.value[0]));
  }

  /**
   * A request with a zero field is refused with the validator's error before the model is
   * loaded: the answer is the same whatever the loader, the model and the formatter do.
   */
  lemma ZeroFieldRejectedBeforeModel<M, N>(
    d: DiamondFeatures,
    load: string -> Result<M, Error>, predict: (M, Table) -> Result<seq<real>, Error>, render: real -> string,
    load': string -> Result<N, Error>, predict': (N, Table) -> Result<seq<real>, Error>, render': real -> string)
    requires exists i :: 0 <= i < |PredictionFields(d)| && IsZero(PredictionFields(d)[i].value)
    ensures PredictSpec(d, load, predict, render).Failure?
    ensures PredictSpec(d, load, predict, render) == PredictSpec(d, load', predict', render')
    ensures PredictSpec(d, load, predict, render).error == ValidateDataHasNoZeroValues(PredictionFields(d)).error
  {
  }

  /**
   * On a valid request whose model loads, the model is run on the encoded nine-column
   * row, and its first prediction is reported after the fixed prefix.
   */
  lemma PredictionOfValidRequest<M>(
    d: DiamondFeatures,
    load: string -> Result<M, Error>, predict: (M, Table) -> Result<seq<real>, Error>, render: real -> string)
    requires forall i :: 0 <= i < |PredictionFields(d)| ==> !IsZero(PredictionFields(d)[i].value)
    requires load(ModelPath).Success?
    ensures var answer := predict(load(ModelPath).value, EncodedRow(d));
      PredictSpec(d, load, predict, render) ==
        match answer
        case Failure(e) => Failure(e)
        case Success(prediction) =>
          if |prediction| == 0 then Failure(IndexError("index 0 is out of bounds for axis 0 with size 0"))
          else Success(ResponsePrefix + render(prediction[0]))
  {
    PrepareBuiltRow(d);
  }

  /** A successful answer always starts with the fixed prefix. */
  lemma AnswerHasPrefix<M>(
    d: DiamondFeatures,
    load: string -> Result<M, Error>, predict: (M, Table) -> Result<seq<real>, Error>, render: real -> string)
    requires PredictSpec(d, load, predict, render).Success?
    ensures ResponsePrefix <= PredictSpec(d, load, predict, render).value
  {
  }
}
