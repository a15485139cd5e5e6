# Diamond price prediction: preparing the request for the model

This project models the input half of the diamond price-prediction service. A
prediction request carries nine features. It is checked for zero values, then laid out
as a one-row DataFrame in the training column order with a placeholder price. The
request's categorical features (cut, color, clarity) are encoded as ordered categorical
codes. The price column is dropped and the model is run. The answer is formatted as a
sentence. All of this is written in Dafny and the properties the code promises are
proved about it.

Modules, one per source file (plus shared support):

- `Wrappers`: `Option`, `Result` and `Outcome` (returns normally or raises).
- `Exceptions`: the Python exception kinds the path raises, each with its message or key.
- `Lists`: distinctness, `list.index`-style lookup (`IndexOf`), and label order.
- `DiamondsEnums`: the cut, color, clarity and column label tables, in declaration order.
- `DiamondSchema`: the pydantic request schemas, and the `(name, value)` pairs that
  iterating over them yields. Inherited fields come first.
- `Frames`: the slice of a pandas DataFrame the path uses.
  - `Table` is a value: named columns of cells.
  - `DataFrame` is a class. Its column assignment changes it in place. `drop` and `copy`
    return new objects.
- `Helpers`: the shared zero-value validator.
- `DatasetService`: the ordinal categorical encoder (`pd.Categorical(..., ordered=True)`).
- `DiamondService`:
  - row building and preparation, both as a specification function `Prepare` and as a
    method on a `DataFrame`;
  - the service's own copy of the validator, as a loop;
  - the prediction orchestration.

  The model loader, the model and float formatting are parameters.

Behaviour worth noting:

- The validation message is spelled "grather" (`"<field> must have value grather than 0."`),
  as the code and its end-to-end test have it.
- A cut, color or clarity outside its label table does not make preparation fail.
  `pd.Categorical` turns it into the missing code -1, and the row reaches the model with
  that feature missing.
- Labels are not checked anywhere before the model runs.

## Model

| member | source | states |
|---|---|---|
| Lists.IndexOf | src/services/dataset_service.py:6 | the position of the first occurrence of a label, or -1 exactly when the label is absent |
| DiamondsEnums.LabelTablesDistinct | src/utils/enums/diamonds_enums.py:3-39 | the cut (5), color (7), clarity (8) and column (10) tables have these sizes and no repeated label, so `pd.Categorical` accepts them |
| Helpers.FirstZeroIndex | src/utils/helpers.py:5-6 | the first field whose value is numeric zero, none exactly when no field is zero |
| Helpers.ValidateDataHasNoZeroValues | src/utils/helpers.py:4-7 | passes exactly when no field is zero; otherwise raises ValueError naming the first zero field |
| Helpers.FirstZeroIndexAppend | src/utils/helpers.py:5-7 | fields are read left to right: a zero in an earlier block wins over any zero after it |
| Helpers.ZeroValueMessageInjective | src/utils/helpers.py:7 | different fields give different messages, so the message identifies the field |
| Helpers.OnlyNumericZeroRejected | src/utils/helpers.py:6 | text values, including "0", and every non-zero number (negative ones too) pass |
| Helpers.PredictionRejectsOnlyNumericFields | src/schemas/diamond_schema.py:6-18 | a prediction request can only be refused naming carat, depth, table, x, y or z |
| Helpers.BaseFieldsCheckedFirst | src/schemas/diamond_schema.py:6-18 | the inherited fields are checked first: a zero there gives the same error as for a search request |
| Helpers.ZeroAfterNonZeroPrefix | src/utils/helpers.py:5-7 | a zero field right after fields that are all non-zero is the one the ValueError names |
| Helpers.SearchCaratZeroMessage | tests/e2e/test_diamonds_router.py:93-99 | a search request with carat 0 is refused with "carat must have value grather than 0." |
| DatasetService.OrdinalCode | src/services/dataset_service.py:6 | a label's code is its position in the list, -1 exactly when it is not in the list, and -1 for any number |
| DatasetService.ConvertColumnIntoOrdinalCategoricalDataType | src/services/dataset_service.py:3-6 | KeyError on a missing column and ValueError on repeated categories. Otherwise one categorical entry per cell, over the given categories, with each label coded by its position or -1 when absent |
| DatasetService.LabelEncodedAsPosition | src/services/dataset_service.py:6 | the i-th category is encoded as code i |
| DatasetService.EncodedOrderFollowsList | src/services/dataset_service.py:6 | with `ordered=True`, one encoded label is less than another exactly when it comes earlier in the list |
| Frames.Lookup | src/services/dataset_service.py:6 | `df[name]` is the named column's cells, or KeyError(name) exactly when there is no such column |
| Frames.SetColumnNames | src/services/diamond_service.py:31 | `df[name] = cells` keeps the column order when the name exists, and appends the new name on the right otherwise |
| Frames.SetColumnReadsBack | src/services/diamond_service.py:31 | after `df[name] = cells`, `df[name]` reads back as `cells` |
| Frames.SetColumnKeepsOthers | src/services/diamond_service.py:31 | `df[name] = cells` leaves every other column reading as before |
| Frames.DropColumn | src/services/diamond_service.py:51 | `df.drop(columns=name)`: exactly when the column is absent, KeyError("['name'] not found in axis"); otherwise the column is gone and every other column is unchanged |
| Frames.LookupUnique | src/services/diamond_service.py:31-51 | in a frame with distinct names, reading the k-th column's name gives the k-th column |
| Frames.SetColumnAt | src/services/diamond_service.py:31 | assigning an existing column replaces it at its own position, when no column to its left has the same name |
| Frames.WithoutAt | src/services/diamond_service.py:51 | dropping the k-th column of a frame with distinct names leaves the columns before and after it, in order |
| Frames.DataFrame.SetItem | src/services/diamond_service.py:31 | the assignment changes the frame in place to `SetColumn` of its old columns |
| Frames.DataFrame.Drop | src/services/diamond_service.py:51 | on success a fresh frame holds `DropColumn`'s result; otherwise the KeyError |
| Frames.DataFrame.Copy | src/services/diamond_service.py:74 | a fresh frame with the same columns |
| DiamondService.CreateDataframeFromDiamondSchema | src/services/diamond_service.py:11-25 | a fresh frame holding the built row |
| DiamondService.BuiltRowShape | src/services/diamond_service.py:11-25 | the row has the ten columns in training order, one value each |
| DiamondService.BuiltRowHoldsField | src/services/diamond_service.py:11-25 | every request field is found unchanged in the column of its own name |
| DiamondService.BuiltColumnOfField | src/services/diamond_service.py:14-23 | field k sits at column k, counting past the price column |
| DiamondService.BuiltRowPricePlaceholder | src/services/diamond_service.py:20 | the price column holds the integer 0 |
| DiamondService.BuiltRowMatchesColumnsEnum | src/utils/enums/diamonds_enums.py:29-39 | the row's columns are exactly the ten names of DiamondColumnsEnum |
| DiamondService.PrepareDiamondDf | src/services/diamond_service.py:28-56 | the frame passed in is left as `Prepare` says (cut, color and clarity assigned in place, one by one). The result is a fresh frame without price, or the first step's ValueError, TypeError or KeyError |
| DiamondService.EncodeColumnAt | src/services/diamond_service.py:31-49 | encoding a column of a frame with distinct names replaces that column where it stands |
| DiamondService.EncodeLabelColumns | src/services/diamond_service.py:30-49 | on any frame with distinct names whose columns 1 to 3 are cut, color and clarity, the three assignments succeed one after the other and replace each label by its code where it stands |
| DiamondService.EncodeBuiltRow | src/services/diamond_service.py:30-49 | the three assignments succeed on a built row and turn it into the encoded frame, price included |
| DiamondService.DropPrice | src/services/diamond_service.py:51 | dropping price from the encoded ten-column frame leaves the nine feature columns in order |
| DiamondService.PrepareBuiltRow | src/services/diamond_service.py:28-56 | preparing a built row never fails, whatever the labels. It leaves the caller's frame encoded and returns the nine encoded feature columns |
| DiamondService.FeatureRowShape | src/services/diamond_service.py:51 | the prepared row has the nine feature columns in training order, one value each, and no price |
| DiamondService.FeatureRowCategorical | src/services/diamond_service.py:31-49 | the cut, color and clarity columns of the prepared row hold the encoded cells |
| DiamondService.FeatureRowNumeric | src/services/diamond_service.py:28-56 | carat, depth, table, x, y and z reach the model exactly as built |
| DiamondService.LabelsEncodedAsRanks | src/services/diamond_service.py:30-49 | each of cut, color and clarity, on its own, is encoded as its declaration position in the enum when it is a label of that enum, whatever the other two are |
| DiamondService.UnknownLabelsAreMissing | src/services/diamond_service.py:30-49 | a label outside its table becomes the missing code -1, and preparation does not fail on it |
| DiamondService.PrepareFailsOnMissingColumn | src/services/diamond_service.py:28-56 | preparation fails exactly when cut, color, clarity or price is missing. The error is the KeyError of the first missing one, in that order: the column name for cut, color or clarity, and "['price'] not found in axis" for price. A missing cut leaves the frame untouched |
| DiamondService.ValidateDataToPredictDiamond | src/services/diamond_service.py:58-61 | the service's own loop gives exactly the shared validator's outcome on the prediction fields |
| DiamondService.ZeroCaratRejected | tests/e2e/test_diamonds_router.py:36-71 | the test body with carat 0 is refused with "carat must have value grather than 0." |
| DiamondService.ZeroDepthRejected | tests/e2e/test_diamonds_router.py:36-71 | the test body with depth 0 is refused with "depth must have value grather than 0." |
| DiamondService.PredictDiamondPrice | src/services/diamond_service.py:64-83 | the steps run in the code's order: validate, build, load, copy, prepare the copy, predict, format. The answer is `PredictSpec`'s, and any exception is re-raised unchanged |
| DiamondService.ZeroFieldRejectedBeforeModel | src/services/diamond_service.py:64-66 | a request with a zero field fails with the validator's error, whatever the loader, model and formatter do |
| DiamondService.PredictionOfValidRequest | src/services/diamond_service.py:64-80 | for a valid request whose model loads, the model is given the encoded nine-column row. The answer is the prefix followed by the first prediction, or the model's error, or IndexError when nothing is predicted |
| DiamondService.AnswerHasPrefix | src/services/diamond_service.py:78 | every successful answer starts with "The predicted value for the diamond is: $" |

## Left out

- The HTTP router, the FastAPI application, request logging and its database table are
  not modelled. The same goes for the search endpoint's filtering functions, which have no
  implementation in the service.
- Logging inside `prepare_diamond_df` and `predict_diamond_price` is not modelled. Each
  caught exception is re-raised unchanged, so the model only propagates it.
- `model_service.load_pickle_model` and `model_service.predict` read a file and run an
  XGBoost model. They are the `load` and `predict` parameters, and either may fail with
  its own error.
- Turning `prediction[0]` (a float32) into text is the `render` parameter. Float
  formatting and NaN, infinity and signed zero are not modelled: request numbers are
  `real`.
- Pydantic's parsing of the request body (type coercion, missing fields) happens before
  these functions are called. The model starts from an already-typed request.
- pandas details that the path never reaches are not modelled:
  - frames with two columns of the same name;
  - columns of different lengths;
  - column dtypes beyond the cell kind (price is an integer cell).
- Frames.Lookup: pandas `df[name]` on a frame with repeated column names returns a
  sub-frame. The model returns the leftmost column instead, since the frames built here
  never repeat a name.
- DatasetService.OrdinalCode: a number compared with string categories is coded -1.
  The dtype conversion pandas might attempt first is not modelled.
