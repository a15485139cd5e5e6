/**
 * The request schemas. Iterating a pydantic model yields `(name, value)` pairs in field
 * declaration order, inherited fields first; `Fields` functions give that sequence.
 */
module DiamondSchema {

  /** A field value as the schema holds it: numbers are floats, categorical fields strings. */
  datatype Value = Float(n: real) | Str(s: string)

  /** One `(name, value)` pair of a schema instance. */
  datatype Field = Field(name: string, value: Value)

  /** DiamondFeaturesForPredictionSchema (BaseDiamondSchema plus the geometry fields). */
  datatype DiamondFeatures = DiamondFeatures(
    carat: real, cut: string, color: string, clarity: string,
    depth: real, table: real, x: real, y: real, z: real)

  /** DiamondFeaturesForSearchSchema (BaseDiamondSchema only). */
  datatype SearchFeatures = SearchFeatures(carat: real, cut: string, color: string, clarity: string)

  /** The fields declared on BaseDiamondSchema, in order. */
  function BaseFields(carat: real, cut: string, color: string, clarity: string): seq<Field> {
    [Field("carat", Float(carat)), Field("cut", Str(cut)), Field("color", Str(color)),
     Field("clarity", Str(clarity))]
  }

  function PredictionFields(d: DiamondFeatures): seq<Field> {
    BaseFields(d.carat, d.cut, d.color, d.clarity)
    + [Field("depth", Float(d.depth)), Field("table", Float(d.table)),
       Field("x", Float(d.x)), Field("y", Float(d.y)), Field("z", Float(d.z))]
  }

  function SearchFields(s: SearchFeatures): seq<Field> {
    BaseFields(s.carat, s.cut, s.color, s.clarity)
  }
}
