/** The value type for a raw JavaScript function body
    (Sources/er/highcharts/model/ERHighchartsFunction.java). */
module HighchartsFunctions {
  import opened Wrappers

  /** A JavaScript function body kept as text. `body` is the whole state of the
      object; `None` stands for a null body, which the constructor accepts. */
  datatype HighchartsFunction = HighchartsFunction(body: Option<string>)

  /** The constructor stores its argument as the body, with no check and no change. */
  function NewHighchartsFunction(v: Option<string>): (f: HighchartsFunction)
    ensures f.body == v
  {
    HighchartsFunction(v)
  }
}
