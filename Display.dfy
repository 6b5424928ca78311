/** The formatting step of `updateDisplay` (script.js:59-73): a number is
    rounded to ten decimals, the value is turned into text, and text longer
    than ten characters is parsed back and written in exponential notation
    with five fractional digits. */
module Display {
  import opened Numbers

  /** `Math.round(x * 10000000000) / 10000000000`. */
  function RoundToTenDecimals(js: JsNumbers, x: Float): Float {
    js.div(js.round(js.mul(x, TenBillion)), TenBillion)
  }

  /** The text `updateDisplay` builds before the length test: numbers are
      rounded first; `null` and strings are converted as they are. */
  function PlainText(js: JsNumbers, v: JsValue): (s: string)
    ensures v.Str? ==> s == v.text
    ensures v.Num? ==> s == js.toString(RoundToTenDecimals(js, v.value))
  {
    match v
    case Num(x) => ToText(js, Num(RoundToTenDecimals(js, x)))
    case _ => ToText(js, v)
  }

  /** The text `updateDisplay(v)` leaves on the display. */
  function DisplayText(js: JsNumbers, v: JsValue): (s: string)
    ensures |PlainText(js, v)| <= 10 ==> s == PlainText(js, v)
    ensures |PlainText(js, v)| > 10 ==> s == js.toExponential5(js.parseFloat(PlainText(js, v)))
    ensures TextNeverEmpty(js) && v != Str("") ==> s != ""
  {
    var plain := PlainText(js, v);
    if |plain| > 10 then js.toExponential5(js.parseFloat(plain)) else plain
  }

  /** A string of at most ten characters is shown unchanged, and so is `null`. */
  lemma ShortTextShownAsIs(js: JsNumbers, t: string)
    requires |t| <= 10
    ensures DisplayText(js, Str(t)) == t
    ensures DisplayText(js, Null) == "null"
  {
  }
}
