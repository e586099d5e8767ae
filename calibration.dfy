/**
 * The load-resistance trim table of ReadADC_i2c.js: three polynomial
 * coefficients per (resolution, gain) pair. The coefficients are data fitted
 * to measurements; what the model relies on is which keys the table covers
 * and that a lookup outside them takes the abort path.
 */
module Calibration {
  import opened Wrappers
  import opened Register

  /** The exit status of the abort path when no coefficients exist. */
  const AbortStatus: int := 112

  /** The coefficients of Rl = c1 * |adcV|^2 + c2 * |adcV| + c3. */
  datatype Trim = Trim(const1: real, const2: real, const3: real)

  /**
   * `TrimConstant[bits][gain]`: defined exactly for the sixteen legal
   * (resolution, gain) pairs; any other access throws in the script.
   */
  function TrimConstant(bits: int, gain: int): (r: Option<Trim>)
    ensures r.Some? <==> LegalBits(bits) && LegalGain(gain)
  {
    if bits == 12 && gain == 1 then Some(Trim(-7296449987417720000.0, 18252066801568475000.0, -9561470143248126000.0))
    else if bits == 12 && gain == 2 then Some(Trim(-14898381548524163000.0, 18452580931431174000.0, -4805276209813626000.0))
    else if bits == 12 && gain == 4 then Some(Trim(-10118072.271809563, 6797352.007977883, -263832.86114829977))
    else if bits == 12 && gain == 8 then Some(Trim(-22986374.244420122, 7536052.779157299, -258788.32091889498))
    else if bits == 14 && gain == 1 then Some(Trim(-547128.0816393106, 1959171.5248400136, 413393.9108785477))
    else if bits == 14 && gain == 2 then Some(Trim(-1303354.7551292207, 2216492.26594754, 252631.72247966885))
    else if bits == 14 && gain == 4 then Some(Trim(-603659.535929856, 1058285.263214671, 238635.61023626427))
    else if bits == 14 && gain == 8 then Some(Trim(-321542.9453517512, 506255.5322955709, 174575.86010087654))
    else if bits == 16 && gain == 1 then Some(Trim(-538886.6327368342, 1929058.1036710313, 418277.36598391004))
    else if bits == 16 && gain == 2 then Some(Trim(-1093021.2089518933, 2078583.7929054706, 252687.99370679908))
    else if bits == 16 && gain == 4 then Some(Trim(-1025665.3681316198, 1238120.803775412, 229019.1443321319))
    else if bits == 16 && gain == 8 then Some(Trim(-354280.916034503, 517745.8280310895, 175604.3187191613))
    else if bits == 18 && gain == 1 then Some(Trim(-549702.5567547062, 1957717.4623683672, 387836.79665354657))
    else if bits == 18 && gain == 2 then Some(Trim(-1361374.6457417163, 2135565.100213241, 255336.17805034263))
    else if bits == 18 && gain == 4 then Some(Trim(-1245462.6278009678, 1159128.6214418625, 241634.35669704582))
    else if bits == 18 && gain == 8 then Some(Trim(231079.04899498075, 389831.38249999925, 182839.62771505647))
    else None
  }

  /** The (resolution, gain) pairs the table has coefficients for. */
  predicate Covered(bits: int, gain: int) {
    LegalBits(bits) && LegalGain(gain)
  }

  /** The outcome of the lookup in `adc2volt`: the coefficients, or the exit status. */
  function LookupTrim(bits: int, gain: int): (r: Result<Trim, int>)
    ensures r.Failure? <==> !Covered(bits, gain)
    ensures r.Failure? ==> r.error == AbortStatus
    ensures r.Success? ==> TrimConstant(bits, gain) == Some(r.value)
  {
    match TrimConstant(bits, gain)
    case Some(t) => Success(t)
    case None => Failure(AbortStatus)
  }
}
