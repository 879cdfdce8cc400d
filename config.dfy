/** The per-battery configuration record. */
module Config {

  /** Analysis configuration attached to a battery (a composite column in the
      database). `peak` selects which detected peak is authoritative and
      `lmfitModel` names the degradation model family. */
  datatype Parameters = Parameters(
    firstIcaCycle: int,
    lastIcaCycle: int,
    firstCcctCycle: int,
    lastCcctCycle: int,
    ccctCyclesStep: int,
    filterParameter: int,
    peak: int,
    lmfitModel: string)

  /** The parameters that registration attaches to a new battery of type
      `batType`: type "a", type "b", and every other type. */
  function RegisteredParameters(batType: string): (p: Parameters)
    ensures p.lmfitModel in {"linear", "quadratic", "qubic"}
    ensures batType == "a" <==> p.lmfitModel == "linear"
    ensures batType == "b" <==> p.lmfitModel == "quadratic"
    ensures batType == "a" ==> p.lastCcctCycle == 10 && p.peak == 2 && p.filterParameter == 3
    ensures batType != "a" ==> p.lastCcctCycle == 1 && p.peak == 1 && p.filterParameter == 1
  {
    if batType == "a" then
      Parameters(firstIcaCycle := 1, lastIcaCycle := 2, firstCcctCycle := 3,
                 lastCcctCycle := 10, ccctCyclesStep := 2, filterParameter := 3, peak := 2,
                 lmfitModel := "linear")
    else if batType == "b" then Parameters(1, 2, 3, 1, 1, 1, 1, "quadratic")
    else Parameters(1, 2, 3, 1, 1, 1, 1, "qubic")
  }
}
