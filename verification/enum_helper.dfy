/** The enum-name helper the adapters call. Its implementation is not part of
    this model, so each operation is an opaque function supplied by the caller;
    nothing is assumed about how they relate to one another. */
module EnumHelpers {

  /** A protocol enum constant, represented by its constant name
      (for example `CLIMATE_MODE_HEAT`). */
  type EnumToken = string

  datatype EnumHelper = EnumHelper(
    stripEnumPrefix: EnumToken -> string,
    toClimateMode: string -> EnumToken,
    toFanMode: string -> EnumToken,
    toClimatePreset: string -> EnumToken,
    toClimateSwingMode: string -> EnumToken)

  /** The stream `map(stripEnumPrefix)` over a list of enum constants. */
  function StripAll(e: EnumHelper, tokens: seq<EnumToken>): (r: seq<string>)
    ensures |r| == |tokens|
    ensures forall i :: 0 <= i < |tokens| ==> r[i] == e.stripEnumPrefix(tokens[i])
    decreases |tokens|
  {
    if tokens == [] then [] else [e.stripEnumPrefix(tokens[0])] + StripAll(e, tokens[1..])
  }
}
