/**
 * The configuration records the controller reads (the `Sources`, `Cutouts`
 * and `Outputs` types of the server's api module), as immutable values.
 */
module Api {

  /** Where a source's pictures come from. `OtherInput` is any input type tag the code does not know. */
  datatype SourceInput =
    | MediaInput(file: string)
    | DecklinkInput(device: int, format: string)
    | OtherInput(typeName: string)

  /** A video feed: native size in pixels and the rotation (degrees) it was recorded with. */
  datatype Source = Source(title: string, width: real, height: real, rotation: real, input: SourceInput)

  /** A crop rectangle in the upright view space of source `source`, and the rotation to place it with. */
  datatype Cutout = Cutout(source: string, x: real, y: real, width: real, height: real, outputRotation: real)

  /** A cutout placed in an output: offset (x, y) and uniform scale. */
  datatype CutoutInOutput = CutoutInOutput(cutoutId: string, x: real, y: real, scale: real)

  /** A render target on a CasparCG channel: one cutout, or a multiview grid of cells. */
  datatype Output =
    | CutoutOutput(casparChannel: int, width: real, height: real, cutout: CutoutInOutput)
    | MultiviewOutput(casparChannel: int, width: real, height: real, cutouts: seq<CutoutInOutput>)

  type Sources = map<string, Source>
  type Cutouts = map<string, Cutout>
}
