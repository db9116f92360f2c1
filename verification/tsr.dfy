/**
 * The shapes the controller hands to the timeline-state-resolver library:
 * CasparCG mixer parameters, layer mappings and timeline objects.
 */
module Tsr {
  import opened Wrappers
  import opened Geometry

  datatype Transition = Transition(easing: string, duration: real)

  /** The four corners of a CasparCG `perspective`, each in channel units (0..1 spans the channel). */
  datatype Perspective = Perspective(topLeft: Point, topRight: Point, bottomRight: Point, bottomLeft: Point)

  /** An axis-aligned CasparCG `clip` rectangle. */
  datatype Clip = Clip(x: real, y: real, width: real, height: real)

  /** A mixer payload; an absent property is None, as an absent key of the JavaScript object. */
  datatype Mixer = Mixer(
    inTransition: Transition,
    changeTransition: Transition,
    perspective: Option<Perspective>,
    clip: Option<Clip>)

  datatype DeviceType = CASPARCG

  /** A layer mapping: which device, channel and numeric layer a layer key plays on. */
  datatype Mapping = Mapping(device: DeviceType, deviceId: string, channel: int, layer: int)

  /** The `enable` of a timeline object; every object built here has `{while: 1}`. */
  datatype Enable = EnableWhile(condition: int)

  /** The CasparCG content of a timeline object (its `deviceType` is always CASPARCG). */
  datatype Content =
    | MediaContent(file: string, loop: bool, mixer: Option<Mixer>)
    | InputContent(device: int, deviceFormat: string, inputType: string, mixer: Option<Mixer>)
    | RouteContent(mappedLayer: string, mixer: Option<Mixer>)

  datatype TimelineObject = TimelineObject(id: string, layer: string, enable: Enable, content: Content)
}
