/** Lights and the per-scene light system they are registered in. Only the
    state the components touch is modelled: a light's transform and
    brightness, and the light system's list of lights. */
module Lights {
  import opened Geometry

  /** Which concrete light class an instance belongs to. */
  datatype LightKind = PointLight | OtherLight(className: string)

  /** The brightness every light starts with: `.35f`. */
  const DEFAULT_BRIGHTNESS: real := 0.35

  class Light {
    const kind: LightKind
    var transform: Transform
    var brightness: real

    constructor (kind: LightKind, transform: Transform)
      ensures this.kind == kind && this.transform == transform
      ensures brightness == DEFAULT_BRIGHTNESS
    {
      this.kind := kind;
      this.transform := transform;
      brightness := DEFAULT_BRIGHTNESS;
    }
  }

  /** The light system of a scene: the lights the render pass iterates. */
  class LightSystem {
    var lights: seq<Light>

    constructor ()
      ensures lights == []
    {
      lights := [];
    }

    method AddLight(light: Light)
      modifies this
      ensures lights == old(lights) + [light]
    {
      lights := lights + [light];
    }
  }
}
