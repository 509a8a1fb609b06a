/** Graphical-effect components: disabled when created and switched on and
    off explicitly; the light component registers its light in the current
    scene's light system when it is created. */
module Gfx {
  import opened Geometry
  import opened Lights
  import opened Scenes
  import opened Components

  /** How a light is placed relative to its parent (`RelationMode`). */
  datatype RelationMode = Centre | OtherMode(name: string)

  class GFXComponent {
    const parent: GameObject
    const name: string
    const componentType: ComponentType
    var enabled: bool

    constructor (parent: GameObject, name: string)
      ensures this.parent == parent && this.name == name
      ensures componentType == GfxComponent && !enabled
    {
      this.parent := parent;
      this.name := name;
      componentType := GfxComponent;
      enabled := false;
    }

    method StartGFX()
      modifies this`enabled
      ensures enabled
    {
      enabled := true;
    }

    method EndGFX()
      modifies this`enabled
      ensures !enabled
    {
      enabled := false;
    }

    /** Reacts to no collision and changes nothing. */
    method OnCollision()
    {
    }
  }

  /** A GFX component whose light follows its parent. What it inherits
      from `GFXComponent` (parent, name, type, the enabled flag and
      `startGFX`/`endGFX`) lives in its `gfx` part. */
  class LightComponent {
    const gfx: GFXComponent
    const relationToParent: RelationMode
    const light: Light

    /** The part of construction that cannot fail: the inherited GFX
        set-up (disabled) and the two fields. */
    constructor Init(parent: GameObject, name: string, relationToParent: RelationMode, light: Light)
      ensures fresh(gfx) && gfx.parent == parent && gfx.name == name
      ensures gfx.componentType == GfxComponent && !gfx.enabled
      ensures this.relationToParent == relationToParent && this.light == light
    {
      gfx := new GFXComponent(parent, name);
      this.relationToParent := relationToParent;
      this.light := light;
    }

    /** `new LightComponent(parent, name, relationToParent, light)`: `null`
        stands for the exception thrown when the current scene has no light
        system, in which case no light is added anywhere. */
    static method New(manager: SceneManager, parent: GameObject, name: string,
                      relationToParent: RelationMode, light: Light) returns (c: LightComponent?)
      modifies manager.currentScene.lightSystem
      ensures manager.currentScene.lightSystem == null <==> c == null
      ensures c != null ==>
                fresh(c) && fresh(c.gfx) && c.gfx.parent == parent && c.gfx.name == name
                && !c.gfx.enabled && c.gfx.componentType == GfxComponent
                && c.relationToParent == relationToParent && c.light == light
                && manager.currentScene.lightSystem.lights
                   == old(manager.currentScene.lightSystem.lights) + [light]
    {
      var lightSystem := manager.currentScene.lightSystem;
      if lightSystem == null {
        return null;
      }
      c := new LightComponent.Init(parent, name, relationToParent, light);
      var ok := c.AddToLightSystem(manager);
    }

    /** `addToLightSystem`: appends this component's light to the light
        system of the scene that is current NOW; `ok` false stands for the
        exception thrown when that scene has none. Called again, it appends
        the light once more. */
    method AddToLightSystem(manager: SceneManager) returns (ok: bool)
      modifies manager.currentScene.lightSystem
      ensures ok <==> manager.currentScene.lightSystem != null
      ensures ok ==> manager.currentScene.lightSystem.lights
                     == old(manager.currentScene.lightSystem.lights) + [light]
    {
      var lightSystem := manager.currentScene.lightSystem;
      if lightSystem == null {
        return false;
      }
      lightSystem.AddLight(light);
      ok := true;
    }

    /** `new LightComponent(parent, name, light)`: relation mode `CENTRE`. */
    static method NewWithLight(manager: SceneManager, parent: GameObject, name: string,
                               light: Light) returns (c: LightComponent?)
      modifies manager.currentScene.lightSystem
      ensures manager.currentScene.lightSystem == null <==> c == null
      ensures c != null ==>
                fresh(c) && fresh(c.gfx) && c.gfx.parent == parent && !c.gfx.enabled && c.relationToParent == Centre && c.light == light
                && manager.currentScene.lightSystem.lights
                   == old(manager.currentScene.lightSystem.lights) + [light]
    {
      c := New(manager, parent, name, Centre, light);
    }

    /** `new LightComponent(parent, name, relationToParent)`: a point light
        on the parent's transform. */
    static method NewWithRelation(manager: SceneManager, parent: GameObject, name: string,
                                  relationToParent: RelationMode) returns (c: LightComponent?)
      modifies manager.currentScene.lightSystem
      ensures manager.currentScene.lightSystem == null <==> c == null
      ensures c != null ==>
                fresh(c) && fresh(c.gfx) && c.gfx.parent == parent && !c.gfx.enabled && c.relationToParent == relationToParent
                && fresh(c.light) && c.light.kind == PointLight && c.light.transform == parent.transform
                && manager.currentScene.lightSystem.lights
                   == old(manager.currentScene.lightSystem.lights) + [c.light]
    {
      var light := new Light(PointLight, parent.transform);
      c := New(manager, parent, name, relationToParent, light);
    }

    /** `new LightComponent(parent, name)`: relation mode `CENTRE` and a
        point light on the parent's transform. */
    static method NewDefault(manager: SceneManager, parent: GameObject, name: string)
      returns (c: LightComponent?)
      modifies manager.currentScene.lightSystem
      ensures manager.currentScene.lightSystem == null <==> c == null
      ensures c != null ==>
                fresh(c) && fresh(c.gfx) && c.gfx.parent == parent && !c.gfx.enabled && c.relationToParent == Centre
                && fresh(c.light) && c.light.kind == PointLight && c.light.transform == parent.transform
                && manager.currentScene.lightSystem.lights
                   == old(manager.currentScene.lightSystem.lights) + [c.light]
    {
      var light := new Light(PointLight, parent.transform);
      c := New(manager, parent, name, Centre, light);
    }

    /** Draws nothing and changes nothing. */
    method Draw()
    {
    }

    /** Moves the light to where the relation rule puts it relative to the
        parent (`positionRelativeTo` is a collaborator, passed in); its size
        and brightness stay as they are. */
    method OnFixedTick(positionRelativeTo: (RelationMode, Transform, Transform) -> Vec)
      modifies light
      ensures light.transform
              == old(light.transform).WithPosition(positionRelativeTo(relationToParent, gfx.parent.transform, old(light.transform)))
      ensures light.brightness == old(light.brightness)
    {
      var p := positionRelativeTo(relationToParent, gfx.parent.transform, light.transform);
      light.transform := light.transform.WithPosition(p);
    }
  }
}
