/** The scene registry and the single active scene. The process-wide static
    state of `SceneManager` is an explicit manager object here; Java
    reflection (`getConstructor(argTypes).newInstance(args)`) is the set of
    constructor signatures that succeed. */
module Scenes {
  import opened Geometry
  import opened Lights

  /** The name of a Java class. */
  type ClassName = string

  /** A scene class (`Class<? extends Scene>`). */
  datatype SceneClass = SceneClass(className: ClassName)

  /** The class of the placeholder scene installed at start-up. */
  const DUMMY_SCENE: SceneClass := SceneClass("testing.dummys.DummyScene")

  /** The name recorded when a scene instance is installed without one. */
  const ANONYMOUS_SCENE: string := "custom"

  /** A constructor argument: `null`, or an object of some runtime class. */
  datatype Arg = Null | Obj(runtimeClass: ClassName, id: nat)

  /** A constructor looked up by class and exact parameter types. */
  datatype Signature = Signature(sceneClass: SceneClass, argTypes: seq<ClassName>)

  /** Why installing a scene by name failed: `args[index].getClass()` on a
      null argument, or a reflective construction that did not succeed. */
  datatype Failure = NullArgument(index: nat) | ConstructionFailed(signature: Signature)

  datatype Outcome = Installed | NoSceneLoaded | Failed(failure: Failure)

  /** What `setCurrentScene(name, args)` decides to do. */
  datatype Resolution = Construct(signature: Signature) | Reject(failure: Failure)

  class Scene {
    const sceneClass: SceneClass
    const constructorArgs: seq<Arg>
    var lightSystem: LightSystem?

    constructor (sceneClass: SceneClass, args: seq<Arg>)
      ensures this.sceneClass == sceneClass && constructorArgs == args
      ensures lightSystem == null
    {
      this.sceneClass := sceneClass;
      constructorArgs := args;
      lightSystem := null;
    }

    method SetLightSystem(lightSystem: LightSystem?)
      modifies this`lightSystem
      ensures this.lightSystem == lightSystem
    {
      this.lightSystem := lightSystem;
    }
  }

  /** The index of the first null argument, or `|args|` if there is none. */
  function FirstNull(args: seq<Arg>): (k: nat)
    ensures k <= |args|
    ensures forall j :: 0 <= j < k ==> args[j].Obj?
    ensures k < |args| ==> args[k] == Null
  {
    if args == [] then 0
    else if args[0] == Null then 0
    else 1 + FirstNull(args[1..])
  }

  /** The runtime classes of non-null arguments, in order. */
  function RuntimeTypes(args: seq<Arg>): (types: seq<ClassName>)
    requires forall i :: 0 <= i < |args| ==> args[i].Obj?
    ensures |types| == |args|
  {
    seq(|args|, i requires 0 <= i < |args| => args[i].runtimeClass)
  }

  /** The class `setCurrentScene(name, ...)` instantiates: the registered one,
      or, silently, the class of the scene that is current. */
  function TargetClass(scenes: map<string, SceneClass>, current: SceneClass, name: string): SceneClass
  {
    if name in scenes then scenes[name] else current
  }

  function Resolve(scenes: map<string, SceneClass>, current: SceneClass,
                   constructors: set<Signature>, name: string, args: seq<Arg>): (r: Resolution)
    ensures r.Construct? <==> FirstNull(args) == |args| && Signature(TargetClass(scenes, current, name), RuntimeTypes(args)) in constructors
    ensures r.Construct? ==>
              r.signature.sceneClass == TargetClass(scenes, current, name) && r.signature.argTypes == RuntimeTypes(args)
    ensures r.Reject? && FirstNull(args) < |args| ==> r.failure == NullArgument(FirstNull(args))
  {
    var k := FirstNull(args);
    if k < |args| then Reject(NullArgument(k))
    else
      var signature := Signature(TargetClass(scenes, current, name), RuntimeTypes(args));
      if signature in constructors then Construct(signature) else Reject(ConstructionFailed(signature))
  }

  function OutcomeOf(r: Resolution): Outcome
  {
    match r
    case Construct(_) => Installed
    case Reject(f) => Failed(f)
  }

  /** Fills the `argTypes` array with the runtime class of each argument;
      a null argument throws before anything is installed. */
  method ArgTypesOf(args: seq<Arg>) returns (types: seq<ClassName>, nullAt: Option<nat>)
    ensures nullAt == (if FirstNull(args) < |args| then Some(FirstNull(args)) else None)
    ensures nullAt.None? ==> types == RuntimeTypes(args)
  {
    var argTypes := new ClassName[|args|];
    var i := 0;
    while i < argTypes.Length
      invariant 0 <= i <= argTypes.Length == |args|
      invariant forall j :: 0 <= j < i ==> args[j].Obj? && argTypes[j] == args[j].runtimeClass
    {
      if args[i] == Null {
        FirstNullIs(args, i);
        return [], Some(i);
      }
      argTypes[i] := args[i].runtimeClass;
      i := i + 1;
    }
    FirstNullIs(args, i);
    types, nullAt := argTypes[..], None;
  }

  /** The first null argument is at `k` exactly when every argument before
      `k` is an object and `args[k]` is null (or `k` is the end). */
  lemma FirstNullIs(args: seq<Arg>, k: nat)
    requires k <= |args|
    requires forall j :: 0 <= j < k ==> args[j].Obj?
    requires k < |args| ==> args[k] == Null
    ensures FirstNull(args) == k
  {
  }

  class SceneManager {
    var currentScene: Scene
    var currentSceneName: Option<string>
    var scenes: map<string, SceneClass>
    /** The constructor signatures that reflection can look up and invoke. */
    const constructors: set<Signature>

    /** Start-up state: the placeholder scene, no name, an empty registry. */
    constructor (constructors: set<Signature>)
      ensures fresh(currentScene) && currentScene.sceneClass == DUMMY_SCENE
      ensures currentScene.constructorArgs == [] && currentScene.lightSystem == null
      ensures currentSceneName == None && scenes == map[]
      ensures this.constructors == constructors
    {
      currentScene := new Scene(DUMMY_SCENE, []);
      currentSceneName := None;
      scenes := map[];
      this.constructors := constructors;
    }

    method GetCurrentScene() returns (scene: Scene)
      ensures scene == currentScene
    {
      scene := currentScene;
    }

    /** Registers a class under `name`, replacing any previous entry. */
    method AddScene(name: string, sceneClass: SceneClass)
      modifies this`scenes
      ensures scenes == old(scenes)[name := sceneClass]
    {
      scenes := scenes[name := sceneClass];
    }

    /** Registers the class of `scene`, not the instance. */
    method AddSceneInstance(name: string, scene: Scene)
      modifies this`scenes
      ensures scenes == old(scenes)[name := scene.sceneClass]
    {
      AddScene(name, scene.sceneClass);
    }

    /** The effect of `setCurrentScene(name, args)` between two states. */
    twostate predicate SetByNameEffect(name: string, args: seq<Arg>, outcome: Outcome)
      reads this
    {
      var r := Resolve(old(scenes), old(currentScene).sceneClass, constructors, name, args);
      && outcome == OutcomeOf(r)
      && scenes == old(scenes)
      && (if r.Construct?
          then fresh(currentScene) && currentScene.sceneClass == r.signature.sceneClass
               && currentScene.constructorArgs == args && currentSceneName == Some(name)
          else currentScene == old(currentScene) && currentSceneName == old(currentSceneName))
    }

    /** Installs a fresh instance of the class registered under `name` (or of
        the current scene's class when `name` is not registered), built from
        `args`, and records `name` even when it is not registered. A failed
        construction changes nothing. */
    method SetCurrentScene(name: string, args: seq<Arg>) returns (outcome: Outcome)
      modifies this`currentScene, this`currentSceneName
      ensures SetByNameEffect(name, args, outcome)
    {
      var argTypes, nullAt := ArgTypesOf(args);
      if nullAt.Some? {
        return Failed(NullArgument(nullAt.value));
      }
      // The fallback class is that of the scene current BEFORE the swap.
      var signature := Signature(TargetClass(scenes, currentScene.sceneClass, name), argTypes);
      if signature !in constructors {
        return Failed(ConstructionFailed(signature));
      }
      currentScene := new Scene(signature.sceneClass, args);
      currentSceneName := Some(name);
      outcome := Installed;
    }

    /** Installs `scene` under the anonymous name; the registry is untouched. */
    method SetCurrentSceneInstance(scene: Scene)
      modifies this`currentScene, this`currentSceneName
      ensures currentScene == scene && currentSceneName == Some(ANONYMOUS_SCENE)
    {
      currentScene := scene;
      currentSceneName := Some(ANONYMOUS_SCENE);
    }

    /** Installs `scene` under a temporary name; the registry is untouched. */
    method SetCurrentSceneNamed(scene: Scene, tmpName: string)
      modifies this`currentScene, this`currentSceneName
      ensures currentScene == scene && currentSceneName == Some(tmpName)
    {
      currentScene := scene;
      currentSceneName := Some(tmpName);
    }

    /** With no name recorded, only a warning; otherwise exactly
        `setCurrentScene(currentSceneName, args)`. */
    method ReloadCurrentScene(args: seq<Arg>) returns (outcome: Outcome)
      modifies this`currentScene, this`currentSceneName
      ensures old(currentSceneName) == None ==>
                outcome == NoSceneLoaded
                && currentScene == old(currentScene) && currentSceneName == None
      ensures old(currentSceneName).Some? ==> SetByNameEffect(old(currentSceneName).value, args, outcome)
    {
      if currentSceneName == None {
        outcome := NoSceneLoaded;
      } else {
        outcome := SetCurrentScene(currentSceneName.value, args);
      }
    }

    /** Deregisters `name`; the current scene and name stay as they are. */
    method RemoveScene(name: string)
      modifies this`scenes
      ensures scenes == old(scenes) - {name}
    {
      scenes := scenes - {name};
    }
  }

  /** After `addScene(name, cls)`, `setCurrentScene(name, args)` with
      non-null arguments constructs `cls` from exactly the runtime classes of
      `args`, whatever the current scene is. */
  lemma AddedNameIsInstantiated(scenes: map<string, SceneClass>, current: SceneClass,
                                constructors: set<Signature>, name: string,
                                cls: SceneClass, args: seq<Arg>)
    requires forall i :: 0 <= i < |args| ==> args[i].Obj?
    requires Signature(cls, RuntimeTypes(args)) in constructors
    ensures Resolve(scenes[name := cls], current, constructors, name, args)
            == Construct(Signature(cls, RuntimeTypes(args)))
  {
    FirstNullIs(args, |args|);
  }

  /** An unregistered name re-instantiates the current scene's class, and a
      successful swap still records the unregistered name. */
  lemma UnregisteredNameFallsBack(scenes: map<string, SceneClass>, current: SceneClass,
                                  constructors: set<Signature>, name: string, args: seq<Arg>)
    requires name !in scenes
    requires forall i :: 0 <= i < |args| ==> args[i].Obj?
    requires Signature(current, RuntimeTypes(args)) in constructors
    ensures Resolve(scenes, current, constructors, name, args)
            == Construct(Signature(current, RuntimeTypes(args)))
  {
    FirstNullIs(args, |args|);
  }

  /** The argument types are looked up in the order and number of `args`. */
  lemma ArgTypesFollowArgs(args: seq<Arg>, i: nat)
    requires forall j :: 0 <= j < |args| ==> args[j].Obj?
    requires i < |args|
    ensures |RuntimeTypes(args)| == |args| && RuntimeTypes(args)[i] == args[i].runtimeClass
  {
  }

  /** Removing some other name does not change what a name resolves to. */
  lemma RemoveOtherKeepsResolution(scenes: map<string, SceneClass>, current: SceneClass,
                                   constructors: set<Signature>, name: string,
                                   other: string, args: seq<Arg>)
    requires other != name
    ensures Resolve(scenes - {other}, current, constructors, name, args)
            == Resolve(scenes, current, constructors, name, args)
  {
  }
}
