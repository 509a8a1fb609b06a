# salty-engine core, modelled in Dafny

A model of the core of the salty-engine 2D game engine (Java), with proofs
about it. Covered:

- the scene manager: a name-to-scene-class registry, one active scene, a
  nullable current name, and swapping by name with a reflective constructor
  lookup;
- collision type dispatch in the hitbox collider;
- the per-tick components: the middle-point recalculation, the GFX on/off
  flag, and the light component that registers its light with the current
  scene's light system;
- the text renderer's greedy word wrap behind a recalculation cache flag,
  and the typewriter reveal of the text box;
- the mutable fluent `Vector2f`;
- the shape factory, `drawAtZero`, and the triangle shape with its
  bounding transform.

Modelling choices:

- Java `float` values are modelled as `real`.
- The static state of `SceneManager` is an explicit `SceneManager` object.
- Reflection (`getConstructor(argTypes).newInstance(args)`) is modelled as
  the set of constructor signatures that can be found and invoked.
- Collaborators whose code is not part of this model are passed in as
  functions. These are:
  - font metrics (`stringWidth`);
  - `String.split`;
  - `Hitbox.collides`;
  - `Transform.getRelation`;
  - `TransformRelationUtils.positionRelativeTo`.
- `Transform` is not part of this model. Its accessors are assumed to be
  plain arithmetic on its fields: `getMaxX()` is x + width, `getMaxY()` is
  y + height, and `getCentre()` is (x + width / 2, y + height / 2). The
  middle point, the triangle points of `createShape` and the half-width
  finding depend on this.
- A Java exception is a result value:
  - an `Outcome` from the scene manager;
  - `null` from the light-component constructors;
  - `None` from `draw` and `getPoint`;
  - `false` from the text box tick;
  - `false` from `addToLightSystem`.
- Java inheritance becomes composition. A `LightComponent` holds its
  `GFXComponent` part and a `TriangleShape` holds its `SaltyShape` part.

The modules follow the engine's classes:

- `Scenes`: `SceneManager`.
- `Colliders`: `HitboxCollider`.
- `Components`: `RecalculateMiddleComponent`.
- `Gfx`: `GFXComponent` and `LightComponent`.
- `TextLayout` and `TextRender`: `TextRenderComponent`. `TextLayout` holds
  its word wrap as functions, and `TextRender` holds the component.
- `TextBoxes`: `TextBox`.
- `Vectors`: `Vector2f`.
- `Shapes`: `SaltyShape` and `TriangleShape`.

`Geometry` and `Lights` hold the shared values and the light state the
components touch.

The empty `draw`, `onCollision` and `onFixedTick` methods of the components
are methods with empty bodies and no `modifies` clause. Their contract is
that they change nothing.

## Model

| member | source | states |
|---|---|---|
| Scenes.FirstNull | src/main/java/de/edgelord/saltyengine/scene/SceneManager.java:117-121 | the index of the first null argument (or the length): every argument before it is an object, the one at it is null |
| Scenes.RuntimeTypes | src/main/java/de/edgelord/saltyengine/scene/SceneManager.java:117-121 | one class per argument, as many as there are arguments |
| Scenes.ArgTypesOf | src/main/java/de/edgelord/saltyengine/scene/SceneManager.java:117-121 | the array loop fills in each argument's runtime class in order, and reports the first null argument (where `getClass()` throws) exactly when there is one |
| Scenes.FirstNullIs | src/main/java/de/edgelord/saltyengine/scene/SceneManager.java:119-121 | the loop's exit point is the first null argument |
| Scenes.ArgTypesFollowArgs | src/main/java/de/edgelord/saltyengine/scene/SceneManager.java:117-121 | the looked-up parameter types have the length and order of the arguments |
| Scenes.Resolve | src/main/java/de/edgelord/saltyengine/scene/SceneManager.java:117-124 | a scene is constructed exactly when no argument is null and the constructor (target class, runtime types) exists; the target is the registered class, or else the current scene's class; a null argument is reported at its index |
| Scenes.SceneManager.constructor | src/main/java/de/edgelord/saltyengine/scene/SceneManager.java:48-53 | start-up state: the placeholder `DummyScene`, no current name, an empty registry |
| Scenes.SceneManager.GetCurrentScene | src/main/java/de/edgelord/saltyengine/scene/SceneManager.java:55-57 | returns the current scene |
| Scenes.SceneManager.AddScene | src/main/java/de/edgelord/saltyengine/scene/SceneManager.java:59-61 | maps the name to the class, replacing any earlier entry; nothing else changes |
| Scenes.SceneManager.AddSceneInstance | src/main/java/de/edgelord/saltyengine/scene/SceneManager.java:63-65 | registers the instance's class, not the instance |
| Scenes.SceneManager.SetCurrentScene | src/main/java/de/edgelord/saltyengine/scene/SceneManager.java:115-125 | on success, a fresh instance of the resolved class built from the arguments becomes current and the name is recorded even when unregistered; on a null argument or a failed construction the current scene and name stay unchanged; the registry never changes |
| Scenes.SceneManager.SetCurrentSceneInstance | src/main/java/de/edgelord/saltyengine/scene/SceneManager.java:132-135 | installs the given scene under the name `"custom"`; registry untouched |
| Scenes.SceneManager.SetCurrentSceneNamed | src/main/java/de/edgelord/saltyengine/scene/SceneManager.java:145-148 | installs the given scene under the temporary name; registry untouched |
| Scenes.SceneManager.ReloadCurrentScene | src/main/java/de/edgelord/saltyengine/scene/SceneManager.java:175-181 | with no current name nothing changes (only a warning); otherwise exactly the effect of `setCurrentScene(currentSceneName, args)` |
| Scenes.SceneManager.RemoveScene | src/main/java/de/edgelord/saltyengine/scene/SceneManager.java:183-185 | removes only that key; current scene and name untouched |
| Scenes.AddedNameIsInstantiated | src/main/java/de/edgelord/saltyengine/scene/SceneManager.java:123-124 | after `addScene(name, cls)`, setting `name` with non-null arguments constructs `cls` from their runtime classes, whatever is current |
| Scenes.UnregisteredNameFallsBack | src/main/java/de/edgelord/saltyengine/scene/SceneManager.java:123-124 | an unregistered name silently re-instantiates the current scene's class |
| Scenes.RemoveOtherKeepsResolution | src/main/java/de/edgelord/saltyengine/scene/SceneManager.java:183-185 | removing a different name does not change what a name resolves to |
| Colliders.NewHitboxCollider | src/main/java/de/edgelord/saltyengine/components/collider/HitboxCollider.java:35-37 | a new hitbox collider carries the hitbox type tag |
| Colliders.RequestCollision | src/main/java/de/edgelord/saltyengine/components/collider/HitboxCollider.java:40-51 | false when the other collider is not a hitbox collider; otherwise exactly the parent hitbox's `collides(other)` |
| Colliders.CollisionDirection | src/main/java/de/edgelord/saltyengine/components/collider/HitboxCollider.java:54-56 | the relation of the own hitbox's transform to the other's (its partner is `DirectionIgnoresColliders`) |
| Colliders.UnhandledTypesNeverCollide | src/main/java/de/edgelord/saltyengine/components/collider/HitboxCollider.java:44-50 | every non-hitbox tag yields false, and the answer does not depend on the own collider |
| Colliders.DirectionIgnoresColliders | src/main/java/de/edgelord/saltyengine/components/collider/HitboxCollider.java:54-56 | the collision direction depends only on the two hitbox transforms |
| Components.Middle | src/main/java/de/edgelord/saltyengine/components/RecalculateMiddleComponent.java:42-46 | the middle is the transform's centre, position plus half the size, and lies inside a transform of non-negative size |
| Components.MiddleExample | src/main/java/de/edgelord/saltyengine/components/RecalculateMiddleComponent.java:42-46 | position (10, 20) and size (4, 6) give the middle (12, 23) |
| Components.RecalculateMiddleComponent.constructor | src/main/java/de/edgelord/saltyengine/components/RecalculateMiddleComponent.java:18-23 | core component type; `exactMiddle` is a fresh (0, 0) |
| Components.RecalculateMiddleComponent.OnFixedTick | src/main/java/de/edgelord/saltyengine/components/RecalculateMiddleComponent.java:26-30 | `exactMiddle` holds the parent's middle and the parent's middle IS that same object; only these change |
| Components.RecalculateMiddleComponent.CalculateMiddle | src/main/java/de/edgelord/saltyengine/components/RecalculateMiddleComponent.java:42-46 | updates `exactMiddle` in place to the parent's middle |
| Components.RecalculateMiddleComponent.Draw | src/main/java/de/edgelord/saltyengine/components/RecalculateMiddleComponent.java:32-35 | empty body, no `modifies`: drawing changes nothing |
| Components.RecalculateMiddleComponent.OnCollision | src/main/java/de/edgelord/saltyengine/components/RecalculateMiddleComponent.java:37-40 | empty body, no `modifies`: a collision changes nothing |
| Gfx.GFXComponent.constructor | src/main/java/de/edgelord/saltyengine/components/gfx/GFXComponent.java:43-47 | GFX type, and disabled |
| Gfx.GFXComponent.StartGFX | src/main/java/de/edgelord/saltyengine/components/gfx/GFXComponent.java:59-61 | afterwards enabled, whatever it was; only the flag changes |
| Gfx.GFXComponent.EndGFX | src/main/java/de/edgelord/saltyengine/components/gfx/GFXComponent.java:63-65 | afterwards disabled, whatever it was; only the flag changes |
| Gfx.GFXComponent.OnCollision | src/main/java/de/edgelord/saltyengine/components/gfx/GFXComponent.java:54-57 | empty body, no `modifies`: a collision changes nothing |
| Scenes.Scene.SetLightSystem | src/main/java/de/edgelord/saltyengine/components/gfx/LightComponent.java:58-60 | gives the scene the light system that a light component needs (the remedy the exception message names); only that field changes |
| Gfx.LightComponent.Init | src/main/java/de/edgelord/saltyengine/components/gfx/LightComponent.java:25-29 | the inherited GFX set-up (disabled) plus the light and relation mode |
| Gfx.LightComponent.New | src/main/java/de/edgelord/saltyengine/components/gfx/LightComponent.java:25-32 | fails (no component, nothing added) exactly when the current scene has no light system; otherwise the component is disabled, holds the given light and relation mode, and its light is appended to that light system |
| Gfx.LightComponent.AddToLightSystem | src/main/java/de/edgelord/saltyengine/components/gfx/LightComponent.java:55-63 | fails exactly when the scene current at the call has no light system; otherwise appends the light to it, once more on every call |
| Gfx.LightComponent.NewWithLight | src/main/java/de/edgelord/saltyengine/components/gfx/LightComponent.java:34-36 | as `New`, with relation mode `CENTRE` |
| Gfx.LightComponent.NewWithRelation | src/main/java/de/edgelord/saltyengine/components/gfx/LightComponent.java:38-40 | as `New`, with a fresh point light on the parent's transform |
| Gfx.LightComponent.NewDefault | src/main/java/de/edgelord/saltyengine/components/gfx/LightComponent.java:42-44 | as `New`, with `CENTRE` and a fresh point light on the parent's transform |
| Gfx.LightComponent.Draw | src/main/java/de/edgelord/saltyengine/components/gfx/LightComponent.java:46-48 | empty body, no `modifies`: drawing changes nothing |
| Gfx.LightComponent.OnFixedTick | src/main/java/de/edgelord/saltyengine/components/gfx/LightComponent.java:50-53 | moves the light where the relation rule puts it relative to the parent; size and brightness unchanged |
| Lights.Light.constructor | src/main/java/de/edgelord/saltyengine/cosmetic/light/Light.java:40-49 | a light starts on the given transform with brightness 0.35 |
| TextLayout.WrapKeepsWords | src/main/java/de/edgelord/saltyengine/components/TextRenderComponent.java:62-76 | the lines hold the words in their original order, and concatenated they are every word followed by the separator |
| TextLayout.WrapHasALine | src/main/java/de/edgelord/saltyengine/components/TextRenderComponent.java:76 | there is always at least one line |
| TextLayout.WrapIsGreedy | src/main/java/de/edgelord/saltyengine/components/TextRenderComponent.java:62-74 | a line is begun only when its first word did not fit after the previous line; the first line and every line of two or more words fit the line length |
| TextLayout.FirstGroupEmpty | src/main/java/de/edgelord/saltyengine/components/TextRenderComponent.java:59-69 | the first line has no words exactly when there are no words or the first word alone is wider than the line |
| TextLayout.FirstLineEmpty | src/main/java/de/edgelord/saltyengine/components/TextRenderComponent.java:59-76 | with a non-empty separator, the first line is `""` exactly in those cases |
| TextRender.Leading | src/main/java/de/edgelord/saltyengine/components/TextRenderComponent.java:34 | the leading of a font: its size times 1.3 (stated by the constructor's and `SetFont`'s contracts) |
| TextRender.Placed | src/main/java/de/edgelord/saltyengine/components/TextRenderComponent.java:81-86 | line i is drawn at x = parent x + offset x and y = parent y + offset y + i * leading |
| TextRender.PlacedSpacing | src/main/java/de/edgelord/saltyengine/components/TextRenderComponent.java:81-86 | consecutive lines are exactly one leading apart |
| TextRender.TextRenderComponent.constructor | src/main/java/de/edgelord/saltyengine/components/TextRenderComponent.java:33-47 | render component type, default font and its leading (size * 1.3), no text, no lines, separator `" "`, recalculation pending |
| TextRender.TextRenderComponent.Recalculate | src/main/java/de/edgelord/saltyengine/components/TextRenderComponent.java:59-76 | the loop builds exactly the greedy wrap of the words |
| TextRender.TextRenderComponent.Draw | src/main/java/de/edgelord/saltyengine/components/TextRenderComponent.java:50-87 | recomputes the lines only when `recalculate` is set (clearing it), otherwise keeps them, and draws every line at its place; with no text set the lines are cleared and the draw fails |
| TextRender.TextRenderComponent.OnFixedTick | src/main/java/de/edgelord/saltyengine/components/TextRenderComponent.java:89-92 | empty body, no `modifies`: a tick changes nothing |
| TextRender.TextRenderComponent.OnCollision | src/main/java/de/edgelord/saltyengine/components/TextRenderComponent.java:94-97 | empty body, no `modifies`: a collision changes nothing |
| TextRender.TextRenderComponent.SetText | src/main/java/de/edgelord/saltyengine/components/TextRenderComponent.java:99-102 | sets the text and asks for recalculation |
| TextRender.TextRenderComponent.SetFont | src/main/java/de/edgelord/saltyengine/components/TextRenderComponent.java:108-111 | sets the font and its leading (size * 1.3); does not ask for recalculation |
| TextRender.TextRenderComponent.SetWordSeparator | src/main/java/de/edgelord/saltyengine/components/TextRenderComponent.java:121-123 | sets only the separator; does not ask for recalculation |
| TextRender.TextRenderComponent.SetOffset | src/main/java/de/edgelord/saltyengine/components/TextRenderComponent.java:129-131 | sets only the offset |
| TextRender.TextRenderComponent.SetLineLength | src/main/java/de/edgelord/saltyengine/components/TextRenderComponent.java:137-139 | sets only the line length; does not ask for recalculation |
| TextBoxes.Round | src/main/java/de/edgelord/saltyengine/ui/elements/TextBox.java:49 | `Math.round`: the nearest integer, halves up |
| TextBoxes.Revealed | src/main/java/de/edgelord/saltyengine/ui/elements/TextBox.java:48-49 | while the cursor is inside the text, a prefix of the text of length round(cursor); nothing once it has reached the end |
| TextBoxes.RoundMonotonic | src/main/java/de/edgelord/saltyengine/ui/elements/TextBox.java:49 | rounding is monotonic |
| TextBoxes.RevealGrows | src/main/java/de/edgelord/saltyengine/ui/elements/TextBox.java:47-52 | with a non-negative speed each revealed prefix extends the previous one |
| TextBoxes.TextBox.constructor | src/main/java/de/edgelord/saltyengine/ui/elements/TextBox.java:39-44 | the renderer gets line length width − offsetX and offset (offsetX, offsetY); cursor 1, speed 0.075 |
| TextBoxes.TextBox.OnFixedTick | src/main/java/de/edgelord/saltyengine/ui/elements/TextBox.java:46-52 | the cursor advances by exactly `speed`; while it was inside the text the renderer receives the revealed prefix, afterwards its text is left alone; a negative rounded cursor makes `substring` throw and nothing changes |
| TextBoxes.TextBox.Start | src/main/java/de/edgelord/saltyengine/ui/elements/TextBox.java:58-60 | the cursor is reset to 1 |
| TextBoxes.TextBox.StartWith | src/main/java/de/edgelord/saltyengine/ui/elements/TextBox.java:62-65 | sets the text and resets the cursor to 1 |
| TextBoxes.TextBox.SetText | src/main/java/de/edgelord/saltyengine/ui/elements/TextBox.java:67-71 | sets the text and resets the cursor to 1 |
| TextBoxes.TextBox.SetFont | src/main/java/de/edgelord/saltyengine/ui/elements/TextBox.java:73-77 | forwards the font to the renderer |
| TextBoxes.TextBox.SetSpeed | src/main/java/de/edgelord/saltyengine/ui/elements/TextBox.java:83-85 | sets the speed |
| Vectors.ToInt | src/main/java/de/edgelord/saltyengine/transform/Vector2f.java:129-132 | Java's `(int)` cast: truncation toward zero, saturating at the `int` bounds |
| Vectors.SubtractUndoesAdd | src/main/java/de/edgelord/saltyengine/transform/Vector2f.java:85-90 | subtracting undoes adding the same amounts, and the other way round |
| Vectors.DivideUndoesMultiply | src/main/java/de/edgelord/saltyengine/transform/Vector2f.java:96-112 | dividing by a vector with no zero component undoes multiplying by it |
| Vectors.ConvertParseRoundTrip | src/main/java/de/edgelord/saltyengine/transform/Vector2f.java:129-138 | converting to coordinates and parsing back gives integral components, and is the identity on integral vectors in `int` range |
| Vectors.TruncateIntegral | src/main/java/de/edgelord/saltyengine/transform/Vector2f.java:129-132 | a cast of an integral value in range is exact |
| Vectors.Vector2f.constructor | src/main/java/de/edgelord/saltyengine/transform/Vector2f.java:26-29 | the components are the given values |
| Vectors.Vector2f.Copy | src/main/java/de/edgelord/saltyengine/transform/Vector2f.java:31-33 | the copy has the source's components |
| Vectors.Vector2f.Zero | src/main/java/de/edgelord/saltyengine/transform/Vector2f.java:35-37 | a fresh (0, 0) |
| Vectors.Vector2f.One | src/main/java/de/edgelord/saltyengine/transform/Vector2f.java:52-54 | a fresh (1, 1) |
| Vectors.Vector2f.Max | src/main/java/de/edgelord/saltyengine/transform/Vector2f.java:39-41 | a fresh (`Float.MAX_VALUE`, `Float.MAX_VALUE`) |
| Vectors.Vector2f.Min | src/main/java/de/edgelord/saltyengine/transform/Vector2f.java:43-45 | a fresh (`Float.MIN_VALUE`, `Float.MIN_VALUE`): both components positive and below 1, so it is not the most negative vector |
| Vectors.Vector2f.SetX | src/main/java/de/edgelord/saltyengine/transform/Vector2f.java:73-75 | only x changes |
| Vectors.Vector2f.SetY | src/main/java/de/edgelord/saltyengine/transform/Vector2f.java:81-83 | only y changes |
| Vectors.Vector2f.Add | src/main/java/de/edgelord/saltyengine/transform/Vector2f.java:85-90 | adds component-wise in place and returns the same object |
| Vectors.Vector2f.AddVector | src/main/java/de/edgelord/saltyengine/transform/Vector2f.java:92-94 | the scalar `add` applied to the argument's components |
| Vectors.Vector2f.Multiply | src/main/java/de/edgelord/saltyengine/transform/Vector2f.java:96-101 | multiplies component-wise in place and returns the same object |
| Vectors.Vector2f.MultiplyVector | src/main/java/de/edgelord/saltyengine/transform/Vector2f.java:103-105 | the scalar `multiply` applied to the argument's components |
| Vectors.Vector2f.Divide | src/main/java/de/edgelord/saltyengine/transform/Vector2f.java:107-112 | divides component-wise in place and returns the same object |
| Vectors.Vector2f.DivideVector | src/main/java/de/edgelord/saltyengine/transform/Vector2f.java:114-116 | the scalar `divide` applied to the argument's components |
| Vectors.Vector2f.Subtract | src/main/java/de/edgelord/saltyengine/transform/Vector2f.java:118-123 | subtracts component-wise in place and returns the same object |
| Vectors.Vector2f.SubtractVector | src/main/java/de/edgelord/saltyengine/transform/Vector2f.java:125-127 | the scalar `subtract` applied to the argument's components |
| Vectors.Vector2f.ConvertToCoordinates | src/main/java/de/edgelord/saltyengine/transform/Vector2f.java:129-132 | each component cast to `int`; the vector is not changed |
| Vectors.Vector2f.ParseCoordinates2f | src/main/java/de/edgelord/saltyengine/transform/Vector2f.java:134-138 | the components become the coordinates, widened |
| Vectors.Vector2f.Clone | src/main/java/de/edgelord/saltyengine/transform/Vector2f.java:164-166 | a distinct new vector equal to this one under `equals` |
| Vectors.Vector2f.Equals | src/main/java/de/edgelord/saltyengine/transform/Vector2f.java:141-148 | `instanceof Vector2f` and both components equal (its properties are `EqualsMeansSameValue`) |
| Vectors.EqualsMeansSameValue | src/main/java/de/edgelord/saltyengine/transform/Vector2f.java:141-148 | `equals` holds exactly for a `Vector2f` with the same components (so never for another type); reflexive and symmetric |
| Shapes.SaltyShape.constructor | src/main/java/de/edgelord/saltyengine/effect/geom/SaltyShape.java:33-46 | the given type and transform, filled |
| Shapes.SaltyShape.SetTransform | src/main/java/de/edgelord/saltyengine/effect/geom/SaltyShape.java:87-90 | sets the transform |
| Shapes.SaltyShape.SetPosition | src/main/java/de/edgelord/saltyengine/effect/geom/SaltyShape.java:104-106 | moves the transform to the given position and keeps its size |
| Shapes.SaltyShape.SetFilled | src/main/java/de/edgelord/saltyengine/effect/geom/SaltyShape.java:117-119 | sets the filled flag |
| Shapes.SaltyShape.DrawAtZero | src/main/java/de/edgelord/saltyengine/effect/geom/SaltyShape.java:102-107 | the shape is drawn with its transform moved to (0, 0), and afterwards its transform is what it was |
| Shapes.CreateShape | src/main/java/de/edgelord/saltyengine/effect/geom/SaltyShape.java:56-77 | rectangle, oval and line shapes on the given transform; a round rectangle with the first arc if one is given and the default otherwise; a triangle on (x, maxY), (centreX, y), (maxX, maxY); `null` for any other kind; every new shape is filled |
| Shapes.TrianglePoints | src/main/java/de/edgelord/saltyengine/effect/geom/SaltyShape.java:71-73 | the three triangle points `createShape` derives from a transform |
| Shapes.TriangleTransform | src/main/java/de/edgelord/saltyengine/effect/geom/TriangleShape.java:48-72 | as written: x and y are the least coordinates, the right and bottom edges are min(p3, max(p1, p2)), and width and height are never negative |
| Shapes.BoundingTransform | src/main/java/de/edgelord/saltyengine/effect/geom/TriangleShape.java:63-71 | the corrected derivation with the true maxima; non-negative size |
| Shapes.BoundingTransformIsTight | src/main/java/de/edgelord/saltyengine/effect/geom/TriangleShape.java:63-71 | the corrected transform encloses all three points and each edge passes through one of them |
| Shapes.TransformsAgreeIffPoint3TiesMax | src/main/java/de/edgelord/saltyengine/effect/geom/TriangleShape.java:63-71 | the derivation as written is right exactly when the third point ties with the greater of the other two on each axis |
| Shapes.TriangleTransformWithinBounds | src/main/java/de/edgelord/saltyengine/effect/geom/TriangleShape.java:63-71 | as written, the transform has the right position but never more than the true size |
| Shapes.TriangleTransformEnclosesIff | src/main/java/de/edgelord/saltyengine/effect/geom/TriangleShape.java:63-71 | as written, the transform encloses the triangle exactly when the third point ties with the maxima |
| Shapes.CreatedTriangleHalfWidth | src/main/java/de/edgelord/saltyengine/effect/geom/TriangleShape.java:63-71 | a triangle created on a transform of non-negative size gets a transform of half the width |
| Shapes.CreatedTriangleMissesCorner | src/main/java/de/edgelord/saltyengine/effect/geom/TriangleShape.java:63-71 | such a triangle of positive width leaves its own bottom-right point outside its transform, which the corrected transform encloses |
| Shapes.TriangleShape.constructor | src/main/java/de/edgelord/saltyengine/effect/geom/TriangleShape.java:38-46 | the three points, triangle type, filled, and the transform derived from the points |
| Shapes.TriangleShape.GetPoint | src/main/java/de/edgelord/saltyengine/effect/geom/TriangleShape.java:79-97 | a point exactly for the indices 0..2 (the Java code throws for others) |
| Shapes.TriangleShape.GetPoints | src/main/java/de/edgelord/saltyengine/effect/geom/TriangleShape.java:102-106 | the three points in order, agreeing with `getPoint` |
| Shapes.TriangleShape.SetPoint1 | src/main/java/de/edgelord/saltyengine/effect/geom/TriangleShape.java:112-115 | replaces only point 1 and recomputes the transform from all three points |
| Shapes.TriangleShape.SetPoint2 | src/main/java/de/edgelord/saltyengine/effect/geom/TriangleShape.java:121-124 | replaces only point 2 and recomputes the transform from all three points |
| Shapes.TriangleShape.SetPoint3 | src/main/java/de/edgelord/saltyengine/effect/geom/TriangleShape.java:130-133 | replaces only point 3 and recomputes the transform from all three points |

## Left out

- `Vectors.Vector2f.Divide`: requires non-zero divisors. Java float division by zero gives an infinity or NaN, and reals have neither.
- `Vectors.Vector2f.DivideVector`: requires non-zero divisors, for the same reason.
- Float rounding in general, including the 1.3 leading factor. `Vector2f.min()` and `max()` are exact reals.
- `Vector2f.random`: it depends on `java.util.Random`.
- `Vector2f.distance`: it depends on `Math.hypot`.
- `Vector2f.toString`.
- All drawing through `SaltyGraphics`/`Graphics2D`. `draw` returns the `drawText` calls it would make. A triangle's own `draw` (fill or outline) is not modelled.
- Font metrics, `String.split` semantics (a regular expression in Java) and the relation rule of `TransformRelationUtils` are parameters.
- `Scenes.SceneManager.SetCurrentScene`: the many reflective exceptions collapse into two failures: a null argument, or no such constructor or a failed construction.
- Scene constructors themselves are not modelled. A constructed scene records only its class and its arguments.
- The `@DefaultPlacement` annotations are not modelled.
- `Shapes.SaltyShape.DrawAtZero`: assumes the position saved by `getPosition()` is a copy. `Transform` is not part of this model. If `getPosition()` returned the live position vector, `setPosition(Vector2f.zero())` could change the saved value and leave the shape at (0, 0).
- The locked directions of a shape are not modelled.
- The other `SaltyShape` and `TextBox` convenience constructors are not modelled.
- `TextElement` is not part of this model. The text box keeps its own text and font, and `addComponent` is not modelled.
- `TextBoxes.TextBox.OnFixedTick`: the length test and the revealed prefix count characters (Unicode scalar values), not Java's UTF-16 code units. So text outside the Basic Multilingual Plane is revealed one whole character at a time, where Java can push half of a surrogate pair. That text also finishes revealing earlier. For example, "😀!" has length 2 here and 3 in Java.
- `TextBoxes.Revealed`: counts in characters, not UTF-16 code units, for the same reason.
- `Gfx.LightComponent.OnFixedTick`: `positionRelativeTo` is taken to return the new position. The light's size is then left as it was, because the utility's code is not part of this model.
- A point light's own construction (`GradientLight`, oval shape) is not modelled. It is reduced to a light of kind `PointLight` on the parent's transform.
- A `Light` shares its `Transform` object with the parent in Java. A transform here is a value, so that aliasing is not modelled.
- The Java code's `null` values are not modelled, except for the `null` text of the text renderer and `null` constructor arguments:
  - `null` names and transforms;
  - `null` scenes: `setCurrentScene((Scene) null)` leaves no current scene, and `addScene(name, (Scene) null)` throws;
  - `null` scene classes: after `addScene(name, (Class) null)`, a later `setCurrentScene(name, ...)` throws.
- `Display`, `Particle` and the remaining accessors of `Light` have no behaviour beyond storing values.

## Findings

`TriangleShape` keeps the derivation as written, because that is what the
engine computes. `BoundingTransform` is what it evidently means to store.
`TriangleTransformWithinBounds` and `TriangleTransformEnclosesIff` relate
the two.

| source | as written | input that shows it | evidently intended | confidence | as-written member | corrected member |
|---|---|---|---|---|---|---|
| src/main/java/de/edgelord/saltyengine/effect/geom/TriangleShape.java:63-71 | the right edge is `min(p3.x, max(p1.x, p2.x))` and the bottom edge `min(p3.y, max(p1.y, p2.y))` (`Math.min` at lines 65 and 69) | `createShape(TRIANGLE, t)` with `t` = (0, 0, 2, 2) creates points (0, 2), (1, 0), (2, 2) and gets a transform of width 1, which leaves out (2, 2) | the greatest coordinate of the three points, so that the transform encloses the triangle | not executed | Shapes.CreatedTriangleMissesCorner | Shapes.BoundingTransformIsTight |
