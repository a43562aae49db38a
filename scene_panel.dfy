/** Panels/ScenePanel.cpp: the editor panel over the working scene. Widgets are
    not drawn; what a frame's widgets return is an input: the values the
    user left in them and the buttons that were clicked. */
module ScenePanels {
  import opened Basics
  import opened SceneData
  import opened Cameras

  /** `vector::erase` at an index. */
  function RemoveAt<T>(s: seq<T>, i: nat): (r: seq<T>)
    requires i < |s|
    ensures |r| == |s| - 1
    ensures r[..i] == s[..i] && r[i..] == s[i + 1..]
    ensures multiset(r) + multiset{s[i]} == multiset(s)
  {
    assert s == s[..i] + [s[i]] + s[i + 1..];
    s[..i] + s[i + 1..]
  }

  // ---------------------------------------------------------------------------
  // CheckForChanges

  /** Whether the two lists differ at some position from `i` on. */
  function DifferFrom<T(==)>(a: seq<T>, b: seq<T>, i: nat): (r: bool)
    requires |a| == |b|
    ensures r <==> exists k :: i <= k < |a| && a[k] != b[k]
    decreases |a| - i
  {
    if i >= |a| then false
    else if a[i] != b[i] then true
    else DifferFrom(a, b, i + 1)
  }

  /** `CheckForChanges`: the name, then the sky, then each list by length and
      element by element. */
  function CheckForChanges(loaded: Scene, current: Scene): (changed: bool)
    ensures changed <==> loaded != current
  {
    if loaded.Name != current.Name then true
    else if loaded.Sky != current.Sky then true
    else if |loaded.Lights| != |current.Lights| then true
    else if DifferFrom(loaded.Lights, current.Lights, 0) then true
    else if |loaded.Spheres| != |current.Spheres| then true
    else if DifferFrom(loaded.Spheres, current.Spheres, 0) then true
    else if |loaded.Materials| != |current.Materials| then true
    else if DifferFrom(loaded.Materials, current.Materials, 0) then true
    else
      assert loaded.Lights == current.Lights && loaded.Spheres == current.Spheres;
      assert loaded.Materials == current.Materials;
      false
  }

  /** Lists of different lengths always count as a change. */
  lemma LengthChangeIsAChange(loaded: Scene, current: Scene)
    requires |loaded.Lights| != |current.Lights| || |loaded.Spheres| != |current.Spheres|
      || |loaded.Materials| != |current.Materials|
    ensures CheckForChanges(loaded, current)
  {
  }

  // ---------------------------------------------------------------------------
  // One frame of widgets

  /** The light row: the enabled checkbox, the position drag and the Remove
      button. The direction has no widget. */
  datatype LightWidgets = LightWidgets(enabled: bool, position: Vec3, remove: bool)

  /** The sphere row; `choice` is the material the user picked in the combo. */
  datatype SphereWidgets = SphereWidgets(enabled: bool, position: Vec3, radius: real, choice: Option<nat>, remove: bool)

  datatype MaterialWidgets = MaterialWidgets(
    name: string, albedo: Vec3, roughness: real, metallic: real,
    emissionColor: Vec3, emissionPower: real, remove: bool)

  /** What the panel's widgets return in one frame. The rows are keyed by the
      loop position at which they are drawn; a position without an entry is a
      row the user left alone. */
  datatype PanelInput = PanelInput(
    close: bool,
    cameraData: Option<CameraData>,
    sky: Option<Sky>,
    addLight: bool,
    lights: map<nat, LightWidgets>,
    addSphere: bool,
    spheres: map<nat, SphereWidgets>,
    addMaterial: bool,
    materials: map<nat, MaterialWidgets>)

  function EditLight(light: Light, w: LightWidgets, materialCount: nat): (r: Light)
    ensures r.Direction == light.Direction
  {
    light.(Enabled := w.enabled, Position := w.position)
  }

  function LightRemoved(w: LightWidgets): bool {
    w.remove
  }

  /** The material combo is drawn only when there are materials, and offers
      the indices below their count; the chosen `size_t` is stored in an
      `int`. */
  function EditSphere(sphere: Sphere, w: SphereWidgets, materialCount: nat): (r: Sphere)
    ensures r.Enabled == w.enabled && r.Position == w.position && r.Radius == w.radius
    ensures r.MaterialIndex != sphere.MaterialIndex ==> w.choice.Some? && w.choice.value < materialCount
    ensures w.choice.Some? && w.choice.value < materialCount <= TwoTo31 ==> r.MaterialIndex as int == w.choice.value
  {
    var s1 := sphere.(Enabled := w.enabled, Position := w.position, Radius := w.radius);
    if materialCount > 0 && w.choice.Some? && w.choice.value < materialCount then
      s1.(MaterialIndex := ToInt32(w.choice.value))
    else s1
  }

  function SphereRemoved(w: SphereWidgets): bool {
    w.remove
  }

  function EditMaterial(material: Material, w: MaterialWidgets, materialCount: nat): Material {
    Material(w.name, w.albedo, w.roughness, w.metallic, w.emissionColor, w.emissionPower)
  }

  function MaterialRemoved(w: MaterialWidgets): bool {
    w.remove
  }

  /** The loop over one list, from position `i`: each row's widgets are
      applied, and a Remove click erases the row, after which the loop goes on
      at the next position, so the row that moved into the erased slot is not
      drawn this frame. The flag says whether a row was erased. */
  function Rows<T, W>(items: seq<T>, widgets: map<nat, W>, i: nat, edit: (T, W, nat) -> T, removes: W -> bool, count: nat): (r: (seq<T>, bool))
    ensures |r.0| <= |items|
    ensures r.1 ==> exists k :: k in widgets && removes(widgets[k])
    ensures !r.1 ==> |r.0| == |items|
    ensures !r.1 ==> forall k :: 0 <= k < |items| ==>
      r.0[k] == (if i <= k && k in widgets then edit(items[k], widgets[k], count) else items[k])
    decreases |items| - i
  {
    if i >= |items| then (items, false)
    else if i !in widgets then Rows(items, widgets, i + 1, edit, removes, count)
    else
      var edited := items[i := edit(items[i], widgets[i], count)];
      if removes(widgets[i]) then (Rows(RemoveAt(edited, i), widgets, i + 1, edit, removes, count).0, true)
      else Rows(edited, widgets, i + 1, edit, removes, count)
  }

  /** The lights section: the Add button, then the rows. */
  function LightSection(s: Scene, add: bool, widgets: map<nat, LightWidgets>): (r: (Scene, bool))
    ensures r.0 == s.(Lights := r.0.Lights)
  {
    var lights := if add then s.Lights + [DefaultLight] else s.Lights;
    var rows := Rows(lights, widgets, 0, EditLight, LightRemoved, 0);
    (s.(Lights := rows.0), add || rows.1)
  }

  /** The spheres section; the combo offers the materials present now. */
  function SphereSection(s: Scene, add: bool, widgets: map<nat, SphereWidgets>): (r: (Scene, bool))
    ensures r.0 == s.(Spheres := r.0.Spheres)
  {
    var spheres := if add then s.Spheres + [DefaultSphere] else s.Spheres;
    var rows := Rows(spheres, widgets, 0, EditSphere, SphereRemoved, |s.Materials|);
    (s.(Spheres := rows.0), add || rows.1)
  }

  function MaterialSection(s: Scene, add: bool, widgets: map<nat, MaterialWidgets>): (r: (Scene, bool))
    ensures r.0 == s.(Materials := r.0.Materials)
  {
    var materials := if add then s.Materials + [DefaultMaterial] else s.Materials;
    var rows := Rows(materials, widgets, 0, EditMaterial, MaterialRemoved, 0);
    (s.(Materials := rows.0), add || rows.1)
  }

  /** The scene after one frame of the panel, and the reset flag. */
  function PanelFrame(s: Scene, input: PanelInput): (Scene, bool)
  {
    var s1 := if input.sky.Some? then s.(Sky := input.sky.value) else s;
    var lights := LightSection(s1, input.addLight, input.lights);
    var spheres := SphereSection(lights.0, input.addSphere, input.spheres);
    var materials := MaterialSection(spheres.0, input.addMaterial, input.materials);
    (materials.0, lights.1 || spheres.1 || materials.1)
  }

  /** Some removal click in the frame's input. */
  predicate RemoveClicked(input: PanelInput) {
    || (exists k :: k in input.lights && LightRemoved(input.lights[k]))
    || (exists k :: k in input.spheres && SphereRemoved(input.spheres[k]))
    || (exists k :: k in input.materials && MaterialRemoved(input.materials[k]))
  }

  /** The reset flag is raised by every Add click, and otherwise only when some
      Remove button was clicked. */
  lemma ResetFlagMeansAddOrRemove(s: Scene, input: PanelInput)
    ensures input.addLight || input.addSphere || input.addMaterial ==> PanelFrame(s, input).1
    ensures PanelFrame(s, input).1 ==> input.addLight || input.addSphere || input.addMaterial || RemoveClicked(input)
  {
  }

  /** A frame without Add or Remove clicks keeps every list's length; each row
      holds the values its widgets returned. */
  lemma EditsKeepLengths(s: Scene, input: PanelInput)
    requires !input.addLight && !input.addSphere && !input.addMaterial && !RemoveClicked(input)
    ensures var r := PanelFrame(s, input).0;
      && |r.Lights| == |s.Lights| && |r.Spheres| == |s.Spheres| && |r.Materials| == |s.Materials|
      && (forall k :: 0 <= k < |s.Lights| && k in input.lights ==> r.Lights[k] == EditLight(s.Lights[k], input.lights[k], 0))
      && (forall k :: 0 <= k < |s.Lights| ==> r.Lights[k].Direction == s.Lights[k].Direction)
  {
    var s1 := if input.sky.Some? then s.(Sky := input.sky.value) else s;
    assert !Rows(s1.Lights, input.lights, 0, EditLight, LightRemoved, 0).1;
  }

  /** Removing a material does not renumber the spheres' material indices: a
      sphere that used the last material now holds an index one past the end,
      which the combo at line 104 reads out of bounds when materials remain. */
  lemma RemovingMaterialLeavesDanglingIndex(s: Scene, i: nat, j: nat)
    requires i < |s.Materials| && j < |s.Spheres|
    requires s.Spheres[j].MaterialIndex as int == |s.Materials| - 1
    ensures var after := s.(Materials := RemoveAt(s.Materials, i));
      after.Spheres[j].MaterialIndex as int == |after.Materials|
  {
  }

  // ---------------------------------------------------------------------------
  // The panel

  class ScenePanel {
    const camera: Camera
    const scene: SceneSlot
    const loadedScene: SceneSlot
    /** `m_ShowScenePanel`, cleared by the window's close button. */
    var shown: bool
    var unsavedChanges: bool

    constructor(camera: Camera, scene: SceneSlot, loadedScene: SceneSlot, shown: bool)
      ensures this.camera == camera && this.scene == scene && this.loadedScene == loadedScene
      ensures this.shown == shown && !unsavedChanges
    {
      this.camera := camera;
      this.scene := scene;
      this.loadedScene := loadedScene;
      this.shown := shown;
      unsavedChanges := false;
    }

    method GetUnsavedChanges() returns (changes: bool)
      ensures changes == unsavedChanges
    {
      changes := unsavedChanges;
    }

    /** One frame. The unsaved-changes mark is computed before this frame's
        edits; the result asks the layer to restart accumulation. */
    method OnUIRender(input: PanelInput) returns (resetFrameIndex: bool)
      modifies this`shown, this`unsavedChanges, scene, camera`data
      ensures !old(shown) ==>
        && !resetFrameIndex && shown == old(shown) && unsavedChanges == old(unsavedChanges)
        && scene.value == old(scene.value) && camera.data == old(camera.data)
      ensures old(shown) ==>
        && unsavedChanges == CheckForChanges(old(loadedScene.value), old(scene.value))
        && shown == !input.close
        && camera.data == (if input.cameraData.Some? then input.cameraData.value else old(camera.data))
        && (scene.value, resetFrameIndex) == PanelFrame(old(scene.value), input)
    {
      resetFrameIndex := false;
      if !shown {
        return;
      }
      unsavedChanges := CheckForChanges(loadedScene.value, scene.value);
      if input.close {
        shown := false;
      }

      if input.cameraData.Some? {
        camera.data := input.cameraData.value;
      }
      resetFrameIndex := DrawScene(input);
    }

    /** The scene's part of the frame: the sky, then the three sections. */
    method DrawScene(input: PanelInput) returns (reset: bool)
      modifies scene
      ensures (scene.value, reset) == PanelFrame(old(scene.value), input)
    {
      if input.sky.Some? {
        scene.value := scene.value.(Sky := input.sky.value);
      }
      reset := DrawLightSection(input.addLight, input.lights);
      var sphereReset := DrawSphereSection(input.addSphere, input.spheres);
      var materialReset := DrawMaterialSection(input.addMaterial, input.materials);
      reset := reset || sphereReset || materialReset;
    }

    method DrawLightSection(add: bool, widgets: map<nat, LightWidgets>) returns (reset: bool)
      modifies scene
      ensures (scene.value, reset) == LightSection(old(scene.value), add, widgets)
    {
      reset := false;
      if add {
        AddLight();
        reset := true;
      }
      var removed := DrawLights(widgets);
      reset := reset || removed;
    }

    method DrawSphereSection(add: bool, widgets: map<nat, SphereWidgets>) returns (reset: bool)
      modifies scene
      ensures (scene.value, reset) == SphereSection(old(scene.value), add, widgets)
    {
      reset := false;
      if add {
        AddSphere();
        reset := true;
      }
      var removed := DrawSpheres(widgets);
      reset := reset || removed;
    }

    method DrawMaterialSection(add: bool, widgets: map<nat, MaterialWidgets>) returns (reset: bool)
      modifies scene
      ensures (scene.value, reset) == MaterialSection(old(scene.value), add, widgets)
    {
      reset := false;
      if add {
        AddMaterial();
        reset := true;
      }
      var removed := DrawMaterials(widgets);
      reset := reset || removed;
    }

    method DrawLights(widgets: map<nat, LightWidgets>) returns (removed: bool)
      modifies scene
      ensures (scene.value.Lights, removed) == Rows(old(scene.value.Lights), widgets, 0, EditLight, LightRemoved, 0)
      ensures scene.value == old(scene.value).(Lights := scene.value.Lights)
    {
      ghost var final := Rows(scene.value.Lights, widgets, 0, EditLight, LightRemoved, 0);
      removed := false;
      var i := 0;
      while i < |scene.value.Lights|
        invariant scene.value == old(scene.value).(Lights := scene.value.Lights)
        invariant Rows(scene.value.Lights, widgets, i, EditLight, LightRemoved, 0).0 == final.0
        invariant (removed || Rows(scene.value.Lights, widgets, i, EditLight, LightRemoved, 0).1) == final.1
        decreases |scene.value.Lights| - i
      {
        if i in widgets {
          var w := widgets[i];
          var light := scene.value.Lights[i];
          light := light.(Enabled := w.enabled);
          light := light.(Position := w.position);
          scene.value := scene.value.(Lights := scene.value.Lights[i := light]);
          if w.remove {
            RemoveLight(i);
            removed := true;
          }
        }
        i := i + 1;
      }
    }

    method DrawSpheres(widgets: map<nat, SphereWidgets>) returns (removed: bool)
      modifies scene
      ensures (scene.value.Spheres, removed)
        == Rows(old(scene.value.Spheres), widgets, 0, EditSphere, SphereRemoved, |old(scene.value.Materials)|)
      ensures scene.value == old(scene.value).(Spheres := scene.value.Spheres)
    {
      var count := |scene.value.Materials|;
      ghost var final := Rows(scene.value.Spheres, widgets, 0, EditSphere, SphereRemoved, count);
      removed := false;
      var i := 0;
      while i < |scene.value.Spheres|
        invariant scene.value == old(scene.value).(Spheres := scene.value.Spheres)
        invariant Rows(scene.value.Spheres, widgets, i, EditSphere, SphereRemoved, count).0 == final.0
        invariant (removed || Rows(scene.value.Spheres, widgets, i, EditSphere, SphereRemoved, count).1) == final.1
        decreases |scene.value.Spheres| - i
      {
        if i in widgets {
          var w := widgets[i];
          var sphere := scene.value.Spheres[i];
          sphere := sphere.(Enabled := w.enabled);
          sphere := sphere.(Position := w.position);
          sphere := sphere.(Radius := w.radius);
          if |scene.value.Materials| > 0 && w.choice.Some? {
            var j := 0;
            while j < |scene.value.Materials|
              invariant 0 <= j <= |scene.value.Materials|
              invariant sphere == EditSphere(scene.value.Spheres[i], w, if w.choice.value < j then count else 0)
            {
              if j == w.choice.value {
                sphere := sphere.(MaterialIndex := ToInt32(j));
              }
              j := j + 1;
            }
          }
          scene.value := scene.value.(Spheres := scene.value.Spheres[i := sphere]);
          if w.remove {
            RemoveSphere(i);
            removed := true;
          }
        }
        i := i + 1;
      }
    }

    method DrawMaterials(widgets: map<nat, MaterialWidgets>) returns (removed: bool)
      modifies scene
      ensures (scene.value.Materials, removed) == Rows(old(scene.value.Materials), widgets, 0, EditMaterial, MaterialRemoved, 0)
      ensures scene.value == old(scene.value).(Materials := scene.value.Materials)
    {
      ghost var final := Rows(scene.value.Materials, widgets, 0, EditMaterial, MaterialRemoved, 0);
      removed := false;
      var i := 0;
      while i < |scene.value.Materials|
        invariant scene.value == old(scene.value).(Materials := scene.value.Materials)
        invariant Rows(scene.value.Materials, widgets, i, EditMaterial, MaterialRemoved, 0).0 == final.0
        invariant (removed || Rows(scene.value.Materials, widgets, i, EditMaterial, MaterialRemoved, 0).1) == final.1
        decreases |scene.value.Materials| - i
      {
        if i in widgets {
          var w := widgets[i];
          var material := scene.value.Materials[i];
          material := material.(Name := w.name);
          material := material.(Albedo := w.albedo);
          material := material.(Roughness := w.roughness);
          material := material.(Metallic := w.metallic);
          material := material.(EmissionColor := w.emissionColor);
          material := material.(EmissionPower := w.emissionPower);
          scene.value := scene.value.(Materials := scene.value.Materials[i := material]);
          if w.remove {
            RemoveMaterial(i);
            removed := true;
          }
        }
        i := i + 1;
      }
    }

    method AddLight()
      modifies scene
      ensures scene.value == old(scene.value).(Lights := old(scene.value.Lights) + [DefaultLight])
    {
      scene.value := scene.value.(Lights := scene.value.Lights + [DefaultLight]);
    }

    method AddSphere()
      modifies scene
      ensures scene.value == old(scene.value).(Spheres := old(scene.value.Spheres) + [DefaultSphere])
    {
      scene.value := scene.value.(Spheres := scene.value.Spheres + [DefaultSphere]);
    }

    method AddMaterial()
      modifies scene
      ensures scene.value == old(scene.value).(Materials := old(scene.value.Materials) + [DefaultMaterial])
    {
      scene.value := scene.value.(Materials := scene.value.Materials + [DefaultMaterial]);
    }

    method RemoveLight(index: nat)
      requires index < |scene.value.Lights|
      modifies scene
      ensures scene.value == old(scene.value).(Lights := RemoveAt(old(scene.value.Lights), index))
    {
      scene.value := scene.value.(Lights := RemoveAt(scene.value.Lights, index));
    }

    method RemoveSphere(index: nat)
      requires index < |scene.value.Spheres|
      modifies scene
      ensures scene.value == old(scene.value).(Spheres := RemoveAt(old(scene.value.Spheres), index))
    {
      scene.value := scene.value.(Spheres := RemoveAt(scene.value.Spheres, index));
    }

    /** Only the materials change; the spheres keep their indices. */
    method RemoveMaterial(index: nat)
      requires index < |scene.value.Materials|
      modifies scene
      ensures scene.value == old(scene.value).(Materials := RemoveAt(old(scene.value.Materials), index))
    {
      scene.value := scene.value.(Materials := RemoveAt(scene.value.Materials, index));
    }
  }
}
