/** RayTracingLayer.cpp: the application layer that owns the renderer, the
    camera, the working scene and the last loaded or saved scene, and wires
    the panels, the serializer and the file names together. The settings
    panel's own widgets are not modelled: its report is an input. */
module Session {
  import opened Basics
  import opened SceneData
  import opened Yaml
  import opened SceneSerialization
  import opened RendererState
  import opened Cameras
  import opened ScenePanels
  import opened FileNames

  /** Where a scene of the given name is saved and loaded. */
  function ScenePath(name: string): (p: string)
    ensures |p| == |name| + 12 && p[..7] == "scenes/" && p[|p| - 5..] == ".yaml"
  {
    "scenes/" + name + ".yaml"
  }

  /** What the first `i` entries of a listing contribute, in order. */
  function Collect(listing: seq<string>, i: nat, pick: string -> seq<string>): seq<string>
    requires i <= |listing|
  {
    if i == 0 then [] else Collect(listing, i - 1, pick) + pick(listing[i - 1])
  }

  lemma {:induction false} CollectMembers(listing: seq<string>, i: nat, pick: string -> seq<string>, x: string)
    requires i <= |listing|
    ensures x in Collect(listing, i, pick) <==> exists k :: 0 <= k < i && x in pick(listing[k])
  {
    if i > 0 {
      CollectMembers(listing, i - 1, pick, x);
    }
  }

  /** The name one entry of the scenes folder offers: the stem of a ".yaml"
      entry other than "Default", or nothing. */
  function SceneNameOf(f: string): seq<string> {
    if Extension(f) == ".yaml" && Stem(f) != "Default" then [Stem(f)] else []
  }

  /** The scene names offered for loading, in listing order. */
  function SceneNames(listing: seq<string>): seq<string> {
    Collect(listing, |listing|, SceneNameOf)
  }

  /** A name is offered exactly when some ".yaml" entry has it as its stem
      and it is not "Default". */
  lemma SceneNamesMembers(listing: seq<string>, name: string)
    ensures name in SceneNames(listing) <==>
      name != "Default" && exists k :: 0 <= k < |listing| && Extension(listing[k]) == ".yaml" && Stem(listing[k]) == name
  {
    CollectMembers(listing, |listing|, SceneNameOf, name);
  }

  /** How many of the first `i` entries satisfy `counted`. */
  function CountTo(listing: seq<string>, i: nat, counted: string -> bool): (n: nat)
    requires i <= |listing|
    ensures n <= i
  {
    if i == 0 then 0 else CountTo(listing, i - 1, counted) + (if counted(listing[i - 1]) then 1 else 0)
  }

  predicate IsPng(f: string) {
    Extension(f) == ".png"
  }

  /** The number of ".png" entries of a listing. */
  function PngCount(listing: seq<string>): (n: nat)
    ensures n <= |listing|
  {
    CountTo(listing, |listing|, IsPng)
  }

  /** The file an export writes: "0.png" in a folder that did not exist yet,
      otherwise the count of ".png" entries already there. */
  function ExportFile(sceneName: string, folderExists: bool, listing: seq<string>): string {
    var folder := "export/" + sceneName + "/";
    if !folderExists then folder + "0.png" else folder + DecimalString(PngCount(listing)) + ".png"
  }

  lemma PngNameHasPngExtension(n: nat)
    ensures Extension(DecimalString(n) + ".png") == ".png"
  {
    var f := DecimalString(n) + ".png";
    assert f[|f| - 4..] == ".png";
    ExtensionIs(f, ".png");
  }

  /** When the folder holds exactly "0.png" … "(n-1).png", the export writes a
      name that is not there yet. */
  lemma ExportNameFreshForConsecutive(sceneName: string, listing: seq<string>)
    requires forall k :: 0 <= k < |listing| ==> listing[k] == DecimalString(k) + ".png"
    ensures PngCount(listing) == |listing|
    ensures var file := ExportFile(sceneName, true, listing);
      forall k :: 0 <= k < |listing| ==> file != "export/" + sceneName + "/" + listing[k]
  {
    AllPngCounted(listing, |listing|);
    var folder := "export/" + sceneName + "/";
    forall k | 0 <= k < |listing|
      ensures folder + DecimalString(|listing|) + ".png" != folder + listing[k]
    {
      if folder + DecimalString(|listing|) + ".png" == folder + listing[k] {
        SameNameSameCount(folder, |listing|, k);
      }
    }
  }

  lemma {:induction false} AllPngCounted(listing: seq<string>, i: nat)
    requires i <= |listing|
    requires forall k :: 0 <= k < |listing| ==> listing[k] == DecimalString(k) + ".png"
    ensures CountTo(listing, i, IsPng) == i
  {
    if i > 0 {
      AllPngCounted(listing, i - 1);
      PngNameHasPngExtension(i - 1);
    }
  }

  lemma SameNameSameCount(folder: string, a: nat, b: nat)
    requires folder + DecimalString(a) + ".png" == folder + DecimalString(b) + ".png"
    ensures a == b
  {
    var x, y := DecimalString(a), DecimalString(b);
    assert (folder + x + ".png")[|folder|..] == x + ".png";
    assert (folder + y + ".png")[|folder|..] == y + ".png";
    assert |x| == |y|;
    assert x == (x + ".png")[..|x|];
    assert y == (y + ".png")[..|y|];
    DecimalStringInjective(a, b);
  }

  /** Counting is not naming: with "0.png" and "2.png" in the folder the
      export writes "2.png" again, over an existing image. */
  lemma ExportCanOverwrite()
    ensures ExportFile("s", true, ["0.png", "2.png"]) == "export/s/2.png"
  {
    ExtensionIs("0.png", ".png");
    ExtensionIs("2.png", ".png");
    assert DecimalString(2) == "2";
    var listing := ["0.png", "2.png"];
    assert CountTo(listing, 1, IsPng) == 1;
    assert PngCount(listing) == 2;
  }

  /** Whether `Camera::OnUpdate` reports movement, from its input. */
  predicate CameraMoves(input: InputState, viewportFocused: bool, lastMouse: Vec2) {
    input.rightButton && viewportFocused && (AnyMovementKey(input) || input.mouse != lastMouse)
  }

  /** The new-scene dialog's buttons in one frame. */
  datatype ModalClick = NoClick | CreateClicked(name: string) | CancelClicked

  /** Saving a scene and loading it by name gives the scene back as stored. */
  lemma SavedSceneLoadsBack(files: map<string, FileContent>, current: Scene, s: Scene)
    ensures var saved := files[ScenePath(s.Name) := Document(EncodeScene(s))];
      DeserializeScene(current, ReadFile(saved, ScenePath(s.Name))) == (Returned(true), Persisted(s))
  {
    SceneRoundTrip(current, s);
  }

  class RayTracingLayer {
    const renderer: Renderer
    const camera: Camera
    const scene: SceneSlot
    const loadedScene: SceneSlot
    const panel: ScenePanel
    /** The file system the scenes are saved to and loaded from. */
    const disk: Disk
    var newSceneModalOpen: bool

    ghost predicate Valid()
      reads this, camera
    {
      && camera.Valid()
      && panel.camera == camera && panel.scene == scene && panel.loadedScene == loadedScene
      && scene != loadedScene
    }

    constructor(disk: Disk)
      ensures Valid()
      ensures this.disk == disk && fresh(renderer) && fresh(camera) && fresh(scene) && fresh(loadedScene) && fresh(panel)
      ensures renderer.settings == DefaultSettings && renderer.frameIndex == 1
      ensures camera.data.VerticalFOV == 45.0 && camera.data.NearClip == 0.1 && camera.data.FarClip == 1000.0
      ensures scene.value == DefaultScene && loadedScene.value == DefaultScene
      ensures panel.shown && !newSceneModalOpen
    {
      renderer := new Renderer();
      var c := new Camera(45.0, 0.1, 1000.0);
      camera := c;
      var s := new SceneSlot(DefaultScene);
      var l := new SceneSlot(DefaultScene);
      scene := s;
      loadedScene := l;
      panel := new ScenePanel(c, s, l, true);
      this.disk := disk;
      newSceneModalOpen := false;
    }

    /** Loads scenes/Default.yaml when the layer is attached. */
    method OnAttach() returns (outcome: Outcome)
      requires Valid()
      modifies scene, loadedScene, renderer`frameIndex
      ensures Valid()
      ensures (outcome, scene.value) == DeserializeScene(old(scene.value), ReadFile(disk.files, "scenes/Default.yaml"))
      ensures outcome.Returned? ==> loadedScene.value == scene.value && renderer.frameIndex == 1
      ensures outcome.Threw? ==> loadedScene.value == old(loadedScene.value) && renderer.frameIndex == old(renderer.frameIndex)
    {
      outcome := LoadDefaultScene();
    }

    /** One frame of updates: the camera, whose movement restarts
        accumulation, the time, and the Ctrl+N and Ctrl+S shortcuts. */
    method OnUpdate(ts: real, input: InputState, viewportFocused: bool, rotate: Rotation, keyN: bool, keyS: bool)
      requires Valid()
      modifies camera`lastMousePosition, camera`data, camera`forward, camera`view, camera`inverseView
      modifies camera`projection, camera`inverseProjection, camera`rayDirections
      modifies renderer`frameIndex, renderer`time, this`newSceneModalOpen, loadedScene, disk
      ensures Valid()
      ensures renderer.frameIndex == (if CameraMoves(input, viewportFocused, old(camera.lastMousePosition)) then 1 else old(renderer.frameIndex))
      ensures renderer.time == ts
      ensures newSceneModalOpen == (old(newSceneModalOpen) || (input.leftControl && keyN))
      ensures scene.value == old(scene.value)
      ensures input.leftControl && keyS ==>
        && loadedScene.value == scene.value
        && disk.files == old(disk.files)[ScenePath(scene.value.Name) := Document(EncodeScene(scene.value))]
      ensures !(input.leftControl && keyS) ==> loadedScene.value == old(loadedScene.value) && disk.files == old(disk.files)
      ensures camera.lastMousePosition == input.mouse
      ensures camera.viewportWidth != 0 && camera.viewportHeight != 0 ==>
        && camera.view == LookAt(old(camera.data.Position), Add(old(camera.data.Position), old(camera.forward)), camera.up)
        && camera.inverseView == Inverse(camera.view)
        && camera.projection == PerspectiveFov(camera.data.VerticalFOV, camera.viewportWidth as real, camera.viewportHeight as real,
                                               camera.data.NearClip, camera.data.FarClip)
        && camera.inverseProjection == Inverse(camera.projection)
      ensures camera.viewportWidth == 0 || camera.viewportHeight == 0 ==>
        && camera.view == old(camera.view) && camera.inverseView == old(camera.inverseView)
        && camera.projection == old(camera.projection) && camera.inverseProjection == old(camera.inverseProjection)
        && camera.rayDirections == old(camera.rayDirections)
      ensures !input.rightButton || !viewportFocused ==> camera.data == old(camera.data) && camera.forward == old(camera.forward)
      ensures input.rightButton && viewportFocused ==>
        && camera.data == old(camera.data).(Position := Translated(old(camera.data), old(camera.forward), camera.up, ts, input))
        && camera.forward == (if input.mouse != old(camera.lastMousePosition)
                              then RotatedForward(old(camera.data).RotationSpeed, old(camera.forward), camera.up,
                                                  old(camera.lastMousePosition), input.mouse, rotate)
                              else old(camera.forward))
    {
      var moved := camera.OnUpdate(ts, input, viewportFocused, rotate);
      if moved {
        renderer.ResetFrameIndex();
      }
      renderer.SetTime(ts);
      if input.leftControl {
        if keyN {
          newSceneModalOpen := true;
        }
        if keyS {
          SaveScene();
        }
      }
    }

    /** One frame of the interface: the panels, whose reports restart
        accumulation, the new-scene dialog, and the camera's resize to the
        viewport. */
    method OnUIRender(settingsReset: bool, panelInput: PanelInput, click: ModalClick, width: UInt32, height: UInt32)
      requires Valid()
      requires (width as int) * (height as int) < TwoTo32
      modifies renderer`frameIndex, panel`shown, panel`unsavedChanges, scene, camera`data, this`newSceneModalOpen
      modifies camera`viewportWidth, camera`viewportHeight, camera`projection, camera`inverseProjection, camera`rayDirections
      ensures Valid()
      ensures camera.viewportWidth == width && camera.viewportHeight == height
      ensures loadedScene.value == old(loadedScene.value)
      ensures var reported := settingsReset || (old(panel.shown) && PanelFrame(old(scene.value), panelInput).1);
        reported ==> renderer.frameIndex == 1
      ensures var reported := settingsReset || (old(panel.shown) && PanelFrame(old(scene.value), panelInput).1);
        var created := old(newSceneModalOpen) && click.CreateClicked? && click.name != "";
        !reported && !created ==> renderer.frameIndex == old(renderer.frameIndex)
      ensures var created := old(newSceneModalOpen) && click.CreateClicked? && click.name != "";
        && (created ==> renderer.frameIndex == 1)
        && scene.value == (if created then DefaultScene.(Name := click.name)
                           else if old(panel.shown) then PanelFrame(old(scene.value), panelInput).0
                           else old(scene.value))
      ensures newSceneModalOpen == (old(newSceneModalOpen) && !click.CancelClicked? && !(click.CreateClicked? && click.name != ""))
      ensures panel.shown == (old(panel.shown) && !panelInput.close)
      ensures panel.unsavedChanges == (if old(panel.shown) then CheckForChanges(old(loadedScene.value), old(scene.value))
                                       else old(panel.unsavedChanges))
      ensures camera.data == (if old(panel.shown) && panelInput.cameraData.Some? then panelInput.cameraData.value else old(camera.data))
      ensures width == old(camera.viewportWidth) && height == old(camera.viewportHeight) ==>
        && camera.projection == old(camera.projection) && camera.inverseProjection == old(camera.inverseProjection)
        && camera.rayDirections == old(camera.rayDirections)
      ensures width != old(camera.viewportWidth) || height != old(camera.viewportHeight) ==>
        && camera.projection == PerspectiveFov(camera.data.VerticalFOV, width as real, height as real, camera.data.NearClip, camera.data.FarClip)
        && camera.inverseProjection == Inverse(camera.projection)
    {
      DrawPanels(settingsReset, panelInput);
      DrawNewSceneModal(click);
      camera.OnResize(width, height);
    }

    method DrawPanels(settingsReset: bool, panelInput: PanelInput)
      requires Valid()
      modifies renderer`frameIndex, panel`shown, panel`unsavedChanges, scene, camera`data
      ensures Valid()
      ensures old(panel.shown) ==> scene.value == PanelFrame(old(scene.value), panelInput).0
      ensures !old(panel.shown) ==> scene.value == old(scene.value)
      ensures var reported := settingsReset || (old(panel.shown) && PanelFrame(old(scene.value), panelInput).1);
        renderer.frameIndex == (if reported then 1 else old(renderer.frameIndex))
      ensures panel.shown == (old(panel.shown) && !panelInput.close)
      ensures panel.unsavedChanges == (if old(panel.shown) then CheckForChanges(old(loadedScene.value), old(scene.value))
                                       else old(panel.unsavedChanges))
      ensures camera.data == (if old(panel.shown) && panelInput.cameraData.Some? then panelInput.cameraData.value else old(camera.data))
    {
      if settingsReset {
        renderer.ResetFrameIndex();
      }
      var reset := panel.OnUIRender(panelInput);
      if reset {
        renderer.ResetFrameIndex();
      }
    }

    /** The new-scene dialog: Create is disabled while the name is empty. */
    method DrawNewSceneModal(click: ModalClick)
      requires Valid()
      modifies this`newSceneModalOpen, scene, renderer`frameIndex
      ensures Valid()
      ensures var created := old(newSceneModalOpen) && click.CreateClicked? && click.name != "";
        && (created ==> scene.value == DefaultScene.(Name := click.name) && renderer.frameIndex == 1)
        && (!created ==> scene.value == old(scene.value) && renderer.frameIndex == old(renderer.frameIndex))
      ensures newSceneModalOpen == (old(newSceneModalOpen) && !click.CancelClicked? && !(click.CreateClicked? && click.name != ""))
    {
      if !newSceneModalOpen {
        return;
      }
      match click
      case NoClick =>
      case CreateClicked(name) =>
        if name != "" {
          newSceneModalOpen := false;
          NewScene(name);
        }
      case CancelClicked =>
        newSceneModalOpen := false;
    }

    /** Replaces the scene with an empty one of the given name. */
    method NewScene(sceneName: string)
      requires Valid()
      modifies scene, renderer`frameIndex
      ensures Valid()
      ensures scene.value == DefaultScene.(Name := sceneName)
      ensures renderer.frameIndex == 1
    {
      scene.value := DefaultScene;
      scene.value := scene.value.(Name := sceneName);
      renderer.ResetFrameIndex();
    }

    /** Writes the scene under its name and makes it the loaded scene, so
        nothing is left unsaved. */
    method SaveScene()
      requires Valid()
      modifies disk, loadedScene
      ensures Valid()
      ensures scene.value == old(scene.value)
      ensures disk.files == old(disk.files)[ScenePath(scene.value.Name) := Document(EncodeScene(scene.value))]
      ensures loadedScene.value == scene.value
      ensures !CheckForChanges(loadedScene.value, scene.value)
    {
      var serializer := new SceneSerializer(scene);
      var ok := serializer.Serialize(disk, ScenePath(scene.value.Name));
      loadedScene.value := scene.value;
    }

    /** Loads scenes/<name>.yaml into the scene. When the load returns, with
        either result, the outcome becomes the loaded scene and accumulation
        restarts; an exception leaves both steps out. */
    method LoadScene(sceneName: string) returns (outcome: Outcome)
      requires Valid()
      modifies scene, loadedScene, renderer`frameIndex
      ensures Valid()
      ensures (outcome, scene.value) == DeserializeScene(old(scene.value), ReadFile(disk.files, ScenePath(sceneName)))
      ensures outcome.Returned? ==> loadedScene.value == scene.value && renderer.frameIndex == 1
      ensures outcome.Threw? ==> loadedScene.value == old(loadedScene.value) && renderer.frameIndex == old(renderer.frameIndex)
    {
      var serializer := new SceneSerializer(scene);
      outcome := serializer.Deserialize(disk, ScenePath(sceneName));
      if outcome.Threw? {
        return;
      }
      loadedScene.value := scene.value;
      renderer.ResetFrameIndex();
    }

    method LoadDefaultScene() returns (outcome: Outcome)
      requires Valid()
      modifies scene, loadedScene, renderer`frameIndex
      ensures Valid()
      ensures (outcome, scene.value) == DeserializeScene(old(scene.value), ReadFile(disk.files, "scenes/Default.yaml"))
      ensures outcome.Returned? ==> loadedScene.value == scene.value && renderer.frameIndex == 1
      ensures outcome.Threw? ==> loadedScene.value == old(loadedScene.value) && renderer.frameIndex == old(renderer.frameIndex)
    {
      assert ScenePath("Default") == "scenes/Default.yaml";
      outcome := LoadScene("Default");
    }

    /** The scene names in the listing of the scenes folder. */
    method GetAllScenes(listing: seq<string>) returns (allScenes: seq<string>)
      ensures allScenes == SceneNames(listing)
    {
      allScenes := [];
      var i := 0;
      while i < |listing|
        invariant 0 <= i <= |listing|
        invariant allScenes == Collect(listing, i, SceneNameOf)
      {
        var entry := listing[i];
        assert Collect(listing, i + 1, SceneNameOf) == allScenes + SceneNameOf(entry);
        if Extension(entry) == ".yaml" {
          var sceneName := Stem(entry);
          if sceneName != "Default" {
            assert SceneNameOf(entry) == [sceneName];
            allScenes := allScenes + [sceneName];
          } else {
            assert SceneNameOf(entry) == [];
          }
        } else {
          assert SceneNameOf(entry) == [];
        }
        i := i + 1;
      }
    }

    /** The path the current image is exported to, given whether the scene's
        export folder exists and, if so, its listing. */
    method ExportImage(folderExists: bool, listing: seq<string>) returns (file: string)
      ensures file == ExportFile(scene.value.Name, folderExists, listing)
      ensures !folderExists ==> file == "export/" + scene.value.Name + "/0.png"
    {
      var folderPath := "export/" + scene.value.Name + "/";
      if !folderExists {
        return folderPath + "0.png";
      }
      var fileCount := 0;
      var i := 0;
      while i < |listing|
        invariant 0 <= i <= |listing|
        invariant fileCount == CountTo(listing, i, IsPng)
      {
        if IsPng(listing[i]) {
          fileCount := fileCount + 1;
        }
        i := i + 1;
      }
      file := folderPath + DecimalString(fileCount) + ".png";
    }
  }
}
