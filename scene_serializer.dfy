/** Scene/SceneSerializer.cpp: the scene written to and read back from a YAML
    document. Writing is a pure function from the scene to a node tree; reading
    is a method that updates the shared scene step by step, exactly as far as
    it gets before a conversion throws. */
module SceneSerialization {
  import opened Basics
  import opened SceneData
  import opened Yaml

  // ---------------------------------------------------------------------------
  // convert<glm::vec3>

  /** A vector is a flow sequence of its three components. */
  function EncodeVec3(v: Vec3): (n: Node)
    ensures n.Sequence? && |n.items| == 3
    ensures n.items[0] == Scalar(Float(v.x)) && n.items[1] == Scalar(Float(v.y))
    ensures n.items[2] == Scalar(Float(v.z))
  {
    Sequence([Scalar(Float(v.x)), Scalar(Float(v.y)), Scalar(Float(v.z))])
  }

  /** Anything but a sequence of exactly three floats fails to convert. */
  function DecodeVec3(n: Node): (r: Option<Vec3>)
    ensures !n.Sequence? || |n.items| != 3 ==> r.None?
    ensures n.Sequence? && |n.items| == 3 ==>
      (r.Some? <==> AsFloat(n.items[0]).Some? && AsFloat(n.items[1]).Some? && AsFloat(n.items[2]).Some?)
    ensures r.Some? ==>
      AsFloat(n.items[0]) == Some(r.value.x) && AsFloat(n.items[1]) == Some(r.value.y) && AsFloat(n.items[2]) == Some(r.value.z)
  {
    if !n.Sequence? || |n.items| != 3 then None
    else
      match (AsFloat(n.items[0]), AsFloat(n.items[1]), AsFloat(n.items[2]))
      case (Some(x), Some(y), Some(z)) => Some(Vec3(x, y, z))
      case _ => None
  }

  lemma Vec3RoundTrip(v: Vec3)
    ensures DecodeVec3(EncodeVec3(v)) == Some(v)
  {
  }

  function Vec3At(n: Node, key: string): Option<Vec3> {
    match Lookup(n, key)
    case None => None
    case Some(v) => DecodeVec3(v)
  }

  // ---------------------------------------------------------------------------
  // Serialize

  function SkyFields(sky: Sky): seq<Entry> {
    [Entry("Enabled", Scalar(Bool(sky.Enabled))), Entry("Color", EncodeVec3(sky.Color))]
  }

  /** A light is stored by its enabled flag and its direction. */
  function LightFields(light: Light): seq<Entry> {
    [Entry("Enabled", Scalar(Bool(light.Enabled))), Entry("Direction", EncodeVec3(light.Direction))]
  }

  function EncodeLight(light: Light): Node {
    Mapping([Entry("Light", Mapping(LightFields(light)))])
  }

  function SphereFields(sphere: Sphere): seq<Entry> {
    [Entry("Enabled", Scalar(Bool(sphere.Enabled))),
     Entry("Position", EncodeVec3(sphere.Position)),
     Entry("Radius", Scalar(Float(sphere.Radius))),
     Entry("MaterialIndex", Scalar(Int(sphere.MaterialIndex as int)))]
  }

  function EncodeSphere(sphere: Sphere): Node {
    Mapping([Entry("Sphere", Mapping(SphereFields(sphere)))])
  }

  function MaterialFields(material: Material): seq<Entry> {
    [Entry("Name", Scalar(Text(material.Name))),
     Entry("Albedo", EncodeVec3(material.Albedo)),
     Entry("Roughness", Scalar(Float(material.Roughness))),
     Entry("Metallic", Scalar(Float(material.Metallic))),
     Entry("EmissionColor", EncodeVec3(material.EmissionColor)),
     Entry("EmissionPower", Scalar(Float(material.EmissionPower)))]
  }

  function EncodeMaterial(material: Material): Node {
    Mapping([Entry("Material", Mapping(MaterialFields(material)))])
  }

  function SceneFields(s: Scene): seq<Entry> {
    [Entry("Name", Scalar(Text(s.Name))),
     Entry("Sky", Mapping(SkyFields(s.Sky))),
     Entry("Lights", Sequence(MapSeq(s.Lights, EncodeLight))),
     Entry("Spheres", Sequence(MapSeq(s.Spheres, EncodeSphere))),
     Entry("Materials", Sequence(MapSeq(s.Materials, EncodeMaterial)))]
  }

  /** The document `Serialize` emits: a root map with the single key "Scene",
      whose map holds the name, the sky and the three lists in scene order. */
  function EncodeScene(s: Scene): (doc: Node)
    ensures doc.Mapping? && |doc.entries| == 1 && doc.entries[0].key == "Scene"
    ensures Lookup(doc, "Scene") == Some(Mapping(SceneFields(s)))
  {
    Mapping([Entry("Scene", Mapping(SceneFields(s)))])
  }

  /** Where each part of the scene sits in the document. */
  lemma SceneDocumentLayout(s: Scene)
    ensures var sceneNode := Mapping(SceneFields(s));
      && StringAt(sceneNode, "Name") == Some(s.Name)
      && Lookup(sceneNode, "Sky") == Some(Mapping(SkyFields(s.Sky)))
      && Lookup(sceneNode, "Lights") == Some(Sequence(MapSeq(s.Lights, EncodeLight)))
      && Lookup(sceneNode, "Spheres") == Some(Sequence(MapSeq(s.Spheres, EncodeSphere)))
      && Lookup(sceneNode, "Materials") == Some(Sequence(MapSeq(s.Materials, EncodeMaterial)))
  {
    var fields := SceneFields(s);
    assert StringAt(Mapping(fields), "Name") == Some(s.Name);
    assert forall j | 0 <= j < 1 :: fields[j].key != "Sky";
    FindAt(fields, "Sky", 1);
    assert forall j | 0 <= j < 2 :: fields[j].key != "Lights";
    FindAt(fields, "Lights", 2);
    assert forall j | 0 <= j < 3 :: fields[j].key != "Spheres";
    FindAt(fields, "Spheres", 3);
    assert forall j | 0 <= j < 4 :: fields[j].key != "Materials";
    FindAt(fields, "Materials", 4);
  }

  // ---------------------------------------------------------------------------
  // Deserialize, as functions

  /** How far reading one list element got: the conversion threw before the
      element was appended (`Skipped`), after it was appended with some fields
      still default (`Partial`), or not at all (`Complete`). */
  datatype Filled<T> = Skipped | Partial(value: T) | Complete(value: T)

  /** The list after one element was read. */
  function Appended<T>(acc: seq<T>, f: Filled<T>): (r: seq<T>)
    ensures f.Skipped? ==> r == acc
    ensures !f.Skipped? ==> r == acc + [f.value]
  {
    if f.Skipped? then acc else acc + [f.value]
  }

  /** `DeserializeLight`: the element is appended as a default light, then its
      enabled flag and direction are read, in that order. */
  function DecodeLight(item: Node): (r: Filled<Light>)
    ensures !r.Skipped? ==> r.value.Position == DefaultLight.Position
    ensures r.Skipped? <==> item.Scalar?
  {
    match Lookup(item, "Light")
    case None => Skipped
    case Some(body) =>
      match BoolAt(body, "Enabled")
      case None => Partial(DefaultLight)
      case Some(enabled) =>
        var light := DefaultLight.(Enabled := enabled);
        match Vec3At(body, "Direction")
        case None => Partial(light)
        case Some(direction) => Complete(light.(Direction := direction))
  }

  function DecodeSphere(item: Node): (r: Filled<Sphere>)
    ensures r.Skipped? <==> item.Scalar?
    ensures r.Partial? ==> r.value.MaterialIndex == DefaultSphere.MaterialIndex
  {
    match Lookup(item, "Sphere")
    case None => Skipped
    case Some(body) =>
      match BoolAt(body, "Enabled")
      case None => Partial(DefaultSphere)
      case Some(enabled) =>
        var s1 := DefaultSphere.(Enabled := enabled);
        match Vec3At(body, "Position")
        case None => Partial(s1)
        case Some(position) =>
          var s2 := s1.(Position := position);
          match FloatAt(body, "Radius")
          case None => Partial(s2)
          case Some(radius) =>
            var s3 := s2.(Radius := radius);
            match IntAt(body, "MaterialIndex")
            case None => Partial(s3)
            case Some(index) => Complete(s3.(MaterialIndex := index))
  }

  function DecodeMaterial(item: Node): (r: Filled<Material>)
    ensures r.Skipped? <==> item.Scalar?
    ensures r.Partial? ==> r.value.EmissionPower == DefaultMaterial.EmissionPower
  {
    match Lookup(item, "Material")
    case None => Skipped
    case Some(body) =>
      match StringAt(body, "Name")
      case None => Partial(DefaultMaterial)
      case Some(name) =>
        var m1 := DefaultMaterial.(Name := name);
        match Vec3At(body, "Albedo")
        case None => Partial(m1)
        case Some(albedo) =>
          var m2 := m1.(Albedo := albedo);
          match FloatAt(body, "Roughness")
          case None => Partial(m2)
          case Some(roughness) =>
            var m3 := m2.(Roughness := roughness);
            match FloatAt(body, "Metallic")
            case None => Partial(m3)
            case Some(metallic) =>
              var m4 := m3.(Metallic := metallic);
              match Vec3At(body, "EmissionColor")
              case None => Partial(m4)
              case Some(color) =>
                var m5 := m4.(EmissionColor := color);
                match FloatAt(body, "EmissionPower")
                case None => Partial(m5)
                case Some(power) => Complete(m5.(EmissionPower := power))
  }

  /** The loop over a list section: elements are appended in document order
      until one of them throws. The flag says whether the loop finished. */
  function Fill<T>(acc: seq<T>, items: seq<Node>, decode: Node -> Filled<T>): (r: (seq<T>, bool))
    ensures |acc| <= |r.0| <= |acc| + |items|
    ensures r.0[..|acc|] == acc
    ensures r.1 ==> |r.0| == |acc| + |items|
    ensures r.1 ==> forall i :: 0 <= i < |items| ==> decode(items[i]) == Complete(r.0[|acc| + i])
    decreases |items|
  {
    if items == [] then (acc, true)
    else
      match decode(items[0])
      case Skipped => (acc, false)
      case Partial(x) => (acc + [x], false)
      case Complete(x) => Fill(acc + [x], items[1..], decode)
  }

  /** `DeserializeLights` and its siblings: look the section up, skip it when
      it is absent, otherwise iterate over it. */
  function ApplySection<T>(acc: seq<T>, sceneNode: Node, key: string, decode: Node -> Filled<T>): (r: (seq<T>, bool))
  {
    match Lookup(sceneNode, key)
    case None => (acc, false)
    case Some(section) =>
      if !IsDefined(section) then (acc, true)
      else
        match IterationItems(section)
        case None => (acc, false)
        case Some(items) => Fill(acc, items, decode)
  }

  /** `DeserializeSky`: an absent section leaves the sky as it was. */
  function ApplySky(sky: Sky, sceneNode: Node): (r: (Sky, bool))
    ensures Lookup(sceneNode, "Sky") == Some(Undefined) ==> r == (sky, true)
  {
    match Lookup(sceneNode, "Sky")
    case None => (sky, false)
    case Some(node) =>
      if !IsDefined(node) then (sky, true)
      else
        match BoolAt(node, "Enabled")
        case None => (sky, false)
        case Some(enabled) =>
          var s1 := sky.(Enabled := enabled);
          match Vec3At(node, "Color")
          case None => (s1, false)
          case Some(color) => (s1.(Color := color), true)
  }

  /** The part of `Deserialize` after the name was read and the lists cleared. */
  function FillScene(s: Scene, sceneNode: Node): (r: (Outcome, Scene))
    ensures r.0 != Returned(false)
    ensures r.1.Name == s.Name
  {
    var (sky, skyOk) := ApplySky(s.Sky, sceneNode);
    var s1 := s.(Sky := sky);
    if !skyOk then (Threw, s1)
    else
      var (lights, lightsOk) := ApplySection(s1.Lights, sceneNode, "Lights", DecodeLight);
      var s2 := s1.(Lights := lights);
      if !lightsOk then (Threw, s2)
      else
        var (spheres, spheresOk) := ApplySection(s2.Spheres, sceneNode, "Spheres", DecodeSphere);
        var s3 := s2.(Spheres := spheres);
        if !spheresOk then (Threw, s3)
        else
          var (materials, materialsOk) := ApplySection(s3.Materials, sceneNode, "Materials", DecodeMaterial);
          var s4 := s3.(Materials := materials);
          if !materialsOk then (Threw, s4) else (Returned(true), s4)
  }

  /** `Deserialize`: the outcome and the scene it leaves behind, given the
      scene before and what the loader found at the path. */
  function DeserializeScene(current: Scene, file: Option<FileContent>): (r: (Outcome, Scene))
    ensures file.None? ==> r == (Threw, current)
    ensures file == Some(Malformed) ==> r == (Returned(false), current)
    ensures r.0 == Returned(false) ==> r.1 == current
  {
    match file
    case None => (Threw, current)
    case Some(Malformed) => (Returned(false), current)
    case Some(Document(root)) =>
      match Lookup(root, "Scene")
      case None => (Threw, current)
      case Some(sceneNode) =>
        if !IsDefined(sceneNode) then (Returned(false), current)
        else
          match StringAt(sceneNode, "Name")
          case None => (Threw, current)
          case Some(name) => FillScene(current.(Name := name, Lights := [], Spheres := [], Materials := []), sceneNode)
  }

  // ---------------------------------------------------------------------------
  // Properties of reading and writing

  /** What a light looks like after a save and a load: a default light with
      the saved enabled flag and direction. */
  function StoredLight(light: Light): (r: Light)
    ensures r.Enabled == light.Enabled && r.Direction == light.Direction
    ensures r.Position == DefaultLight.Position
  {
    DefaultLight.(Enabled := light.Enabled, Direction := light.Direction)
  }

  /** What a save and a load keep of a scene: everything but the lights'
      positions. */
  function Persisted(s: Scene): (r: Scene)
    ensures r.Name == s.Name && r.Sky == s.Sky && r.Spheres == s.Spheres && r.Materials == s.Materials
    ensures |r.Lights| == |s.Lights|
    ensures forall i :: 0 <= i < |s.Lights| ==> r.Lights[i] == StoredLight(s.Lights[i])
  {
    s.(Lights := MapSeq(s.Lights, StoredLight))
  }

  lemma LightRoundTrip(light: Light)
    ensures DecodeLight(EncodeLight(light)) == Complete(StoredLight(light))
  {
    var fields := LightFields(light);
    FindAt(fields, "Enabled", 0);
    FindAt(fields, "Direction", 1);
  }

  lemma SphereRoundTrip(sphere: Sphere)
    ensures DecodeSphere(EncodeSphere(sphere)) == Complete(sphere)
  {
    var fields := SphereFields(sphere);
    FindAt(fields, "Enabled", 0);
    FindAt(fields, "Position", 1);
    FindAt(fields, "Radius", 2);
    FindAt(fields, "MaterialIndex", 3);
  }

  lemma MaterialRoundTrip(material: Material)
    ensures DecodeMaterial(EncodeMaterial(material)) == Complete(material)
  {
    var fields := MaterialFields(material);
    FindAt(fields, "Name", 0);
    FindAt(fields, "Albedo", 1);
    FindAt(fields, "Roughness", 2);
    FindAt(fields, "Metallic", 3);
    FindAt(fields, "EmissionColor", 4);
    FindAt(fields, "EmissionPower", 5);
  }

  /** Reading back a list that was written element by element. */
  lemma {:induction false} FillEncoded<T>(acc: seq<T>, xs: seq<T>, encode: T -> Node, decode: Node -> Filled<T>, stored: T -> T)
    requires forall x :: decode(encode(x)) == Complete(stored(x))
    ensures Fill(acc, MapSeq(xs, encode), decode) == (acc + MapSeq(xs, stored), true)
    decreases |xs|
  {
    var items := MapSeq(xs, encode);
    if xs != [] {
      assert items[0] == encode(xs[0]);
      assert items[1..] == MapSeq(xs[1..], encode);
      assert decode(items[0]) == Complete(stored(xs[0]));
      assert Fill(acc, items, decode) == Fill(acc + [stored(xs[0])], items[1..], decode);
      FillEncoded(acc + [stored(xs[0])], xs[1..], encode, decode, stored);
      assert MapSeq(xs, stored) == [stored(xs[0])] + MapSeq(xs[1..], stored);
      assert acc + [stored(xs[0])] + MapSeq(xs[1..], stored) == acc + MapSeq(xs, stored);
    } else {
      assert items == [] && acc + MapSeq(xs, stored) == acc;
    }
  }

  lemma {:induction false} MapSeqIdentity<T>(xs: seq<T>, id: T -> T)
    requires forall x :: id(x) == x
    ensures MapSeq(xs, id) == xs
    decreases |xs|
  {
    if xs != [] {
      MapSeqIdentity(xs[1..], id);
      assert xs == [xs[0]] + xs[1..];
    }
  }

  /** A list section written by `encode` reads back through `decode`. */
  lemma SectionRoundTrip<T>(sceneNode: Node, key: string, xs: seq<T>, encode: T -> Node, decode: Node -> Filled<T>, stored: T -> T)
    requires Lookup(sceneNode, key) == Some(Sequence(MapSeq(xs, encode)))
    requires forall x :: decode(encode(x)) == Complete(stored(x))
    ensures ApplySection([], sceneNode, key, decode) == (MapSeq(xs, stored), true)
  {
    FillEncoded([], xs, encode, decode, stored);
    assert [] + MapSeq(xs, stored) == MapSeq(xs, stored);
  }

  /** When every section reads back in full, `FillScene` succeeds with the
      sections it read. */
  lemma FillSceneSucceeds(s: Scene, sceneNode: Node, sky: Sky, lights: seq<Light>, spheres: seq<Sphere>, materials: seq<Material>)
    requires ApplySky(s.Sky, sceneNode) == (sky, true)
    requires ApplySection(s.Lights, sceneNode, "Lights", DecodeLight) == (lights, true)
    requires ApplySection(s.Spheres, sceneNode, "Spheres", DecodeSphere) == (spheres, true)
    requires ApplySection(s.Materials, sceneNode, "Materials", DecodeMaterial) == (materials, true)
    ensures FillScene(s, sceneNode) == (Returned(true), s.(Sky := sky, Lights := lights, Spheres := spheres, Materials := materials))
  {
  }

  lemma SkySectionRoundTrip(sky: Sky, s: Scene)
    ensures ApplySky(sky, Mapping(SceneFields(s))) == (s.Sky, true)
  {
    SceneDocumentLayout(s);
    FindAt(SkyFields(s.Sky), "Color", 1);
  }

  lemma LightsSectionRoundTrip(s: Scene)
    ensures ApplySection([], Mapping(SceneFields(s)), "Lights", DecodeLight) == (MapSeq(s.Lights, StoredLight), true)
  {
    SceneDocumentLayout(s);
    forall l: Light ensures DecodeLight(EncodeLight(l)) == Complete(StoredLight(l)) {
      LightRoundTrip(l);
    }
    SectionRoundTrip(Mapping(SceneFields(s)), "Lights", s.Lights, EncodeLight, DecodeLight, StoredLight);
  }

  lemma SpheresSectionRoundTrip(s: Scene)
    ensures ApplySection([], Mapping(SceneFields(s)), "Spheres", DecodeSphere) == (s.Spheres, true)
  {
    SceneDocumentLayout(s);
    var same := (x: Sphere) => x;
    forall x: Sphere ensures DecodeSphere(EncodeSphere(x)) == Complete(same(x)) {
      SphereRoundTrip(x);
    }
    SectionRoundTrip(Mapping(SceneFields(s)), "Spheres", s.Spheres, EncodeSphere, DecodeSphere, same);
    MapSeqIdentity(s.Spheres, same);
  }

  lemma MaterialsSectionRoundTrip(s: Scene)
    ensures ApplySection([], Mapping(SceneFields(s)), "Materials", DecodeMaterial) == (s.Materials, true)
  {
    SceneDocumentLayout(s);
    var same := (x: Material) => x;
    forall m: Material ensures DecodeMaterial(EncodeMaterial(m)) == Complete(same(m)) {
      MaterialRoundTrip(m);
    }
    SectionRoundTrip(Mapping(SceneFields(s)), "Materials", s.Materials, EncodeMaterial, DecodeMaterial, same);
    MapSeqIdentity(s.Materials, same);
  }

  /** Loading what `Serialize` wrote succeeds and restores the name, the sky,
      every sphere and material and every light's enabled flag and direction,
      in order; only the lights' positions come back as default. */
  lemma SceneRoundTrip(current: Scene, s: Scene)
    ensures DeserializeScene(current, Some(Document(EncodeScene(s)))) == (Returned(true), Persisted(s))
  {
    SceneDocumentLayout(s);
    var sceneNode := Mapping(SceneFields(s));
    var cleared := current.(Name := s.Name, Lights := [], Spheres := [], Materials := []);
    SkySectionRoundTrip(cleared.Sky, s);
    LightsSectionRoundTrip(s);
    SpheresSectionRoundTrip(s);
    MaterialsSectionRoundTrip(s);
    FillSceneSucceeds(cleared, sceneNode, s.Sky, MapSeq(s.Lights, StoredLight), s.Spheres, s.Materials);
    assert cleared.(Sky := s.Sky, Lights := MapSeq(s.Lights, StoredLight), Spheres := s.Spheres, Materials := s.Materials) == Persisted(s);
  }

  /** A scene comes back unchanged exactly when none of its lights was moved
      away from the default position. */
  lemma RoundTripIsExactIffLightsUnmoved(current: Scene, s: Scene)
    ensures DeserializeScene(current, Some(Document(EncodeScene(s)))).1 == s
      <==> forall i :: 0 <= i < |s.Lights| ==> s.Lights[i].Position == DefaultLight.Position
  {
    SceneRoundTrip(current, s);
    if forall i :: 0 <= i < |s.Lights| ==> s.Lights[i].Position == DefaultLight.Position {
      assert Persisted(s).Lights == s.Lights;
    }
  }

  /** A document whose scene map has a name but no Sky, Lights, Spheres or
      Materials key loads successfully: the sky is kept and the lists are empty. */
  lemma MissingSectionsLoadEmpty(current: Scene, root: Node, entries: seq<Entry>)
    requires Lookup(root, "Scene") == Some(Mapping(entries))
    requires StringAt(Mapping(entries), "Name").Some?
    requires forall e | e in entries :: e.key !in {"Sky", "Lights", "Spheres", "Materials"}
    ensures DeserializeScene(current, Some(Document(root)))
      == (Returned(true), current.(Name := StringAt(Mapping(entries), "Name").value, Lights := [], Spheres := [], Materials := []))
  {
    var sceneNode := Mapping(entries);
    FindMissing(entries, "Sky");
    FindMissing(entries, "Lights");
    FindMissing(entries, "Spheres");
    FindMissing(entries, "Materials");
    assert Lookup(sceneNode, "Sky") == Some(Undefined);
    assert Lookup(sceneNode, "Lights") == Some(Undefined);
    assert Lookup(sceneNode, "Spheres") == Some(Undefined);
    assert Lookup(sceneNode, "Materials") == Some(Undefined);
  }

  /** `FillScene` succeeds only when each list section was read in full, and
      each list is then what its section produced. */
  lemma FillSceneSections(s: Scene, sceneNode: Node)
    ensures var r := FillScene(s, sceneNode);
      r.0 == Returned(true) ==>
        && ApplySection(s.Lights, sceneNode, "Lights", DecodeLight) == (r.1.Lights, true)
        && ApplySection(s.Spheres, sceneNode, "Spheres", DecodeSphere) == (r.1.Spheres, true)
        && ApplySection(s.Materials, sceneNode, "Materials", DecodeMaterial) == (r.1.Materials, true)
  {
  }

  /** A load succeeds only through `FillScene`, on the scene whose name was
      read and whose lists were cleared. */
  lemma DeserializeSucceeds(current: Scene, root: Node)
    ensures var r := DeserializeScene(current, Some(Document(root)));
      r.0 == Returned(true) ==>
        && Lookup(root, "Scene").Some?
        && StringAt(Lookup(root, "Scene").value, "Name").Some?
        && r == FillScene(current.(Name := StringAt(Lookup(root, "Scene").value, "Name").value, Lights := [], Spheres := [], Materials := []),
                          Lookup(root, "Scene").value)
  {
  }

  /** A list section that was read in full from a sequence holds one decoded
      element per item, in order. */
  lemma SectionFollowsItems<T>(sceneNode: Node, key: string, items: seq<Node>, decode: Node -> Filled<T>, result: seq<T>)
    requires Lookup(sceneNode, key) == Some(Sequence(items))
    requires ApplySection([], sceneNode, key, decode) == (result, true)
    ensures |result| == |items| && forall i :: 0 <= i < |items| ==> decode(items[i]) == Complete(result[i])
  {
    assert ApplySection([], sceneNode, key, decode) == Fill([], items, decode);
  }

  /** After a successful load the lights are the decoded elements of the
      document's Lights sequence, all of them, in document order. */
  lemma LoadedLightsFollowDocument(current: Scene, root: Node, sceneNode: Node, items: seq<Node>)
    requires Lookup(root, "Scene") == Some(sceneNode)
    requires Lookup(sceneNode, "Lights") == Some(Sequence(items))
    ensures var r := DeserializeScene(current, Some(Document(root)));
      r.0 == Returned(true) ==>
        |r.1.Lights| == |items| && forall i :: 0 <= i < |items| ==> DecodeLight(items[i]) == Complete(r.1.Lights[i])
  {
    var r := DeserializeScene(current, Some(Document(root)));
    DeserializeSucceeds(current, root);
    if r.0 == Returned(true) {
      var cleared := current.(Name := StringAt(sceneNode, "Name").value, Lights := [], Spheres := [], Materials := []);
      FillSceneSections(cleared, sceneNode);
      SectionFollowsItems(sceneNode, "Lights", items, DecodeLight, r.1.Lights);
    }
  }

  /** After a successful load the spheres are the decoded elements of the
      document's Spheres sequence, all of them, in document order. */
  lemma LoadedSpheresFollowDocument(current: Scene, root: Node, sceneNode: Node, items: seq<Node>)
    requires Lookup(root, "Scene") == Some(sceneNode)
    requires Lookup(sceneNode, "Spheres") == Some(Sequence(items))
    ensures var r := DeserializeScene(current, Some(Document(root)));
      r.0 == Returned(true) ==>
        |r.1.Spheres| == |items| && forall i :: 0 <= i < |items| ==> DecodeSphere(items[i]) == Complete(r.1.Spheres[i])
  {
    var r := DeserializeScene(current, Some(Document(root)));
    DeserializeSucceeds(current, root);
    if r.0 == Returned(true) {
      var cleared := current.(Name := StringAt(sceneNode, "Name").value, Lights := [], Spheres := [], Materials := []);
      FillSceneSections(cleared, sceneNode);
      SectionFollowsItems(sceneNode, "Spheres", items, DecodeSphere, r.1.Spheres);
    }
  }

  /** After a successful load the materials are the decoded elements of the
      document's Materials sequence, all of them, in document order. */
  lemma LoadedMaterialsFollowDocument(current: Scene, root: Node, sceneNode: Node, items: seq<Node>)
    requires Lookup(root, "Scene") == Some(sceneNode)
    requires Lookup(sceneNode, "Materials") == Some(Sequence(items))
    ensures var r := DeserializeScene(current, Some(Document(root)));
      r.0 == Returned(true) ==>
        |r.1.Materials| == |items| && forall i :: 0 <= i < |items| ==> DecodeMaterial(items[i]) == Complete(r.1.Materials[i])
  {
    var r := DeserializeScene(current, Some(Document(root)));
    DeserializeSucceeds(current, root);
    if r.0 == Returned(true) {
      var cleared := current.(Name := StringAt(sceneNode, "Name").value, Lights := [], Spheres := [], Materials := []);
      FillSceneSections(cleared, sceneNode);
      SectionFollowsItems(sceneNode, "Materials", items, DecodeMaterial, r.1.Materials);
    }
  }

  /** A document whose root has no "Scene" key, a map without it or a null
      root, makes the load return false and leaves the scene as it was. */
  lemma MissingSceneKeyKeepsScene(current: Scene, entries: seq<Entry>)
    requires forall e | e in entries :: e.key != "Scene"
    ensures DeserializeScene(current, Some(Document(Mapping(entries)))) == (Returned(false), current)
    ensures DeserializeScene(current, Some(Document(Null))) == (Returned(false), current)
  {
    FindMissing(entries, "Scene");
  }

  // ---------------------------------------------------------------------------
  // The serializer, updating the shared scene in place

  class SceneSerializer {
    const scene: SceneSlot

    constructor(scene: SceneSlot)
      ensures this.scene == scene
    {
      this.scene := scene;
    }

    /** Writes the document for the current scene to the path and reports
        success; a failed write is not detected. */
    method Serialize(disk: Disk, path: string) returns (ok: bool)
      modifies disk
      ensures ok
      ensures disk.files == old(disk.files)[path := Document(EncodeScene(scene.value))]
    {
      var doc := EncodeScene(scene.value);
      disk.files := disk.files[path := Document(doc)];
      ok := true;
    }

    method Deserialize(disk: Disk, path: string) returns (outcome: Outcome)
      modifies scene
      ensures (outcome, scene.value) == DeserializeScene(old(scene.value), ReadFile(disk.files, path))
    {
      var file := ReadFile(disk.files, path);
      if file.None? {
        return Threw;
      }
      if file.value.Malformed? {
        return Returned(false);
      }
      var sceneNode := Lookup(file.value.root, "Scene");
      if sceneNode.None? {
        return Threw;
      }
      if !IsDefined(sceneNode.value) {
        return Returned(false);
      }
      var name := StringAt(sceneNode.value, "Name");
      if name.None? {
        return Threw;
      }
      scene.value := scene.value.(Name := name.value);
      scene.value := scene.value.(Lights := []);
      scene.value := scene.value.(Spheres := []);
      scene.value := scene.value.(Materials := []);

      var ok := DeserializeSky(sceneNode.value);
      if !ok {
        return Threw;
      }
      ok := DeserializeLights(sceneNode.value);
      if !ok {
        return Threw;
      }
      ok := DeserializeSpheres(sceneNode.value);
      if !ok {
        return Threw;
      }
      ok := DeserializeMaterials(sceneNode.value);
      if !ok {
        return Threw;
      }
      return Returned(true);
    }

    method DeserializeSky(sceneNode: Node) returns (ok: bool)
      modifies scene
      ensures (scene.value.Sky, ok) == ApplySky(old(scene.value.Sky), sceneNode)
      ensures scene.value == old(scene.value).(Sky := scene.value.Sky)
    {
      var skyNode := Lookup(sceneNode, "Sky");
      if skyNode.None? {
        return false;
      }
      if !IsDefined(skyNode.value) {
        return true;
      }
      var enabled := BoolAt(skyNode.value, "Enabled");
      if enabled.None? {
        return false;
      }
      scene.value := scene.value.(Sky := scene.value.Sky.(Enabled := enabled.value));
      var color := Vec3At(skyNode.value, "Color");
      if color.None? {
        return false;
      }
      scene.value := scene.value.(Sky := scene.value.Sky.(Color := color.value));
      return true;
    }

    method DeserializeLights(sceneNode: Node) returns (ok: bool)
      modifies scene
      ensures (scene.value.Lights, ok) == ApplySection(old(scene.value.Lights), sceneNode, "Lights", DecodeLight)
      ensures scene.value == old(scene.value).(Lights := scene.value.Lights)
    {
      var section := Lookup(sceneNode, "Lights");
      if section.None? {
        return false;
      }
      if !IsDefined(section.value) {
        return true;
      }
      var items := IterationItems(section.value);
      if items.None? {
        return false;
      }
      var nodes := items.value;
      var i := 0;
      while i < |nodes|
        invariant 0 <= i <= |nodes|
        invariant scene.value == old(scene.value).(Lights := scene.value.Lights)
        invariant Fill(scene.value.Lights, nodes[i..], DecodeLight) == Fill(old(scene.value.Lights), nodes, DecodeLight)
      {
        assert nodes[i..][0] == nodes[i] && nodes[i..][1..] == nodes[i + 1..];
        var itemOk := DeserializeLight(nodes[i]);
        if !itemOk {
          return false;
        }
        i := i + 1;
      }
      return true;
    }

    /** Appends a default light, then assigns its fields one by one. */
    method DeserializeLight(item: Node) returns (ok: bool)
      modifies scene
      ensures ok == DecodeLight(item).Complete?
      ensures scene.value == old(scene.value).(Lights := Appended(old(scene.value.Lights), DecodeLight(item)))
    {
      var body := Lookup(item, "Light");
      if body.None? {
        return false;
      }
      var before := scene.value.Lights;
      var light := DefaultLight;
      scene.value := scene.value.(Lights := before + [light]);
      var enabled := BoolAt(body.value, "Enabled");
      if enabled.None? {
        return false;
      }
      light := light.(Enabled := enabled.value);
      scene.value := scene.value.(Lights := before + [light]);
      var direction := Vec3At(body.value, "Direction");
      if direction.None? {
        return false;
      }
      light := light.(Direction := direction.value);
      scene.value := scene.value.(Lights := before + [light]);
      return true;
    }

    method DeserializeSpheres(sceneNode: Node) returns (ok: bool)
      modifies scene
      ensures (scene.value.Spheres, ok) == ApplySection(old(scene.value.Spheres), sceneNode, "Spheres", DecodeSphere)
      ensures scene.value == old(scene.value).(Spheres := scene.value.Spheres)
    {
      var section := Lookup(sceneNode, "Spheres");
      if section.None? {
        return false;
      }
      if !IsDefined(section.value) {
        return true;
      }
      var items := IterationItems(section.value);
      if items.None? {
        return false;
      }
      var nodes := items.value;
      var i := 0;
      while i < |nodes|
        invariant 0 <= i <= |nodes|
        invariant scene.value == old(scene.value).(Spheres := scene.value.Spheres)
        invariant Fill(scene.value.Spheres, nodes[i..], DecodeSphere) == Fill(old(scene.value.Spheres), nodes, DecodeSphere)
      {
        assert nodes[i..][0] == nodes[i] && nodes[i..][1..] == nodes[i + 1..];
        var itemOk := DeserializeSphere(nodes[i]);
        if !itemOk {
          return false;
        }
        i := i + 1;
      }
      return true;
    }

    method DeserializeSphere(item: Node) returns (ok: bool)
      modifies scene
      ensures ok == DecodeSphere(item).Complete?
      ensures scene.value == old(scene.value).(Spheres := Appended(old(scene.value.Spheres), DecodeSphere(item)))
    {
      var body := Lookup(item, "Sphere");
      if body.None? {
        return false;
      }
      var before := scene.value.Spheres;
      var sphere := DefaultSphere;
      scene.value := scene.value.(Spheres := before + [sphere]);
      var enabled := BoolAt(body.value, "Enabled");
      if enabled.None? {
        return false;
      }
      sphere := sphere.(Enabled := enabled.value);
      scene.value := scene.value.(Spheres := before + [sphere]);
      var position := Vec3At(body.value, "Position");
      if position.None? {
        return false;
      }
      sphere := sphere.(Position := position.value);
      scene.value := scene.value.(Spheres := before + [sphere]);
      var radius := FloatAt(body.value, "Radius");
      if radius.None? {
        return false;
      }
      sphere := sphere.(Radius := radius.value);
      scene.value := scene.value.(Spheres := before + [sphere]);
      var index := IntAt(body.value, "MaterialIndex");
      if index.None? {
        return false;
      }
      sphere := sphere.(MaterialIndex := index.value);
      scene.value := scene.value.(Spheres := before + [sphere]);
      return true;
    }

    method DeserializeMaterials(sceneNode: Node) returns (ok: bool)
      modifies scene
      ensures (scene.value.Materials, ok) == ApplySection(old(scene.value.Materials), sceneNode, "Materials", DecodeMaterial)
      ensures scene.value == old(scene.value).(Materials := scene.value.Materials)
    {
      var section := Lookup(sceneNode, "Materials");
      if section.None? {
        return false;
      }
      if !IsDefined(section.value) {
        return true;
      }
      var items := IterationItems(section.value);
      if items.None? {
        return false;
      }
      var nodes := items.value;
      var i := 0;
      while i < |nodes|
        invariant 0 <= i <= |nodes|
        invariant scene.value == old(scene.value).(Materials := scene.value.Materials)
        invariant Fill(scene.value.Materials, nodes[i..], DecodeMaterial) == Fill(old(scene.value.Materials), nodes, DecodeMaterial)
      {
        assert nodes[i..][0] == nodes[i] && nodes[i..][1..] == nodes[i + 1..];
        var itemOk := DeserializeMaterial(nodes[i]);
        if !itemOk {
          return false;
        }
        i := i + 1;
      }
      return true;
    }

    method DeserializeMaterial(item: Node) returns (ok: bool)
      modifies scene
      ensures ok == DecodeMaterial(item).Complete?
      ensures scene.value == old(scene.value).(Materials := Appended(old(scene.value.Materials), DecodeMaterial(item)))
    {
      var body := Lookup(item, "Material");
      if body.None? {
        return false;
      }
      var before := scene.value.Materials;
      var material := DefaultMaterial;
      scene.value := scene.value.(Materials := before + [material]);
      var name := StringAt(body.value, "Name");
      if name.None? {
        return false;
      }
      material := material.(Name := name.value);
      scene.value := scene.value.(Materials := before + [material]);
      var albedo := Vec3At(body.value, "Albedo");
      if albedo.None? {
        return false;
      }
      material := material.(Albedo := albedo.value);
      scene.value := scene.value.(Materials := before + [material]);
      var roughness := FloatAt(body.value, "Roughness");
      if roughness.None? {
        return false;
      }
      material := material.(Roughness := roughness.value);
      scene.value := scene.value.(Materials := before + [material]);
      var metallic := FloatAt(body.value, "Metallic");
      if metallic.None? {
        return false;
      }
      material := material.(Metallic := metallic.value);
      scene.value := scene.value.(Materials := before + [material]);
      var color := Vec3At(body.value, "EmissionColor");
      if color.None? {
        return false;
      }
      material := material.(EmissionColor := color.value);
      scene.value := scene.value.(Materials := before + [material]);
      var power := FloatAt(body.value, "EmissionPower");
      if power.None? {
        return false;
      }
      material := material.(EmissionPower := power.value);
      scene.value := scene.value.(Materials := before + [material]);
      return true;
    }

  }
}
