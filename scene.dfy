/** The scene records of Scene/Scene.h, in the shape the editor panel and the
    serializer use them: a sky, lights with an enabled flag, named materials
    and spheres with an enabled flag. */
module SceneData {
  import opened Basics

  /** A `glm::vec3`. Components are exact reals: they are only copied and
      compared, except in `Material.GetEmission`. */
  datatype Vec3 = Vec3(x: real, y: real, z: real)

  /** `glm::vec3{ v }`: the same value in every component. */
  function Splat(v: real): (r: Vec3)
    ensures r.x == r.y == r.z == v
  {
    Vec3(v, v, v)
  }

  const White: Vec3 := Vec3(1.0, 1.0, 1.0)
  const Black: Vec3 := Vec3(0.0, 0.0, 0.0)
  /** `Color::Sky` of Utils/Color.h. */
  const SkyBlue: Vec3 := Vec3(0.6, 0.7, 0.9)

  datatype Sky = Sky(Enabled: bool, Color: Vec3)

  /** The editor panel edits `Position`; the serializer stores `Direction`. */
  datatype Light = Light(Enabled: bool, Position: Vec3, Direction: Vec3)

  datatype Material = Material(
    Name: string,
    Albedo: Vec3,
    Roughness: real,
    Metallic: real,
    EmissionColor: Vec3,
    EmissionPower: real)
  {
    /** The emitted radiance: the emission colour scaled by the emission power. */
    function GetEmission(): (e: Vec3)
      ensures EmissionPower == 0.0 ==> e == Black
      ensures EmissionColor == Black ==> e == Black
      ensures EmissionPower == 1.0 ==> e == EmissionColor
    {
      Vec3(EmissionColor.x * EmissionPower, EmissionColor.y * EmissionPower, EmissionColor.z * EmissionPower)
    }
  }

  datatype Sphere = Sphere(Enabled: bool, Position: Vec3, Radius: real, MaterialIndex: Int32)

  datatype Scene = Scene(
    Name: string,
    Sky: Sky,
    Spheres: seq<Sphere>,
    Materials: seq<Material>,
    Lights: seq<Light>)

  // Default member initialisers. `Direction{ -1.0f }`, the material, sphere and
  // scene values come from the header; the sky, the enabled flags, the light
  // position and the material name are not initialised there and take the
  // values below.
  const DefaultSky: Sky := Sky(true, SkyBlue)
  const DefaultLight: Light := Light(true, Splat(0.0), Splat(-1.0))
  const DefaultMaterial: Material := Material("", White, 1.0, 0.0, Black, 0.0)
  const DefaultSphere: Sphere := Sphere(true, Splat(0.0), 0.5, 0)
  const DefaultScene: Scene := Scene("Default", DefaultSky, [], [], [])

  /** What a value-initialised record holds. */
  lemma DefaultValues()
    ensures DefaultLight.Direction == Vec3(-1.0, -1.0, -1.0)
    ensures DefaultMaterial.Albedo == White && DefaultMaterial.Roughness == 1.0
    ensures DefaultMaterial.Metallic == 0.0 && DefaultMaterial.EmissionColor == Black
    ensures DefaultMaterial.EmissionPower == 0.0
    ensures DefaultSphere.Position == Vec3(0.0, 0.0, 0.0) && DefaultSphere.Radius == 0.5
    ensures DefaultSphere.MaterialIndex == 0
    ensures DefaultScene.Name == "Default"
    ensures DefaultScene.Spheres == [] && DefaultScene.Materials == [] && DefaultScene.Lights == []
  {
  }

  /** A default material emits nothing. */
  lemma DefaultMaterialEmitsNothing()
    ensures DefaultMaterial.GetEmission() == Black
  {
  }

  /** The program holds one `Scene` and hands references to it to the editor
      panel and to the serializer; this object is that shared scene. */
  class SceneSlot {
    var value: Scene

    constructor(initial: Scene)
      ensures value == initial
    {
      value := initial;
    }
  }
}
