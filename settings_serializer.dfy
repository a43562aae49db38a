/** Renderer/Serializer/RendererSettingsSerializer.cpp: the renderer settings
    written to and read back from a YAML document. */
module SettingsSerialization {
  import opened Basics
  import opened Yaml
  import opened RendererState

  /** The keys `SerializeSettings` writes, in order. */
  const SettingsKeys: seq<string> := ["Accumulate", "Multithreading", "FastRandom", "UseClockTime",
    "UseFrameIndex", "UseRayBounces", "RayBounces", "ResolutionScale"]

  function SettingsFields(s: Settings): seq<Entry> {
    [Entry("Accumulate", Scalar(Bool(s.Accumulate))),
     Entry("Multithreading", Scalar(Bool(s.Multithreading))),
     Entry("FastRandom", Scalar(Bool(s.FastRandom))),
     Entry("UseClockTime", Scalar(Bool(s.UseClockTime))),
     Entry("UseFrameIndex", Scalar(Bool(s.UseFrameIndex))),
     Entry("UseRayBounces", Scalar(Bool(s.UseRayBounces))),
     Entry("RayBounces", Scalar(Int(s.RayBounces as int))),
     Entry("ResolutionScale", Scalar(Int(s.ResolutionScale as int)))]
  }

  /** The document `Serialize` emits: a root map whose one key, "Renderer",
      holds the eight settings keys in order. */
  function EncodeSettings(s: Settings): (doc: Node)
    ensures doc.Mapping? && |doc.entries| == 1 && doc.entries[0].key == "Renderer"
    ensures var body := doc.entries[0].value;
      body.Mapping? && |body.entries| == |SettingsKeys|
      && forall i :: 0 <= i < |SettingsKeys| ==> body.entries[i].key == SettingsKeys[i]
  {
    Mapping([Entry("Renderer", Mapping(SettingsFields(s)))])
  }

  /** `DeserializeSettings`: the eight fields are assigned in order through a
      reference to the renderer's settings; the flag is false when a lookup or
      a conversion threw, with the fields before it already assigned. */
  function DecodeSettings(current: Settings, node: Node): (r: (Settings, bool))
    ensures !r.1 ==> r.0.ResolutionScale == current.ResolutionScale
  {
    var flags := DecodeFlags(current, node);
    if !flags.1 then flags else DecodeCounts(flags.0, node)
  }

  /** The six flags, the first six assignments. */
  function DecodeFlags(current: Settings, node: Node): (r: (Settings, bool))
    ensures r.0.RayBounces == current.RayBounces && r.0.ResolutionScale == current.ResolutionScale
  {
    match BoolAt(node, "Accumulate")
    case None => (current, false)
    case Some(accumulate) =>
      var s1 := current.(Accumulate := accumulate);
      match BoolAt(node, "Multithreading")
      case None => (s1, false)
      case Some(multithreading) =>
        var s2 := s1.(Multithreading := multithreading);
        match BoolAt(node, "FastRandom")
        case None => (s2, false)
        case Some(fastRandom) =>
          var s3 := s2.(FastRandom := fastRandom);
          match BoolAt(node, "UseClockTime")
          case None => (s3, false)
          case Some(useClockTime) =>
            var s4 := s3.(UseClockTime := useClockTime);
            match BoolAt(node, "UseFrameIndex")
            case None => (s4, false)
            case Some(useFrameIndex) =>
              var s5 := s4.(UseFrameIndex := useFrameIndex);
              match BoolAt(node, "UseRayBounces")
              case None => (s5, false)
              case Some(useRayBounces) => (s5.(UseRayBounces := useRayBounces), true)
  }

  /** The flags read from a node are the flag assignments applied to what
      the six lookups give. */
  lemma DecodeFlagsApplies(current: Settings, node: Node)
    ensures DecodeFlags(current, node) == ApplyFlags(current, BoolAt(node, "Accumulate"), BoolAt(node, "Multithreading"),
      BoolAt(node, "FastRandom"), BoolAt(node, "UseClockTime"), BoolAt(node, "UseFrameIndex"), BoolAt(node, "UseRayBounces"))
  {
  }

  /** The flag assignments, given what each lookup gave: they stop at the
      first that threw. */
  function ApplyFlags(current: Settings, accumulate: Option<bool>, multithreading: Option<bool>,
    fastRandom: Option<bool>, useClockTime: Option<bool>, useFrameIndex: Option<bool>, useRayBounces: Option<bool>): (r: (Settings, bool))
    ensures r.0.RayBounces == current.RayBounces && r.0.ResolutionScale == current.ResolutionScale
  {
    match accumulate
    case None => (current, false)
    case Some(v1) =>
      var s1 := current.(Accumulate := v1);
      match multithreading
      case None => (s1, false)
      case Some(v2) =>
        var s2 := s1.(Multithreading := v2);
        match fastRandom
        case None => (s2, false)
        case Some(v3) =>
          var s3 := s2.(FastRandom := v3);
          match useClockTime
          case None => (s3, false)
          case Some(v4) =>
            var s4 := s3.(UseClockTime := v4);
            match useFrameIndex
            case None => (s4, false)
            case Some(v5) =>
              var s5 := s4.(UseFrameIndex := v5);
              match useRayBounces
              case None => (s5, false)
              case Some(v6) => (s5.(UseRayBounces := v6), true)
  }

  /** The two counts, the last two assignments. */
  function DecodeCounts(current: Settings, node: Node): (r: (Settings, bool))
    ensures !r.1 ==> r.0.ResolutionScale == current.ResolutionScale
  {
    match IntAt(node, "RayBounces")
    case None => (current, false)
    case Some(rayBounces) =>
      var s7 := current.(RayBounces := rayBounces);
      match IntAt(node, "ResolutionScale")
      case None => (s7, false)
      case Some(resolutionScale) => (s7.(ResolutionScale := resolutionScale), true)
  }

  /** `Deserialize`: the outcome and the settings it leaves behind. */
  function DeserializeSettingsFile(current: Settings, file: Option<FileContent>): (r: (Outcome, Settings))
    ensures file.None? ==> r == (Threw, current)
    ensures file == Some(Malformed) ==> r == (Returned(false), current)
    ensures r.0 == Returned(false) ==> r.1 == current
  {
    match file
    case None => (Threw, current)
    case Some(Malformed) => (Returned(false), current)
    case Some(Document(root)) =>
      match Lookup(root, "Renderer")
      case None => (Threw, current)
      case Some(node) =>
        if !IsDefined(node) then (Returned(false), current)
        else
          var (settings, ok) := DecodeSettings(current, node);
          if ok then (Returned(true), settings) else (Threw, settings)
  }

  /** A complete read overwrites every field: its result does not depend on
      the settings it started from. */
  lemma DecodeOverwritesAll(a: Settings, b: Settings, node: Node)
    ensures DecodeSettings(a, node).1 == DecodeSettings(b, node).1
    ensures DecodeSettings(a, node).1 ==> DecodeSettings(a, node).0 == DecodeSettings(b, node).0
  {
    FlagsOverwritten(a, b, node);
  }

  /** A complete read of the flags sets all six of them from the node. */
  lemma FlagsOverwritten(a: Settings, b: Settings, node: Node)
    ensures DecodeFlags(a, node).1 == DecodeFlags(b, node).1
    ensures DecodeFlags(a, node).1 ==>
      DecodeFlags(a, node).0 == DecodeFlags(b, node).0.(RayBounces := a.RayBounces, ResolutionScale := a.ResolutionScale)
  {
    DecodeFlagsApplies(a, node);
    DecodeFlagsApplies(b, node);
    FlagsFromLookups(a, b, BoolAt(node, "Accumulate"), BoolAt(node, "Multithreading"), BoolAt(node, "FastRandom"),
      BoolAt(node, "UseClockTime"), BoolAt(node, "UseFrameIndex"), BoolAt(node, "UseRayBounces"));
  }

  lemma FlagsFromLookups(a: Settings, b: Settings, o1: Option<bool>, o2: Option<bool>, o3: Option<bool>,
    o4: Option<bool>, o5: Option<bool>, o6: Option<bool>)
    ensures ApplyFlags(a, o1, o2, o3, o4, o5, o6).1 == ApplyFlags(b, o1, o2, o3, o4, o5, o6).1
    ensures ApplyFlags(a, o1, o2, o3, o4, o5, o6).1 ==>
      ApplyFlags(a, o1, o2, o3, o4, o5, o6).0
        == ApplyFlags(b, o1, o2, o3, o4, o5, o6).0.(RayBounces := a.RayBounces, ResolutionScale := a.ResolutionScale)
  {
  }

  /** A document without a "Renderer" key leaves the settings unchanged. */
  lemma MissingRendererKeyKeepsSettings(current: Settings, entries: seq<Entry>)
    requires forall e | e in entries :: e.key != "Renderer"
    ensures DeserializeSettingsFile(current, Some(Document(Mapping(entries)))) == (Returned(false), current)
  {
    FindMissing(entries, "Renderer");
  }

  /** Where each flag sits in the document. */
  lemma FlagsLayout(s: Settings)
    ensures var node := Mapping(SettingsFields(s));
      && BoolAt(node, "Accumulate") == Some(s.Accumulate)
      && BoolAt(node, "Multithreading") == Some(s.Multithreading)
      && BoolAt(node, "FastRandom") == Some(s.FastRandom)
      && BoolAt(node, "UseClockTime") == Some(s.UseClockTime)
      && BoolAt(node, "UseFrameIndex") == Some(s.UseFrameIndex)
      && BoolAt(node, "UseRayBounces") == Some(s.UseRayBounces)
  {
    var fields := SettingsFields(s);
    FindAt(fields, "Multithreading", 1);
    FindAt(fields, "FastRandom", 2);
    FindAt(fields, "UseClockTime", 3);
    FindAt(fields, "UseFrameIndex", 4);
    FindAt(fields, "UseRayBounces", 5);
  }

  /** Where the two counts sit in the document. */
  lemma CountsLayout(s: Settings)
    ensures var node := Mapping(SettingsFields(s));
      && IntAt(node, "RayBounces") == Some(s.RayBounces)
      && IntAt(node, "ResolutionScale") == Some(s.ResolutionScale)
  {
    var fields := SettingsFields(s);
    FindAt(fields, "RayBounces", 6);
    FindAt(fields, "ResolutionScale", 7);
  }

  /** Loading what `Serialize` wrote reproduces the settings exactly, whatever
      the settings were before. */
  lemma SettingsRoundTrip(current: Settings, s: Settings)
    ensures DeserializeSettingsFile(current, Some(Document(EncodeSettings(s)))) == (Returned(true), s)
  {
    FlagsLayout(s);
    CountsLayout(s);
  }

  class RendererSettingsSerializer {
    const renderer: Renderer

    constructor(renderer: Renderer)
      ensures this.renderer == renderer
    {
      this.renderer := renderer;
    }

    /** Writes the document for the current settings and reports success; a
        failed write is not detected. */
    method Serialize(disk: Disk, path: string) returns (ok: bool)
      modifies disk
      ensures ok
      ensures disk.files == old(disk.files)[path := Document(EncodeSettings(renderer.settings))]
    {
      var doc := EncodeSettings(renderer.settings);
      disk.files := disk.files[path := Document(doc)];
      ok := true;
    }

    method Deserialize(disk: Disk, path: string) returns (outcome: Outcome)
      modifies renderer`settings
      ensures (outcome, renderer.settings) == DeserializeSettingsFile(old(renderer.settings), ReadFile(disk.files, path))
    {
      var file := ReadFile(disk.files, path);
      if file.None? {
        return Threw;
      }
      if file.value.Malformed? {
        return Returned(false);
      }
      var node := Lookup(file.value.root, "Renderer");
      if node.None? {
        return Threw;
      }
      if !IsDefined(node.value) {
        return Returned(false);
      }
      var ok := DeserializeSettings(node.value);
      outcome := if ok then Returned(true) else Threw;
    }

    method DeserializeSettings(node: Node) returns (ok: bool)
      modifies renderer`settings
      ensures (renderer.settings, ok) == DecodeSettings(old(renderer.settings), node)
    {
      ok := DeserializeFlags(node);
      if !ok {
        return;
      }
      ok := DeserializeCounts(node);
    }

    method DeserializeFlags(node: Node) returns (ok: bool)
      modifies renderer`settings
      ensures (renderer.settings, ok) == DecodeFlags(old(renderer.settings), node)
    {
      DecodeFlagsApplies(renderer.settings, node);
      var accumulate := BoolAt(node, "Accumulate");
      if accumulate.None? {
        return false;
      }
      renderer.settings := renderer.settings.(Accumulate := accumulate.value);
      var multithreading := BoolAt(node, "Multithreading");
      if multithreading.None? {
        return false;
      }
      renderer.settings := renderer.settings.(Multithreading := multithreading.value);
      var fastRandom := BoolAt(node, "FastRandom");
      if fastRandom.None? {
        return false;
      }
      renderer.settings := renderer.settings.(FastRandom := fastRandom.value);
      var useClockTime := BoolAt(node, "UseClockTime");
      if useClockTime.None? {
        return false;
      }
      renderer.settings := renderer.settings.(UseClockTime := useClockTime.value);
      var useFrameIndex := BoolAt(node, "UseFrameIndex");
      if useFrameIndex.None? {
        return false;
      }
      renderer.settings := renderer.settings.(UseFrameIndex := useFrameIndex.value);
      var useRayBounces := BoolAt(node, "UseRayBounces");
      if useRayBounces.None? {
        return false;
      }
      renderer.settings := renderer.settings.(UseRayBounces := useRayBounces.value);
      return true;
    }

    method DeserializeCounts(node: Node) returns (ok: bool)
      modifies renderer`settings
      ensures (renderer.settings, ok) == DecodeCounts(old(renderer.settings), node)
    {
      var rayBounces := IntAt(node, "RayBounces");
      if rayBounces.None? {
        return false;
      }
      renderer.settings := renderer.settings.(RayBounces := rayBounces.value);
      var resolutionScale := IntAt(node, "ResolutionScale");
      if resolutionScale.None? {
        return false;
      }
      renderer.settings := renderer.settings.(ResolutionScale := resolutionScale.value);
      return true;
    }
  }
}
