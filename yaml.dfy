/** The part of yaml-cpp the serializers rely on, as a node tree: looking a
    key up, converting a scalar with `as<T>()`, testing a node for presence
    and iterating over it. Text formatting and parsing are not modelled: a file
    either failed to parse or holds a node tree. */
module Yaml {
  import opened Basics

  /** A scalar as the parser reads it. */
  datatype Atom = Bool(b: bool) | Int(i: int) | Float(f: real) | Text(s: string)

  datatype Node =
    | Undefined            // what looking up a missing key yields; tests false
    | Null
    | Scalar(atom: Atom)
    | Sequence(items: seq<Node>)
    | Mapping(entries: seq<Entry>)

  datatype Entry = Entry(key: string, value: Node)

  /** `operator bool` of a node: whether it is defined. A null node is defined. */
  predicate IsDefined(n: Node) {
    !n.Undefined?
  }

  /** The value stored under the first entry with this key; its meaning is
      stated by the lemmas `FindAt` and `FindMissing`. */
  function Find(entries: seq<Entry>, key: string): Node {
    if entries == [] then Undefined
    else if entries[0].key == key then entries[0].value
    else Find(entries[1..], key)
  }

  /** The first entry with the key decides the lookup. */
  lemma {:induction false} FindAt(entries: seq<Entry>, key: string, i: nat)
    requires i < |entries| && entries[i].key == key
    requires forall j | 0 <= j < i :: entries[j].key != key
    ensures Find(entries, key) == entries[i].value
  {
    if i > 0 {
      FindAt(entries[1..], key, i - 1);
    }
  }

  /** A key no entry carries looks up as an undefined node. */
  lemma {:induction false} FindMissing(entries: seq<Entry>, key: string)
    requires forall e | e in entries :: e.key != key
    ensures Find(entries, key) == Undefined
  {
    if entries != [] {
      assert entries[0] in entries;
      FindMissing(entries[1..], key);
    }
  }

  /** `node[key]` on a non-const node. A scalar throws `BadSubscript` (None); a
      map yields the value under the key, or an undefined node when the key is
      missing; any other node is turned into a map first, which never holds a
      string key, so the result is undefined. */
  function Lookup(n: Node, key: string): (r: Option<Node>)
    ensures r.None? <==> n.Scalar?
    ensures n.Mapping? ==> r == Some(Find(n.entries, key))
    ensures !n.Scalar? && !n.Mapping? ==> r == Some(Undefined)
  {
    match n
    case Scalar(_) => None
    case Mapping(entries) => Some(Find(entries, key))
    case _ => Some(Undefined)
  }

  // `as<T>()`: None when the conversion throws.

  function AsBool(n: Node): (r: Option<bool>)
    ensures r.Some? <==> n.Scalar? && n.atom.Bool?
    ensures r.Some? ==> n == Scalar(Bool(r.value))
  {
    if n.Scalar? && n.atom.Bool? then Some(n.atom.b) else None
  }

  /** Integers outside the range of `int` do not convert. */
  function AsInt(n: Node): (r: Option<Int32>)
    ensures r.Some? <==> n.Scalar? && n.atom.Int? && -TwoTo31 <= n.atom.i < TwoTo31
    ensures r.Some? ==> n == Scalar(Int(r.value as int))
  {
    if n.Scalar? && n.atom.Int? && -TwoTo31 <= n.atom.i < TwoTo31 then Some(n.atom.i as Int32) else None
  }

  /** An integer scalar reads as a float too. */
  function AsFloat(n: Node): (r: Option<real>)
    ensures r.Some? <==> n.Scalar? && (n.atom.Float? || n.atom.Int?)
    ensures n.Scalar? && n.atom.Float? ==> r == Some(n.atom.f)
  {
    if n.Scalar? && n.atom.Float? then Some(n.atom.f)
    else if n.Scalar? && n.atom.Int? then Some(n.atom.i as real)
    else None
  }

  /** A null node reads as the string "null". */
  function AsString(n: Node): (r: Option<string>)
    ensures r.Some? <==> (n.Scalar? && n.atom.Text?) || n.Null?
    ensures n.Scalar? && n.atom.Text? ==> r == Some(n.atom.s)
    ensures n.Null? ==> r == Some("null")
  {
    if n.Scalar? && n.atom.Text? then Some(n.atom.s)
    else if n.Null? then Some("null")
    else None
  }

  // `node[key].as<T>()`, failing when either step throws.

  function BoolAt(n: Node, key: string): Option<bool> {
    match Lookup(n, key)
    case None => None
    case Some(v) => AsBool(v)
  }

  function IntAt(n: Node, key: string): Option<Int32> {
    match Lookup(n, key)
    case None => None
    case Some(v) => AsInt(v)
  }

  function FloatAt(n: Node, key: string): Option<real> {
    match Lookup(n, key)
    case None => None
    case Some(v) => AsFloat(v)
  }

  function StringAt(n: Node, key: string): Option<string> {
    match Lookup(n, key)
    case None => None
    case Some(v) => AsString(v)
  }

  /** The nodes a range-for over `n` visits. A sequence yields its items; a
      scalar, a null or an undefined node yields nothing. Iterating a map
      yields key/value pairs whose node part is invalid, so the first
      subscript in the loop body throws: None for a non-empty map. */
  function IterationItems(n: Node): (r: Option<seq<Node>>)
    ensures n.Sequence? ==> r == Some(n.items)
    ensures r.None? <==> n.Mapping? && |n.entries| > 0
  {
    match n
    case Sequence(items) => Some(items)
    case Mapping(entries) => if entries == [] then Some([]) else None
    case _ => Some([])
  }

  /** How a load or a save ended: `Returned(b)` when the function returned
      `b`, `Threw` when an exception left it. */
  datatype Outcome = Returned(ok: bool) | Threw

  /** The content of a file as `YAML::LoadFile` sees it. */
  datatype FileContent = Malformed | Document(root: Node)

  /** The files the program reads and writes, by path. */
  class Disk {
    var files: map<string, FileContent>

    constructor(files: map<string, FileContent>)
      ensures this.files == files
    {
      this.files := files;
    }
  }

  /** What `YAML::LoadFile` gets: None when the file does not exist, in which
      case it throws `BadFile`, which the loaders do not catch. */
  function ReadFile(files: map<string, FileContent>, path: string): (r: Option<FileContent>)
    ensures r.Some? <==> path in files
    ensures r.Some? ==> r.value == files[path]
  {
    if path in files then Some(files[path]) else None
  }
}
