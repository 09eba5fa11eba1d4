/** The garden's data model: the closed shape enumerations, the flower record,
    the template (a flower record without its identity) and the garden state. */
module Types {

  datatype Option<+T> = None | Some(value: T)

  /** A point in the 3D scene; y is up. */
  datatype Vec3 = Vec3(x: real, y: real, z: real)

  /** A CSS colour string such as "#ff69b4"; colours only reach the renderer. */
  type Color = string

  /** The four petal archetypes. */
  datatype PetalShape = Round | Pointy | Heart | Slender

  /** The three leaf archetypes. */
  datatype LeafShape = Oval | Serrated | Long

  /** The string value each petal archetype carries. */
  function PetalShapeName(s: PetalShape): string
  {
    match s
    case Round => "ROUND"
    case Pointy => "POINTY"
    case Heart => "HEART"
    case Slender => "SLENDER"
  }

  /** The string value each leaf archetype carries. */
  function LeafShapeName(s: LeafShape): string
  {
    match s
    case Oval => "OVAL"
    case Serrated => "SERRATED"
    case Long => "LONG"
  }

  /** The members of the petal enumeration in declaration order (what
      enumerating its values yields): exactly four, all different, and every
      petal archetype is among them. */
  function PetalShapeValues(): (r: seq<PetalShape>)
    ensures |r| == 4
    ensures forall s: PetalShape :: s in r
    ensures forall i, j :: 0 <= i < j < |r| ==> r[i] != r[j]
    ensures forall i, j :: 0 <= i < j < |r| ==> PetalShapeName(r[i]) != PetalShapeName(r[j])
  {
    var r := [Round, Pointy, Heart, Slender];
    assert forall s: PetalShape :: s in r by {
      forall s: PetalShape ensures s in r {
        if s.Round? { assert r[0] == s; }
        else if s.Pointy? { assert r[1] == s; }
        else if s.Heart? { assert r[2] == s; }
        else { assert r[3] == s; }
      }
    }
    r
  }


  /** The members of the leaf enumeration: exactly three, all different,
      covering every leaf archetype. */
  function LeafShapeValues(): (r: seq<LeafShape>)
    ensures |r| == 3
    ensures forall s: LeafShape :: s in r
    ensures forall i, j :: 0 <= i < j < |r| ==> r[i] != r[j]
    ensures forall i, j :: 0 <= i < j < |r| ==> LeafShapeName(r[i]) != LeafShapeName(r[j])
  {
    var r := [Oval, Serrated, Long];
    assert forall s: LeafShape :: s in r by {
      forall s: LeafShape ensures s in r {
        if s.Oval? { assert r[0] == s; }
        else if s.Serrated? { assert r[1] == s; }
        else { assert r[2] == s; }
      }
    }
    r
  }


  /** One planted flower: its identity, its position and the eleven
      appearance fields. Counts and sizes are JavaScript numbers. */
  datatype FlowerConfig = FlowerConfig(
    id: string,
    position: Vec3,
    petalColor: Color,
    petalCount: real,
    petalSize: real,
    petalShape: PetalShape,
    stemHeight: real,
    stemThickness: real,
    leafCount: real,
    leafSize: real,
    leafShape: LeafShape,
    centerColor: Color,
    density: real)  // reserved for clusters; the flower builder never reads it

  /** A flower record without `id` and `position`: the pending template the
      next planting copies. */
  datatype Template = Template(
    petalColor: Color,
    petalCount: real,
    petalSize: real,
    petalShape: PetalShape,
    stemHeight: real,
    stemThickness: real,
    leafCount: real,
    leafSize: real,
    leafShape: LeafShape,
    centerColor: Color,
    density: real)

  /** The appearance fields of a flower record (dropping `id` and `position`). */
  function TemplateOf(f: FlowerConfig): Template
  {
    Template(f.petalColor, f.petalCount, f.petalSize, f.petalShape, f.stemHeight,
             f.stemThickness, f.leafCount, f.leafSize, f.leafShape, f.centerColor, f.density)
  }

  /** A template spread into a new record together with an id and a position. */
  function WithIdentity(t: Template, id: string, position: Vec3): (f: FlowerConfig)
    ensures f.id == id && f.position == position
    ensures TemplateOf(f) == t
  {
    FlowerConfig(id, position, t.petalColor, t.petalCount, t.petalSize, t.petalShape,
                 t.stemHeight, t.stemThickness, t.leafCount, t.leafSize, t.leafShape,
                 t.centerColor, t.density)
  }

  /** Splitting a record into identity and template and spreading them back
      together gives the record unchanged: the two are inverses. */
  lemma SplitAndRespread(f: FlowerConfig)
    ensures WithIdentity(TemplateOf(f), f.id, f.position) == f
  {
  }

  /** The documented range of the time of day, in hours. */
  predicate DocumentedTime(t: real)
  {
    0.0 <= t <= 24.0
  }
}
