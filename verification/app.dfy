/** The garden controller: the list of planted flowers, the pending template
    the next planting copies, and the time of day, with the handlers that
    plant and clear. */
module App {
  import opened Types
  import Flower
  import GardenScene

  /** The template the garden starts with. */
  function DefaultTemplate(): Template
  {
    Template("#ff69b4", 8.0, 1.0, Round, 3.0, 0.1, 2.0, 0.8, Oval, "#ffff00", 1.0)
  }

  /** The two flowers the garden shows when it first appears. */
  function InitialFlowers(): (r: seq<FlowerConfig>)
    ensures |r| == 2
    ensures r[0].id == "init-1" && r[0].position == Vec3(0.0, 0.0, 0.0)
    ensures r[1].id == "init-2" && r[1].position == Vec3(-10.0, 0.0, 5.0)
    ensures r[0].id != r[1].id
  {
    [FlowerConfig("init-1", Vec3(0.0, 0.0, 0.0), "#ff99cc", 16.0, 1.5, Round, 5.0, 0.2,
                  4.0, 1.2, Oval, "#ffd700", 1.0),
     FlowerConfig("init-2", Vec3(-10.0, 0.0, 5.0), "#cc99ff", 12.0, 1.0, Pointy, 4.0, 0.1,
                  2.0, 0.8, Long, "#ffffff", 1.0)]
  }

  /** The flower list after planting: one new record at the end, built from
      the template, the id and the position, every earlier record in place. */
  function Planted(flowers: seq<FlowerConfig>, template: Template, id: string, pos: Vec3): (r: seq<FlowerConfig>)
    ensures |r| == |flowers| + 1
    ensures r[..|flowers|] == flowers
    ensures r[|flowers|].id == id && r[|flowers|].position == pos
    ensures TemplateOf(r[|flowers|]) == template
  {
    flowers + [WithIdentity(template, id, pos)]
  }

  /** A random planting position from two draws r1, r2 in [0, 1): on the
      ground, with x and z in [-20, 20). */
  function RandomPosition(r1: real, r2: real): (p: Vec3)
    requires 0.0 <= r1 < 1.0 && 0.0 <= r2 < 1.0
    ensures p.y == 0.0
    ensures -20.0 <= p.x < 20.0 && -20.0 <= p.z < 20.0
    ensures p.x + 20.0 == r1 * 40.0 && p.z + 20.0 == r2 * 40.0
  {
    Vec3((r1 - 0.5) * 40.0, 0.0, (r2 - 0.5) * 40.0)
  }

  class Garden {
    var timeOfDay: real
    var flowers: seq<FlowerConfig>
    var currentTemplate: Template

    /** The initial state: noon, no flowers yet, the default template. */
    constructor ()
      ensures timeOfDay == 12.0 && flowers == [] && currentTemplate == DefaultTemplate()
    {
      timeOfDay := 12.0;
      flowers := [];
      currentTemplate := DefaultTemplate();
    }

    /** The mount effect: replace the flower list with the two initial flowers. */
    method PlantInitialFlowers()
      modifies this
      ensures flowers == InitialFlowers()
      ensures timeOfDay == old(timeOfDay) && currentTemplate == old(currentTemplate)
    {
      flowers := InitialFlowers();
    }

    /** The time slider's setter. */
    method SetTimeOfDay(t: real)
      modifies this
      ensures timeOfDay == t
      ensures flowers == old(flowers) && currentTemplate == old(currentTemplate)
    {
      timeOfDay := t;
    }

    /** The control panel's template setter. */
    method SetCurrentTemplate(t: Template)
      modifies this
      ensures currentTemplate == t
      ensures flowers == old(flowers) && timeOfDay == old(timeOfDay)
    {
      currentTemplate := t;
    }

    /** Plant at a given position: append a flower built from the current
      template, with the supplied id and the position exactly as given. */
    method PlantAtPosition(pos: Vec3, id: string)
      modifies this
      ensures flowers == Planted(old(flowers), currentTemplate, id, pos)
      ensures timeOfDay == old(timeOfDay) && currentTemplate == old(currentTemplate)
    {
      var newFlower := WithIdentity(currentTemplate, id, pos);
      flowers := flowers + [newFlower];
    }

    /** Plant at a random ground position. The `config` argument is not used:
        the flower is built from the current template. */
    method PlantRandomly(config: Template, r1: real, r2: real, id: string)
      requires 0.0 <= r1 < 1.0 && 0.0 <= r2 < 1.0
      modifies this
      ensures flowers == Planted(old(flowers), currentTemplate, id, RandomPosition(r1, r2))
      ensures timeOfDay == old(timeOfDay) && currentTemplate == old(currentTemplate)
    {
      PlantAtPosition(RandomPosition(r1, r2), id);
    }

    /** Clear the garden if the user confirms; otherwise leave it as it is. */
    method Clear(confirmed: bool)
      modifies this
      ensures flowers == if confirmed then [] else old(flowers)
      ensures timeOfDay == old(timeOfDay) && currentTemplate == old(currentTemplate)
    {
      if confirmed {
        flowers := [];
      }
    }
  }

  /** Planting then reading back the newest flower gives the position exactly
      as supplied, y included: planting itself does not move a flower to the
      ground. */
  lemma PlantedReadBack(flowers: seq<FlowerConfig>, template: Template, id: string, pos: Vec3)
    ensures Planted(flowers, template, id, pos)[|flowers|].position == pos
    ensures Planted(flowers, template, id, pos)[|flowers|].position.y == pos.y
    ensures WithIdentity(TemplateOf(Planted(flowers, template, id, pos)[|flowers|]), id, pos)
            == Planted(flowers, template, id, pos)[|flowers|]
  {
  }

  /** Planting from a click on the ground puts the flower on the ground at the
      clicked x and z; a click on anything else plants nothing. */
  lemma GroundClickPlantsOnGround(flowers: seq<FlowerConfig>, template: Template, id: string, h: GardenScene.Hit)
    ensures GardenScene.GroundClick(h).Some? ==>
              var f := Planted(flowers, template, id, GardenScene.GroundClick(h).value)[|flowers|];
              f.position == Vec3(h.point.x, 0.0, h.point.z)
    ensures h.objectName != "ground" ==> GardenScene.GroundClick(h).None?
  {
  }

  /** Any number of plantings only add flowers at the end: every flower
      planted before keeps its record and its place. */
  lemma {:induction false} PlantAllKeepsEarlier(g: seq<FlowerConfig>, template: Template, ids: seq<string>, pos: seq<Vec3>)
    requires |ids| == |pos|
    ensures |PlantAll(g, template, ids, pos)| == |g| + |ids|
    ensures PlantAll(g, template, ids, pos)[..|g|] == g
    decreases |ids|
  {
    if ids != [] {
      PlantAllKeepsEarlier(Planted(g, template, ids[0], pos[0]), template, ids[1..], pos[1..]);
      var g' := Planted(g, template, ids[0], pos[0]);
      assert PlantAll(g, template, ids, pos)[..|g'|][..|g|] == g'[..|g|];
    }
  }

  /** Plant one flower per id/position pair, in order. */
  function PlantAll(g: seq<FlowerConfig>, template: Template, ids: seq<string>, pos: seq<Vec3>): seq<FlowerConfig>
    requires |ids| == |pos|
    decreases |ids|
  {
    if ids == [] then g
    else PlantAll(Planted(g, template, ids[0], pos[0]), template, ids[1..], pos[1..])
  }

  /** The default template draws 8 petals a turn of 1/8 (45 degrees) apart,
      2 leaves at heights 1 and 2, and a stem 3 high. */
  lemma DefaultTemplateModel()
    ensures |Flower.Petals(DefaultTemplate())| == 8
    ensures forall k :: 0 <= k < 8 ==> Flower.Petals(DefaultTemplate())[k].turn == k as real / 8.0
    ensures |Flower.Leaves(DefaultTemplate())| == 2
    ensures Flower.Leaves(DefaultTemplate())[0].height == 1.0
    ensures Flower.Leaves(DefaultTemplate())[1].height == 2.0
    ensures Flower.StemPart(DefaultTemplate()).kind.length == 3.0
  {
    var t := DefaultTemplate();
    assert 8.0.Floor == 8 && 2.0.Floor == 2;
    var l := Flower.Leaves(t);
    assert l[0].height * 3.0 == 3.0;
    assert l[1].height * 3.0 == 6.0;
  }
}
