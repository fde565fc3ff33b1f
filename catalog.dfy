/** The skill catalog: the categories of the radial skill tree and the skills each owns. */
module Catalog {

  /** A leaf of the tree: its display name, its colour and its quest text. */
  datatype Skill = Skill(name: string, hex: string, quest: string)

  /** One branch of the tree. `angle` is the branch's central direction and
      `spread` the width of the arc its skills occupy, both in degrees;
      the order of `skills` decides their placement order. */
  datatype Category = Category(name: string, angle: real, spread: real, color: string, skills: seq<Skill>)

  /** Every skill of every category, in catalog order. */
  function AllSkills(cats: seq<Category>): (r: seq<Skill>)
    ensures |r| == TotalSkills(cats)
  {
    if cats == [] then [] else cats[0].skills + AllSkills(cats[1..])
  }

  /** The number of skills across all categories. */
  function TotalSkills(cats: seq<Category>): nat
  {
    if cats == [] then 0 else |cats[0].skills| + TotalSkills(cats[1..])
  }

  /** The four categories the page is built from, in display order. */
  function Categories(): seq<Category>
  {
    [Passing(), Shooting(), Receiving(), Freestyle()]
  }

  /** Passing: centred straight up (-90 degrees), 60 degrees wide. */
  function Passing(): Category
  {
    Category("Passing", -90.0, 60.0, "#30F6FF", [
      Skill("Ping Trivella", "#30F6FF",
        "Deliver 80 successful ping trivella switches over 25m during competitive drills."),
      Skill("Ground Laser", "#46F4C1",
        "Thread 120 ground ball assists through mannequins with 90% pace control."),
      Skill("Vision Sync", "#1DE6FF",
        "Complete 150 one-touch wall passes with under 3s decision time in scrimmages.")
    ])
  }

  /** Shooting: centred at 0 degrees, 70 degrees wide. */
  function Shooting(): Category
  {
    Category("Shooting", 0.0, 70.0, "#FF6FFF", [
      Skill("Rabona Powershot", "#FF6FFF",
        "Score 50 rabona power strikes above 80km/h recorded by smart goal sensors."),
      Skill("Trivella Curl", "#FF88D6",
        "Bend 60 trivella passing shots into top corners from outside the box."),
      Skill("Passing Volley", "#FF55AA",
        "Convert 40 first-time volleys from teammate layoffs with 85% target accuracy.")
    ])
  }

  /** Receiving: centred at 90 degrees, 65 degrees wide. */
  function Receiving(): Category
  {
    Category("Receiving", 90.0, 65.0, "#69FFAD", [
      Skill("Inside Cushion", "#69FFAD",
        "Absorb 100 driven passes with inside-foot control under 1.5m rebound."),
      Skill("Outside Shield", "#45F7C6",
        "Secure 85 outside-foot traps while protecting lane against pressure dummies."),
      Skill("Chest Vault", "#7BFFC9",
        "Bring down 70 aerial balls to playable height using chest control in drills.")
    ])
  }

  /** Freestyle: centred at 180 degrees, 70 degrees wide. */
  function Freestyle(): Category
  {
    Category("Freestyle", 180.0, 70.0, "#FFC85C", [
      Skill("ATW Flow", "#FFC85C",
        "String 120 around-the-world combos without drops across three difficulty tempos."),
      Skill("AKKA Burst", "#FF9E5C",
        "Execute 90 AKKA variations transitioning into forward dribble within 2s."),
      Skill("Eclipse Orbit", "#FFB66B",
        "Perform 60 eclipse flicks finishing with controlled stall on dominant foot.")
    ])
  }
}
