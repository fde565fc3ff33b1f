/** The prompt composer: the whole catalog written out as one instruction
    string, inside a fixed template, with whitespace runs collapsed. */
module Composer {
  import opened Catalog
  import opened Text

  /** A skill as the prompt lists it; the quest loses its periods. */
  function SkillFragment(s: Skill): string
  {
    s.name + " " + s.hex + " quest " + RemoveChar(s.quest, '.')
  }

  /** The fragments of a category's skills, in the category's order. */
  function SkillFragments(skills: seq<Skill>): (r: seq<string>)
    ensures |r| == |skills|
    ensures forall i :: 0 <= i < |r| ==> r[i] == SkillFragment(skills[i])
  {
    seq(|skills|, i requires 0 <= i < |skills| => SkillFragment(skills[i]))
  }

  /** A category as the prompt lists it. */
  function CategorySegment(c: Category): string
  {
    c.name + " " + c.color + " skills " + Join(SkillFragments(c.skills), " | ")
  }

  /** The segments of all categories, in catalog order. */
  function CategorySegments(cats: seq<Category>): (r: seq<string>)
    ensures |r| == |cats|
    ensures forall i :: 0 <= i < |r| ==> r[i] == CategorySegment(cats[i])
  {
    seq(|cats|, i requires 0 <= i < |cats| => CategorySegment(cats[i]))
  }

  /** The fixed sentences of the prompt around the catalog sentence. */
  datatype Wording = Wording(intro: string, hub: string, telemetry: string, palette: string, closing: string)

  /** The page's own sentences. They are not derived from the catalog (the
      palette sentence names the colours itself), and their periods stay. */
  function PageWording(): Wording
  {
    Wording(
      "Build a futuristic football progression tracker web app with a dark grey #0B0F14 glassmorphism interface and neon holo grid, inspired by RPG radial skill trees like Wings Calisthenics.",
      "Center hub shows core XP, spokes render animated nodes with category-specific glow and unlock animations.",
      "Integrate progress bars, quest counters, success rate telemetry, and radial connectors with subtle particle effects.",
      "Palette anchors: Passing #30F6FF, Shooting #FF6FFF, Receiving #69FFAD, Freestyle #FFC85C with complementary gradients for each skill node.",
      "Include copy-to-clipboard prompt exporter, responsive layout ready for Vercel deployment, and lore snippets that reference unlocking trick-based mastery.")
  }

  /** The one sentence built from the catalog. */
  function QuestSentence(cats: seq<Category>): string
  {
    "Every skill requires quests; " + Join(CategorySegments(cats), "; ") + "."
  }

  /** The six sentences joined with spaces, before whitespace is collapsed. */
  function RawPrompt(w: Wording, cats: seq<Category>): string
  {
    Join([w.intro, w.hub, w.telemetry, w.palette, QuestSentence(cats), w.closing], " ")
  }

  /** The composed text with every whitespace run collapsed. */
  function Compose(w: Wording, cats: seq<Category>): string
  {
    Collapse(RawPrompt(w, cats))
  }

  /** A fragment is the skill's name, hex and the quest without periods; the
      quest part holds no period and keeps every other character. */
  lemma FragmentShape(s: Skill)
    ensures var k := |s.name| + |s.hex| + 8;
      var f := SkillFragment(s);
      && k <= |f|
      && f[..k] == s.name + " " + s.hex + " quest "
      && f[k..] == RemoveChar(s.quest, '.')
      && '.' !in f[k..]
      && multiset(f[k..]) == multiset(s.quest)['.' := 0]
  {
    var k := |s.name| + |s.hex| + 8;
    var f := SkillFragment(s);
    assert f == (s.name + " " + s.hex + " quest ") + RemoveChar(s.quest, '.');
    assert f[k..] == RemoveChar(s.quest, '.');
  }

  /** The template around the catalog: four fixed sentences, the quest
      sentence listing the segments in catalog order, and the closing sentence. */
  lemma RawPromptShape(w: Wording, cats: seq<Category>)
    ensures RawPrompt(w, cats) ==
      Join([w.intro, w.hub, w.telemetry, w.palette], " ") + " "
      + ("Every skill requires quests; " + Join(CategorySegments(cats), "; ") + ".")
      + (" " + w.closing)
  {
    var parts := [w.intro, w.hub, w.telemetry, w.palette, QuestSentence(cats), w.closing];
    JoinAround(parts, " ", 4);
    assert parts[..4] == [w.intro, w.hub, w.telemetry, w.palette];
    assert parts[5..] == [w.closing];
  }

  /** A name or colour the prompt can carry unchanged: not empty, no
      whitespace at either end, and only single plain spaces inside. */
  ghost predicate Token(t: string)
  {
    t != [] && !IsWhitespace(t[0]) && !IsWhitespace(t[|t| - 1]) && Collapsed(t)
  }

  /** The name and the colour of a skill occur in its fragment. */
  lemma NameAndHexInFragment(s: Skill)
    ensures IsInfix(s.name, SkillFragment(s)) && IsInfix(s.hex, SkillFragment(s))
  {
    var f := SkillFragment(s);
    var k := |s.name| + 1;
    assert f[0..|s.name|] == s.name;
    assert OccursAt(s.name, f, 0);
    assert f[k..k + |s.hex|] == s.hex;
    assert OccursAt(s.hex, f, k);
  }

  /** Every skill's fragment occurs in the prompt before whitespace is collapsed. */
  lemma FragmentInRawPrompt(w: Wording, cats: seq<Category>, ci: nat, si: nat)
    requires ci < |cats| && si < |cats[ci].skills|
    ensures IsInfix(SkillFragment(cats[ci].skills[si]), RawPrompt(w, cats))
  {
    var c := cats[ci];
    var frag := SkillFragment(c.skills[si]);
    var skillsJoined := Join(SkillFragments(c.skills), " | ");
    var segment := CategorySegment(c);
    var segsJoined := Join(CategorySegments(cats), "; ");
    var sentence := QuestSentence(cats);

    PartInJoin(SkillFragments(c.skills), " | ", si);
    InfixOfConcat(c.name + " " + c.color + " skills ", skillsJoined, []);
    assert segment == (c.name + " " + c.color + " skills ") + skillsJoined + [];
    InfixTransitive(frag, skillsJoined, segment);
    PartInJoin(CategorySegments(cats), "; ", ci);
    InfixTransitive(frag, segment, segsJoined);
    InfixOfConcat("Every skill requires quests; ", segsJoined, ".");
    InfixTransitive(frag, segsJoined, sentence);
    PartInJoin([w.intro, w.hub, w.telemetry, w.palette, sentence, w.closing], " ", 4);
    InfixTransitive(frag, sentence, RawPrompt(w, cats));
  }

  /** Every skill's name and colour occur in the text before whitespace is collapsed. */
  lemma SkillInRawPrompt(w: Wording, cats: seq<Category>, ci: nat, si: nat)
    requires ci < |cats| && si < |cats[ci].skills|
    ensures IsInfix(cats[ci].skills[si].name, RawPrompt(w, cats))
    ensures IsInfix(cats[ci].skills[si].hex, RawPrompt(w, cats))
  {
    var s := cats[ci].skills[si];
    NameAndHexInFragment(s);
    FragmentInRawPrompt(w, cats, ci, si);
    InfixTransitive(s.name, SkillFragment(s), RawPrompt(w, cats));
    InfixTransitive(s.hex, SkillFragment(s), RawPrompt(w, cats));
  }

  /** A token in the text before collapsing is still in the prompt. */
  lemma TokenInComposed(w: Wording, cats: seq<Category>, t: string)
    requires IsInfix(t, RawPrompt(w, cats)) && Token(t)
    ensures IsInfix(t, Compose(w, cats))
  {
    var raw := RawPrompt(w, cats);
    var i: nat :| OccursAt(t, raw, i);
    InfixSurvivesCollapse(t, raw, i);
  }

  /** Every skill's name and colour occur, as written, in the composed text. */
  lemma SkillInComposed(w: Wording, cats: seq<Category>, ci: nat, si: nat)
    requires ci < |cats| && si < |cats[ci].skills|
    requires Token(cats[ci].skills[si].name) && Token(cats[ci].skills[si].hex)
    ensures IsInfix(cats[ci].skills[si].name, Compose(w, cats))
    ensures IsInfix(cats[ci].skills[si].hex, Compose(w, cats))
  {
    var s := cats[ci].skills[si];
    SkillInRawPrompt(w, cats, ci, si);
    TokenInComposed(w, cats, s.name);
    TokenInComposed(w, cats, s.hex);
  }

  /** The page's prompt: its own sentences around its own catalog. */
  function Prompt(): string
  {
    Compose(PageWording(), Categories())
  }

  /** The prompt has single plain spaces only. */
  lemma ComposeCollapsed(w: Wording, cats: seq<Category>)
    ensures Collapsed(Compose(w, cats))
  {
    CollapseIsCollapsed(RawPrompt(w, cats));
  }

  /** Composing again from the same catalog, or collapsing the prompt once
      more, gives the same string. */
  lemma ComposeStable(w: Wording, cats: seq<Category>)
    ensures Collapse(Compose(w, cats)) == Compose(w, cats)
  {
    ComposeCollapsed(w, cats);
    CollapseFixpoint(Compose(w, cats));
  }
}
