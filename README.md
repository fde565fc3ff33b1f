# Neon Skill Arc: radial layout and prompt composer

The page `web/app/page.js` shows a radial skill tree for football training.
It has four categories (Passing, Shooting, Receiving, Freestyle) with three
skills each. It also shows a prompt string, built from the same catalog, that
a button copies to the clipboard. This project models the page's two pure
computations and proves what they promise:

- **Radial layout.** A category's skills are spread evenly over an arc centred
  on the category's angle. A category with a single skill collapses the arc to
  nothing. Skill `index` gets the angle `angle - spread/2 + index * spread/(count-1)`,
  the radius `150 + 95 * index`, and a card rotation of the angle plus 90
  degrees. Angles are exact `real` degrees, because spreads such as 65 give
  half degrees.
- **Prompt composer.** Each skill becomes `name hex quest <quest without periods>`.
  The skill fragments are joined with `" | "`. Each category becomes
  `name color skills <fragments>`, and the categories are joined with `"; "`.
  That sentence sits among five fixed sentences. Finally every whitespace run
  becomes a single space.

Modules:

- `catalog.dfy` (`Catalog`): the `Skill` and `Category` datatypes and the
  page's four categories.
- `layout.dfy` (`Layout`): angles, radii, rotations and placements, with
  lemmas on arc bounds, spacing, end points, symmetry and monotonicity.
- `text.dfy` (`Text`): the three string operations the composer uses.
  `RemoveChar` models `replaceAll(".", "")`. `Join` models `Array.prototype.join`.
  `Collapse` models `replace(/\s+/g, " ")`. The module also defines when one
  string occurs inside another.
- `composer.dfy` (`Composer`): the fragments, segments, template and prompt.
  The five fixed sentences are a `Wording` value. Every lemma holds for any
  wording and any catalog. `Prompt()` is `Compose(PageWording(), Categories())`,
  the page's own prompt.

All functions are pure, so composing twice from the same catalog gives the
same string by construction.

## Model

| member | source | states |
|---|---|---|
| `Layout.Step` | web/app/page.js:169 | with two or more skills the step times `count - 1` is the spread; otherwise the step is 0 and nothing is divided |
| `Layout.Angle` | web/app/page.js:170-171 | a lone skill sits exactly at the category angle whatever the spread; otherwise the angle is `angle - spread/2 + index*spread/(count-1)` |
| `Layout.Radius` | web/app/page.js:173 | every radius is at least 150, and at least 245 after the first skill |
| `Layout.Place` | web/app/page.js:165-184 | a placement carries its skill; rotation is angle + 90; a lone skill sits at the category angle; with a non-negative spread the angle lies in `[angle - spread/2, angle + spread/2]` |
| `Layout.CategoryPlacements` | web/app/page.js:168-199 | exactly one placement per skill, in the category's order; a category without skills yields none |
| `Catalog.Categories` | web/app/page.js:6-99 | definition: the four categories in display order, Passing, Shooting, Receiving, Freestyle; their layout is stated by `Layout.PassingPlacements` and `Layout.ReceivingPlacements` |
| `Catalog.Passing` | web/app/page.js:7-29 | definition: Passing at -90 degrees with spread 60 and colour `#30F6FF`, and its three skills with their colours and quests |
| `Catalog.Shooting` | web/app/page.js:30-52 | definition: Shooting at 0 degrees with spread 70 and colour `#FF6FFF`, and its three skills |
| `Catalog.Receiving` | web/app/page.js:53-75 | definition: Receiving at 90 degrees with spread 65 and colour `#69FFAD`, and its three skills |
| `Catalog.Freestyle` | web/app/page.js:76-98 | definition: Freestyle at 180 degrees with spread 70 and colour `#FFC85C`, and its three skills |
| `Layout.EffectiveSpread` | web/app/page.js:166-167 | definition: the configured spread with two or more skills, 0 otherwise; `Layout.Angle` and `Layout.LoneSkillAtBase` state what it does to the angle |
| `Layout.TreePlacements` | web/app/page.js:164-200 | one placement per skill of the whole catalog, each with radius at least 150 and rotation angle + 90; which placement holds which value is stated by `Layout.TreePlacementAt` |
| `Layout.TreeSkillOrder` | web/app/page.js:164-168 | the k-th placement of the tree holds the k-th skill of the catalog, so categories and skills keep their order |
| `Layout.TreePlacementAt` | web/app/page.js:164-184 | skill `si` of category `ci` is placed right after the skills of the earlier categories, with exactly the placement its own category and index give |
| `Layout.TreeOnArcs` | web/app/page.js:164-173 | across the whole tree every card lies on its own category's arc (for a non-negative spread) at radius `150 + 95 * si` |
| `Layout.ArcBounds` | web/app/page.js:166-171 | with a non-negative spread every angle lies on the category's arc |
| `Layout.EvenSpacing` | web/app/page.js:169-171 | neighbouring skills are exactly `spread/(count-1)` degrees apart |
| `Layout.ArcEnds` | web/app/page.js:166-171 | the first skill is at `angle - spread/2`, the last at `angle + spread/2` |
| `Layout.Symmetric` | web/app/page.js:166-171 | skills `i` and `count-1-i` are mirrored about the category angle: their angles sum to `2*angle` |
| `Layout.AngleIncreasing` | web/app/page.js:169-171 | with a positive spread, later skills sit at strictly larger angles |
| `Layout.RadiusIncreasing` | web/app/page.js:173 | the radius strictly increases with the index and is never below 150 |
| `Layout.PassingPlacements` | web/app/page.js:7-29 | the Passing category gives angles -120, -90 and -60, radii 150, 245 and 340, and rotations -30, 0 and 30 |
| `Layout.ReceivingPlacements` | web/app/page.js:53-75 | the Receiving category's spread of 65 gives angles 57.5, 90 and 122.5 |
| `Layout.LoneSkillAtBase` | web/app/page.js:165-171 | a one-skill category at 180 degrees puts its skill at exactly 180 degrees (radius 150, rotation 270) for any spread |
| `Text.RemoveChar` | web/app/page.js:111 | the result has no `.`, and it holds every other character exactly as often as the input does |
| `Text.RemoveCharConcat` | web/app/page.js:111 | removing distributes over concatenation, so the kept characters stay in order |
| `Text.RemoveCharAbsent` | web/app/page.js:111 | a quest without periods is left unchanged |
| `Text.Join` | web/app/page.js:113 | no parts give the empty string; one part gives that part; otherwise the length is the parts' lengths plus one separator between each pair |
| `Text.JoinAppend` | web/app/page.js:113 | joining two non-empty lists of parts one after the other gives the join of the first, a separator, and the join of the second |
| `Text.JoinAround` | web/app/page.js:113 | the join is the join of the parts before `k`, a separator, part `k`, a separator and the join of the parts after it, so order is kept |
| `Text.PartInJoin` | web/app/page.js:113 | every part occurs contiguously in the join |
| `Text.IsWhitespace` | web/app/page.js:126 | definition: the ECMAScript WhiteSpace and LineTerminator code points, the characters `\s` matches |
| `Text.Collapse` | web/app/page.js:126 | never longer than the input; empty exactly when the input is; starts with whitespace exactly when the input does |
| `Text.CollapseIsCollapsed` | web/app/page.js:126 | the result has no two adjacent whitespace characters, and every whitespace character in it is a plain space |
| `Text.CollapseKeepsText` | web/app/page.js:126 | with all whitespace deleted, the input and the result are the same string, so every other character is kept in order |
| `Text.CollapseFixpoint` | web/app/page.js:126 | collapsing leaves a string unchanged if and only if it already has only single plain spaces |
| `Text.CollapseIdempotent` | web/app/page.js:126 | collapsing twice is the same as collapsing once |
| `Text.CollapseConcat` | web/app/page.js:126 | collapsing works piece by piece across a cut that does not split a whitespace run |
| `Text.InfixSurvivesCollapse` | web/app/page.js:126 | a piece of the text that is non-empty, trimmed and already collapsed occurs in the collapsed text, at the position where the collapsed text before it ends |
| `Composer.SkillFragment` | web/app/page.js:111 | definition: `name hex quest <quest without periods>`; `Composer.FragmentShape` and `Composer.NameAndHexInFragment` state its properties |
| `Composer.SkillFragments` | web/app/page.js:108-112 | one fragment per skill, in the category's order |
| `Composer.CategorySegment` | web/app/page.js:108-114 | definition: `name color skills ` and the skill fragments joined with `" | "`; `Composer.FragmentInRawPrompt` shows every fragment occurs in it |
| `Composer.CategorySegments` | web/app/page.js:107-115 | one segment per category, in catalog order |
| `Composer.PageWording` | web/app/page.js:118-123 | definition: the page's five fixed sentences, verbatim |
| `Composer.QuestSentence` | web/app/page.js:122 | definition: the catalog sentence; `Composer.RawPromptShape` states where it sits |
| `Composer.RawPrompt` | web/app/page.js:117-125 | definition: the six sentences joined with single spaces; `Composer.RawPromptShape` and `Composer.SkillInRawPrompt` state its properties |
| `Composer.Compose` | web/app/page.js:106-126 | definition: the raw text with whitespace runs collapsed; `Composer.ComposeCollapsed`, `Composer.ComposeStable` and `Composer.SkillInComposed` state its properties |
| `Composer.Prompt` | web/app/page.js:106-127 | definition: `Compose(PageWording(), Categories())`, the page's own prompt; every lemma on `Compose` holds for it with that wording and catalog |
| `Composer.ComposeCollapsed` | web/app/page.js:117-126 | the prompt has no two adjacent whitespace characters and only plain spaces |
| `Composer.FragmentShape` | web/app/page.js:111 | a fragment is `name + " " + hex + " quest "` followed by exactly `RemoveChar(quest, '.')`, so the quest part has no `.` and keeps every other character in order (`Text.RemoveCharConcat`) |
| `Composer.RawPromptShape` | web/app/page.js:117-125 | before collapsing, the prompt is the four fixed sentences, `"Every skill requires quests; "`, the segments joined with `"; "`, a period, and the closing sentence, separated by single spaces |
| `Composer.NameAndHexInFragment` | web/app/page.js:111 | a skill's name and hex occur in its fragment |
| `Composer.FragmentInRawPrompt` | web/app/page.js:107-125 | every skill's fragment occurs in the text before whitespace is collapsed |
| `Composer.SkillInRawPrompt` | web/app/page.js:107-125 | every skill's name and hex occur in the text before whitespace is collapsed |
| `Composer.TokenInComposed` | web/app/page.js:117-126 | a non-empty, trimmed, singly spaced piece of the text before collapsing still occurs in the prompt |
| `Composer.SkillInComposed` | web/app/page.js:106-127 | every skill's name and hex occur as contiguous pieces of the final prompt when they are non-empty, trimmed and singly spaced |
| `Composer.ComposeStable` | web/app/page.js:126 | collapsing the final prompt again changes nothing |

## Left out

- The conversion to radians (web/app/page.js:101) and the cosine and sine that give x and y (web/app/page.js:172-175) are floating-point work. The model stops at the exact angle and radius.
- The page computes in IEEE doubles, the model in exact reals. Every value the page's catalog produces is exact in a double. A spread that does not divide evenly would round on the page and not in the model.
- JSX rendering, the React key, CSS custom properties, border and shadow strings, and the style sheet (web/app/page.js:144-215) are presentation only.
- `navigator.clipboard.writeText` and `console.error` in `handleCopy` (web/app/page.js:135-142) are a foreign asynchronous API and logging.
- The `copied` flag and its 1600 ms reset (web/app/page.js:104, 129-133) are React state and timer semantics. The effect depends on `copied` changing. A second successful copy while `copied` is already true does not re-run it. So a re-copy does not restart the 1600 ms window, which keeps running from the first copy.
- `useMemo` memoisation is not modelled. The composer is a pure function of the catalog, so memoisation cannot change its value.
- `Text.IsWhitespace` lists the code points that ECMAScript's `\s` matches. JavaScript strings are UTF-16 code units, and Dafny's `char` is a Unicode scalar value. A surrogate pair in the text is not modelled.
- `Composer.SkillInComposed` is stated for names and colours that are non-empty, trimmed and singly spaced. The page's twelve names and colours are all of that kind by inspection. The model does not prove this about the literal catalog, and it states no lemma about the literal `Prompt()` itself.
- The fixed sentences (web/app/page.js:118-123) are kept verbatim in `PageWording` and treated as opaque text. Their periods are not removed, so the "no period" property covers only quest fragments.
