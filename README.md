# A verified model of the yanashbelyak genealogy site generator

The generator reads a Gramps family tree and writes a static web site: one
article per person, a picture gallery, a full timeline of the whole tree, a
small "ego" tree around every person, and (in its oldest form) a graphviz
layout. This project models the logic behind those outputs and proves what
the code promises about them.

- **Dates** (`dates.dfy`): Gramps dates as proleptic-Gregorian day ordinals
  with an exact/estimated quality; the JSON reader and the two pickled-tuple
  readers, with day 0 and month 0 read as 1 and invalid dates refused.
- **Entities** (`entities.dfy`): persons with their defaulted death day
  (birth plus 36500 days, estimated), life span and mid-life; identity by id;
  families with their parents, children and the derived wedding day
  (memoised in `WeddingMemo`); relations and media links.
- **Loader** (`loader.dfy`): the loaders' loops over their query rows, which
  are inputs: relationship rows folded into families and relations, a
  person's lifetime read from their events (three variants), the picture
  filter, the media-person links, and the event table with its stale-entry
  behaviour after a date error.
- **Full timeline** (`traversal.dfy`, `timeline.dfy`): `TreeRender` as a class
  whose fields are the pool of unplaced persons, the row counter, the node
  map and the drawing list. Rounds start at the earliest-born man, else
  woman, and walk depth-first to a child first, a partner second. Family
  lines, triangles and the canvas size follow.
- **Hyperlink pass** (`hyperlink.dfy`): the two loops that drop the hidden id
  labels and wrap the visible label at the same anchor in a link.
- **Ego trees** (`ego.dfy`, `ego_plan.dfy`, `ego_canvas.dfy`,
  `ego_legacy.dfy`): lanes and parents of the focal person, the generations,
  the jitter of the lanes' lines, the drawing plan with its columns, and
  the canvas size. The two newer copies are checked against one plan; the
  oldest copy is modelled on its own.
- **Graph layout** (`graph_nodes.dfy`, `graph_walk.dfy`, `graph_render.dfy`):
  the graphviz walk of gramps_parser/render.py, with its de-duplicating node
  and edge lists, the row counter `ti`, the family nodes at their wedding
  days and the decor lines; the rounds as the program runs them, and as
  intended.
- **Articles and gallery** (`biographer.dfy`, `gallery.dfy`): the article
  text of the three biographer copies, the events section, the regrouping
  of media by path, and the gallery page.
- **Paths** (`paths.dfy`): `pathlib` paths as an absolute flag and
  segments, joining with `/` and the file name.
- `svg.dfy` holds the drawing primitives; `wrappers.dfy` holds `Option`,
  `Result` and three generic sequence lemmas.

The walks, the loaders' loops, the drawing loops, the hyperlink passes and
the page builders are methods with loop invariants. Each is proved equal to
a specification function, and the lemmas are stated about that function:
the timeline's walk places exactly the persons `TreeWalk.Walk` and
`TreeWalk.Rounds` list, in their order, and the graph's walk exactly those
`GraphTraversal.GraphWalk` and `GraphTraversal.GraphRoundsAsWritten` list.

Where a copy of the program fails on inputs it evidently meant to handle,
the entry point models the program as written, and a separately named
member models the evident intent; both are listed under "## Findings".

Model choices:
- Python's dict and set iteration order is taken as a given sequence: the
  tree's `order` of persons, a family's `children`, and the `relations` and
  `familyOrder` of the tree. `min`, `max` and `sorted(...)[-1]` then break
  ties exactly as Python does.
- Coordinates are exact reals. Today's date, the random week count of the
  wedding day, the `SITEURL` variable and the calendar rendering of a day
  are parameters.
- A person lookup in a dict that fails is `Err(KeyError)`.
- The code is followed where names say otherwise. The "oldest partner" is
  the latest-born one, and the "youngest" parent of a childless family is
  the earliest-born one.

## Model

| member | source | states |
|---|---|---|
| Dates.QualityFromCode | content_generator/src/app/entities.py:44-46 | only the codes 0 and 1 are qualities, 0 being exact; any other code is refused |
| Dates.QualityMark | content_generator/src/app/entities.py:48-53 | the printed mark is empty exactly for an exact date |
| Dates.MakeDate | content_generator/src/app/entities.py:67-77 | after zeros become ones, a date is built exactly when it is a valid calendar date with a valid quality; otherwise ValueError; the ordinal is that of the normalised day |
| Dates.FromGrampsJson | content_generator/src/app/entities.py:62-77 | `dateval` is read as day, month, year; fewer than three fields raise IndexError |
| Dates.FromGrampsDb | content_generator/entities.py:35-54 | tuples of length 4 or 8 are read as day, month, year; any other length raises ValueError |
| Dates.FromGrampsDbFour | gramps_parser/db.py:34-47 | only tuples of length 4 are read; any other length raises ValueError |
| Dates.ZeroIsFirst | content_generator/src/app/entities.py:67-70 | day 0 and month 0 give the same result as day 1 and month 1 |
| Dates.LoadersAgree | content_generator/entities.py:39-44 | where the four-field reader accepts a tuple, the four-or-eight reader gives the same date |
| Dates.OrdinalAscends | content_generator/src/app/entities.py:194-197 | later calendar dates have larger ordinals, so day differences are date differences |
| Entities.GenderCode | content_generator/src/app/entities.py:132-135 | the gender values are 0, 1 and 2 |
| Entities.GenderFromCode | content_generator/src/app/entities.py:132-135 | a code is a gender exactly when it is 0, 1 or 2, and reading it back gives the code |
| Entities.GenderCodeRoundTrip | content_generator/src/app/entities.py:132-135 | reading a gender's own code gives the gender back |
| Entities.DefaultDeath | content_generator/src/app/entities.py:160-164 | the default death is 36500 days after birth and estimated; past the last representable day it is OverflowError |
| Entities.WithLifetime | content_generator/src/app/entities.py:146-169 | a given death is kept; a missing one is defaulted; id, name and gender are those given |
| Entities.NewPerson | content_generator/src/app/entities.py:146-169 | a missing birth raises PersonWithoutBirthdayError; otherwise the person gets the given or default lifetime |
| Entities.NewPersonLegacy | content_generator/entities.py:141-164 | a missing birth raises ValueError; otherwise as above |
| Entities.NewPersonDb | gramps_parser/db.py:93-112 | this copy does not check the birth: a given death is kept, even without a birth; a missing death defaults to 36500 days after the birth, estimated, OverflowError past the last day, and AttributeError when the birth is missing too |
| Entities.DbDaysOfLife | gramps_parser/db.py:134-138 | a person without a birth day raises ValueError; otherwise birth plus the days of life is the death day |
| Entities.DbDefaultLifeSpan | gramps_parser/db.py:104-108 | a person with a birth and the default death lives exactly 36500 days |
| Entities.DaysOfLife | content_generator/src/app/entities.py:194-197 | birth plus the days of life is the death day |
| Entities.DefaultLifeSpan | content_generator/src/app/entities.py:158-166 | a person without a death day lives exactly 36500 days, with an estimated death |
| Entities.MidLife | content_generator/src/app/entities.py:199-201 | mid-life is birth plus half the life span, rounded down to a day |
| Entities.MidLifeWithinLife | content_generator/src/app/entities.py:199-201 | mid-life lies between birth and death |
| Entities.PersonEq | content_generator/src/app/entities.py:233-236 | a person never equals None, and equals another exactly when the ids match |
| Entities.PersonEqIsIdentity | content_generator/src/app/entities.py:233-239 | person equality is reflexive, symmetric and transitive, and equal persons hash alike |
| Entities.PersonEqLegacy | content_generator/entities.py:228-231 | comparing with None is False; comparing with any person raises AttributeError |
| Entities.LegacyEqualityFailsOnItself | content_generator/entities.py:228-231 | even a person compared with itself raises there, where the intended comparison holds |
| Entities.NewFamily | content_generator/src/app/entities.py:246-250 | a new family has its id, no parents and no children |
| Entities.AddChild | content_generator/src/app/entities.py:252-253 | the children become the old ones plus the new child, each once; parents and id are kept |
| Entities.Parents | content_generator/src/app/entities.py:267-271 | the parents are exactly the father and mother that are set, without repetition |
| Entities.FullFamilyHasBothParents | content_generator/src/app/entities.py:299-300 | two parents means the family is full; a family that is not full has at most one parent |
| Entities.EarliestBirth | content_generator/src/app/entities.py:285 | the earliest birth is the birth of one of the persons and no later than any of them |
| Entities.WeddingDay | content_generator/src/app/entities.py:281-293 | with children: the earliest child's birth less 40 weeks less the given 0 to 500 weeks; without: the earliest parent's birth plus 6480 days; no member at all raises ValueError |
| Entities.WeddingBeforeChildren | content_generator/src/app/entities.py:281-293 | with children, the wedding is at least 40 weeks before every child's birth |
| Entities.WeddingMemo.constructor | content_generator/src/app/entities.py:281-282 | a new memo holds the family and no cached day |
| Entities.WeddingMemo.Get | content_generator/src/app/entities.py:281-282 | the first successful reading is computed and cached; every later reading returns the cached day |
| Entities.RelationTypeCode | content_generator/src/app/entities.py:303-306 | the relation types have codes 1 to 3 |
| Entities.RelationEq | content_generator/src/app/entities.py:316-324 | two relations are equal exactly when all four fields match |
| Entities.RelationEqIsIdentity | content_generator/src/app/entities.py:316-327 | relation equality is value equality, and equal relations share the family-id hash |
| Entities.MarkPerson | content_generator/src/app/entities.py:398-399 | the person is appended to the media's persons; path and description are kept |
| Entities.AddMedia | content_generator/src/app/entities.py:241-242 | the media set gains the media once; nothing else about the person changes |
| Loader.EnsureFamily | content_generator/src/gramps_tree.py:187-188 | a family is created under its id only when the id is new; an existing one is kept |
| Loader.Step | content_generator/src/gramps_tree.py:186-219 | one row either fails on a missing person or adds its relation and family members |
| Loader.FoldFrom | content_generator/src/gramps_tree.py:185-219 | the rows are folded in order and the first failed lookup stops the load |
| Loader.FoldRows | content_generator/src/gramps_tree.py:185-221 | the row loop returns exactly the fold of its rows |
| Loader.FoldOkIff | content_generator/src/gramps_tree.py:185-219 | the load succeeds exactly when every person a row looks up is loaded |
| Loader.StepRelations | content_generator/src/gramps_tree.py:189-219 | a row adds exactly the relation its kind gives |
| Loader.FoldRelations | content_generator/src/gramps_tree.py:185-219 | MARRIAGE(father, mother, family) is loaded exactly when a parent row of the family names both parents; BIRTH_FROM(child, parent, family) exactly when a child row names the child and that parent, the father if there is one |
| Loader.LoadedRelationKinds | content_generator/src/gramps_tree.py:185-219 | only MARRIAGE and BIRTH_FROM relations are loaded, each for a family some row names |
| Loader.EnsureFamilyShape | content_generator/src/gramps_tree.py:187-188 | creating a family keeps one entry per id in first-seen order |
| Loader.StepShape | content_generator/src/gramps_tree.py:186-219 | a row keeps every family under its own id with known members and children listed once |
| Loader.FoldFamilies | content_generator/src/gramps_tree.py:185-219 | after the fold there is one family per family id of the rows, in first-seen order, each well formed |
| Loader.LoneParentRow | content_generator/src/gramps_tree.py:186-196 | a parent's own row without a partner only creates the family when it is new |
| Loader.LastOfKind | content_generator/src/gramps_tree.py:90-101 | the index found is the last event of the kind, or -1 when there is none |
| Loader.ReadJsonDate | content_generator/src/gramps_tree.py:93-101 | a missing date fails with TypeError; a present one is read as a JSON date |
| Loader.ParseLifetimeJson | content_generator/src/gramps_tree.py:89-103 | the event loop returns exactly the lifetime fold of the events |
| Loader.JsonLifetimeReadsLastEvents | content_generator/src/gramps_tree.py:89-103 | the birth is the date of the last BIRTH event and the death that of the last DEATH event, each None without such an event; an unreadable one fails the whole lifetime |
| Loader.ReadDbDate | content_generator/gramps_tree.py:90-96 | a present tuple is read by the four-or-eight reader; a missing one fails |
| Loader.ParseLifetimeLegacy | content_generator/gramps_tree.py:85-98 | the event loop returns exactly the lifetime fold of the older copy |
| Loader.LegacyDeathNeedsEarlierBirth | content_generator/gramps_tree.py:85-98 | when the events are read: the birth is the last BIRTH's date; a death is kept exactly when the last DEATH comes after some BIRTH, and it is then that DEATH's date |
| Loader.LegacyLifetimeFails | content_generator/gramps_tree.py:85-98 | the lifetime fails exactly when some event cannot be read (a BIRTH without a readable date, a DEATH after a birth without one), with the first such event's error: PersonWithoutBirthdayError for a BIRTH without a date |
| Loader.ParseLifetimeDb | gramps_parser/db.py:318-335 | the event loop returns exactly the lifetime fold of the parser copy |
| Loader.DbLifetimeReadsLastEvents | gramps_parser/db.py:318-335 | when the events are read: the birth is the last BIRTH's date; the death is the last DEATH's date, None when that event has no date |
| Loader.DbLifetimeFails | gramps_parser/db.py:318-335 | the lifetime fails exactly when some event cannot be read, with the first such event's error: ValueError for a BIRTH without a date |
| Paths.Segments | content_generator/src/gramps_tree.py:232-235 | a path's segments are the pieces pathlib keeps: none empty, none ".", none holding a separator |
| Paths.SegmentsJoined | content_generator/src/gramps_tree.py:232-235 | segments joined by single separators read back as the same segments |
| Paths.RenderReads | content_generator/src/gramps_tree.py:232-235 | printing a path and reading it back gives its absolute flag and its segments |
| Paths.NormalizedIdempotent | content_generator/src/gramps_tree.py:232-235 | normalising a normalised path changes nothing |
| Paths.JoinPathSegments | content_generator/src/gramps_tree.py:232-235 | joining an absolute part gives that part's segments, absolute; a relative part gives the base's segments then the part's, absolute exactly when the base is |
| Paths.LastSegmentIsFileName | content_generator/src/presenters/biographer.py:72 | a path whose file name is a segment ends with that segment |
| Paths.FileNameOfJoinPath | content_generator/src/gramps_tree.py:232-235 | joining a relative part whose file name is a segment keeps that file name |
| Paths.NestedJoin | content_generator/src/gramps_tree.py:232-235 | base / sub / part has the base's segments, then sub, then the part's |
| Loader.MediaPathKeepsFileName | content_generator/src/gramps_tree.py:232-235 | a picture stored under a relative path keeps its file name, and its segments are the tree's, then "media", then the stored path's |
| Loader.LoadMedia | content_generator/src/gramps_tree.py:223-238 | the media loop returns exactly the fold of the picture filter |
| Loader.LastPictureRow | content_generator/src/gramps_tree.py:229-237 | the row found is the last JPEG or PNG row with that id, or -1 |
| Loader.MediaKeepsPictures | content_generator/src/gramps_tree.py:229-237 | an id is kept exactly when it has a JPEG or PNG row; its media comes from its last such row, under tree/media/path, with no persons |
| Loader.LinkStep | content_generator/src/gramps_tree.py:247-251 | one row links the person and the media both ways, or fails with KeyError when either id is missing |
| Loader.LinkMedia | content_generator/src/gramps_tree.py:240-251 | the link loop returns exactly the fold of the rows |
| Loader.LinkKeepsEntries | content_generator/src/gramps_tree.py:247-251 | linking adds links only: no person or media appears or vanishes and no other field changes |
| Loader.LinksBothWays | content_generator/src/gramps_tree.py:247-251 | every linked pair names a loaded person and media, and each ends up listing the other |
| Loader.LoadEvents | content_generator/src/gramps_tree.py:118-135 | the event loop returns exactly the fold of its rows |
| Loader.LastGoodRow | content_generator/src/gramps_tree.py:122-134 | the row found is the last row whose date reads, or -1 |
| Loader.EventVariableTracksLastGoodRow | content_generator/src/gramps_tree.py:122-134 | after the loop, the `event` variable holds the event of the last row whose date was read |
| Loader.StaleEntry | content_generator/src/gramps_tree.py:124-134 | a row whose date fails is stored under its own key with the event of the nearest earlier good row; with no such row the load fails with UnboundLocalError |
| TreeWalk.InPool | content_generator/src/presenters/tree_render.py:292-296 | the persons listed are exactly the listed ids still in the pool, with their loaded values |
| TreeWalk.FirstEarliest | content_generator/src/presenters/tree_render.py:352 | `min` by birth picks an earliest-born person, the first among equals |
| TreeWalk.FirstLatest | content_generator/src/presenters/tree_render.py:298 | `max` by birth picks a latest-born person, the first among equals |
| TreeWalk.LastLatest | content_generator/src/presenters/tree_render.py:314-319 | the last of a stable sort by birth is a latest-born person, the last among equals |
| TreeWalk.OfGender | content_generator/src/presenters/tree_render.py:349 | the filter keeps exactly the persons of that gender |
| TreeWalk.EarliestOfGender | content_generator/src/presenters/tree_render.py:347-359 | none exactly when nobody has the gender; otherwise an earliest-born person of that gender |
| TreeWalk.Patriarch | content_generator/src/presenters/tree_render.py:258-264 | the seed is the earliest-born man, else the earliest-born woman, else none; unknown gender never seeds |
| TreeWalk.PartnerId | content_generator/src/presenters/tree_render.py:371-375 | a MARRIAGE relation naming the person on either side gives the other side |
| TreeWalk.Partners | content_generator/src/presenters/tree_render.py:361-380 | the partners are exactly the unplaced persons married to the person by some relation |
| TreeWalk.OldestPartner | content_generator/src/presenters/tree_render.py:313-320 | none without unplaced partners; otherwise a latest-born partner |
| TreeWalk.FamilyWith | content_generator/src/presenters/tree_render.py:327-340 | the first family in dict order with the person and the partner in the gender's slots, none when there is no such family |
| TreeWalk.OldestFamily | content_generator/src/presenters/tree_render.py:322-340 | a family is found only when a partner is, and it is a loaded family |
| TreeWalk.FamilyKids | content_generator/src/presenters/tree_render.py:290-296 | the kids listed are unplaced loaded persons |
| TreeWalk.BirthKids | content_generator/src/presenters/tree_render.py:300-308 | the kids are exactly the unplaced persons with a BIRTH_FROM relation to the person |
| TreeWalk.LatestChild | content_generator/src/presenters/tree_render.py:289-311 | the latest-born unplaced child of the family with the chosen partner; without one, the latest-born unplaced BIRTH_FROM child; none when neither exists |
| TreeWalk.NextPerson | content_generator/src/presenters/tree_render.py:276-287 | whoever is chosen is still in the pool |
| TreeWalk.NextPersonPrefersChildren | content_generator/src/presenters/tree_render.py:276-287 | a child is chosen whenever one exists; otherwise a latest-born partner; none only when neither exists |
| TreeWalk.ParentalFamily | content_generator/src/presenters/tree_render.py:472-476 | the first family in dict order listing the person as a child, none when no family does |
| TreeWalk.Walk | content_generator/src/presenters/tree_render.py:266-274 | the walk only takes persons out of the pool |
| TreeWalk.WalkSplitsPool | content_generator/src/presenters/tree_render.py:266-274 | the walk places each person at most once, each from the pool, leaves the rest pooled, and ends only when the person it started from has nobody next in what is left |
| TreeWalk.Flatten | content_generator/src/presenters/tree_render.py:76-83 | the rounds placed one after another begin with the first round |
| TreeWalk.Rounds | content_generator/src/presenters/tree_render.py:76-83 | every round places at least its seed |
| TreeWalk.RoundsPlaceEachOnce | content_generator/src/presenters/tree_render.py:76-83 | the rounds place every man and woman of the pool exactly once and nobody from outside it |
| Timeline.XPosLinear | content_generator/src/presenters/tree_render.py:469-470 | the time axis is linear with slope 0.01 and strictly increasing; the earliest birth sits at the margin |
| Timeline.BarSpansLife | content_generator/src/presenters/tree_render.py:385-387 | a bar `days_of_life * 0.01` wide ends exactly at the death day on the axis |
| Timeline.Triangle | content_generator/src/presenters/tree_render.py:97-128 | only "down" and "up" give a triangle, a closed outline of four points; any other direction raises UnknownDirectionError |
| Timeline.PersonShapes | content_generator/src/presenters/tree_render.py:385-447 | the bar at its row, a five-year fade before an estimated birth, a ten-year fade after an estimated death, then the caption and the hidden id at one anchor |
| Timeline.FirstHighest | content_generator/src/presenters/tree_render.py:204 | `max` by y picks a member with the largest y, the first among equals |
| Timeline.FirstLowest | content_generator/src/presenters/tree_render.py:205 | `min` by y picks a member with the smallest y, the first among equals |
| Timeline.Marks | content_generator/src/presenters/tree_render.py:209-234 | a child gets no triangle; a parent at either end of the line one; a parent in between two |
| Timeline.FamilyLine | content_generator/src/presenters/tree_render.py:236-247 | the line's upper end is at or past every member's row, its lower end at or before the bottom of every member's bar, and both ends are set once two members sit on different rows |
| Timeline.AllMarksCount | content_generator/src/presenters/tree_render.py:208-234 | the triangles of all members add up member by member |
| Timeline.FamilyTriangles | content_generator/src/presenters/tree_render.py:199-247 | a family whose members all have nodes is drawn, with one triangle per parent at an end and two per parent in between |
| Timeline.FirstMissing | content_generator/src/presenters/tree_render.py:201-203 | none exactly when every member has a node; otherwise the first member without one |
| Timeline.TraceFamily | content_generator/src/presenters/tree_render.py:208-234 | the loop gives exactly the members' triangles and the two ends of the line, where they are set |
| Timeline.PlaceKeepsPartition | content_generator/src/presenters/tree_render.py:449-450 | placing a pooled person keeps every person either pooled or placed once |
| Timeline.PlaceKeepsStacked | content_generator/src/presenters/tree_render.py:383-384 | the new row lies below every earlier one, so y keeps growing in placement order |
| Timeline.TreeRender.PlacementDescends | content_generator/src/presenters/tree_render.py:382-384 | whoever was placed later sits strictly lower |
| Timeline.TreeRender.constructor | content_generator/src/presenters/tree_render.py:63-75 | the whole tree is unplaced, no row is handed out, nothing is drawn, day zero is the earliest birth |
| Timeline.TreeRender.AddPerson | content_generator/src/presenters/tree_render.py:382-467 | a new row, the node at its y below every other, the person out of the pool, and the drawing stays the bars of the placed persons, or the first connector's error |
| Timeline.TreeRender.Place | content_generator/src/presenters/tree_render.py:382-384 | the bookkeeping of a placement: the row counter, the node below every earlier one, the pool and the placed list |
| Timeline.TreeRender.ExtendRight | content_generator/src/presenters/tree_render.py:266-274 | the persons placed are exactly the walk from the person, in its order, one row each; the pool left is the walk's |
| Timeline.TreeRender.NextSeed | content_generator/src/presenters/tree_render.py:258-264 | the seed is the patriarch of the pool: the earliest-born man, else woman; none exactly when only unknown-gender persons are left |
| Timeline.TreeRender.NextRow | content_generator/src/presenters/tree_render.py:77 | the counter moves on and every bar stays above the new row |
| Timeline.TreeRender.Round | content_generator/src/presenters/tree_render.py:79-83 | a round places its seed, then the walk from it, one row each, and records that as the next round |
| Timeline.TreeRender.Step | content_generator/src/presenters/tree_render.py:76-83 | one pass takes a row and then either finds no patriarch and changes nothing else, or places the patriarch's round |
| Timeline.TreeRender.PlaceAll | content_generator/src/presenters/tree_render.py:76-83 | the rounds placed are exactly those the whole pool defines, the placed persons are those rounds in order, only unknown-gender persons stay unplaced, and the counter is placed persons plus rounds |
| Timeline.TreeRender.Finish | content_generator/src/presenters/tree_render.py:84-94 | the result is the drawing of the placed rows: the first failed connector, else the first failed family line, else the canvas |
| Timeline.TreeRender.FamilyShapesOf | content_generator/src/presenters/tree_render.py:199-247 | one family is drawn exactly as the family-lines function says |
| Timeline.TreeRender.FamilyLines | content_generator/src/presenters/tree_render.py:197-249 | the loop gives exactly the family lines of the families in dict order |
| Timeline.Weddings | content_generator/src/app/entities.py:281-293 | every family gets its wedding day as the wedding-day rule computes it from its drawn weeks, or that rule's error |
| Timeline.WeddingErrors | content_generator/src/app/entities.py:281-293 | a wedding day that cannot be computed fails with ValueError or OverflowError |
| Timeline.Connector | content_generator/src/presenters/tree_render.py:453-467 | a connector fails only with the error of some family's wedding day |
| Timeline.BarsFailIff | content_generator/src/presenters/tree_render.py:382-467 | the bars fail exactly when some placed person's connector fails, and then with the first such person's error |
| Timeline.FamilyLineFailIff | content_generator/src/presenters/tree_render.py:199-247 | one family's line fails exactly when a member has no node or its wedding day fails, with KeyError or that day's error |
| Timeline.FamilyLinesFailIff | content_generator/src/presenters/tree_render.py:197-249 | the family lines fail exactly when some family to draw has a member that was never placed or a wedding day that fails |
| Timeline.DrawingErrors | content_generator/src/presenters/tree_render.py:62-94 | the drawing fails only with KeyError, ValueError or OverflowError |
| Timeline.Render | content_generator/src/presenters/tree_render.py:62-94 | an empty tree raises ValueError; otherwise the rounds are those the whole tree defines, every man and woman is placed once, each below everyone placed before, and the result is the drawing of those rows, failing only with KeyError, ValueError or OverflowError |
| Hyperlink.Wrap | content_generator/src/presenters/tree_render.py:522-525 | the wrapped label is the link head, the label unchanged, then the closing tag |
| Hyperlink.RelinkAll | content_generator/src/presenters/tree_render.py:506-528 | one output line per kept line, each relinked on its own |
| Hyperlink.Rewrite | content_generator/src/presenters/tree_render.py:478-532 | the two passes write exactly the relinked kept lines |
| Hyperlink.SplitIdLabels | content_generator/src/presenters/tree_render.py:485-504 | the first loop gives exactly the kept lines and the remembered anchors |
| Hyperlink.AddLinks | content_generator/src/presenters/tree_render.py:506-528 | the second loop gives exactly the relinked lines |
| Hyperlink.CleanAppend | content_generator/src/presenters/tree_render.py:485-504 | the kept lines of two parts are those of each part, in file order |
| Hyperlink.CleanKeepsExactlyOthers | content_generator/src/presenters/tree_render.py:485-504 | a line is kept exactly when it is not a hidden id label |
| Hyperlink.CleanWithoutIds | content_generator/src/presenters/tree_render.py:485-504 | a file without id labels is kept as it is |
| Hyperlink.AnchorsRemembered | content_generator/src/presenters/tree_render.py:497-503 | an anchor is remembered exactly when some id label sits at it |
| Hyperlink.AnchorsLastWins | content_generator/src/presenters/tree_render.py:497-503 | a remembered anchor points to the last id label at it |
| Hyperlink.RewriteLinksByAnchor | content_generator/src/presenters/tree_render.py:506-528 | every line written is a kept line, wrapped in a link to the person whose id label shared its anchor, or else unchanged |
| Hyperlink.RewriteWithoutIds | content_generator/src/presenters/tree_render.py:478-532 | a file without id labels is written back unchanged |
| Ego.CreateRelationships | content_generator/src/presenters/small_tree_render.py:83-99 | the loop gives exactly the lanes and parents of the families in dict order |
| Ego.LanesCollected | content_generator/src/presenters/small_tree_render.py:88-93 | each lane comes from a family the focal person heads, and each such family gives its lane |
| Ego.ParentsCollected | content_generator/src/presenters/small_tree_render.py:94-98 | each parent comes from a family the focal person is a child of, and each such family gives its parents |
| Ego.RelationsCollected | content_generator/src/presenters/small_tree_render.py:83-99 | one lane per headed family, in order, with its partner and children; parents father before mother |
| Ego.NoRelationsIff | content_generator/src/presenters/small_tree_render.py:57-62 | WithoutRelationsError is raised exactly when the person heads no family and no family they are a child of has a parent |
| Ego.ArrangeInGeneration | content_generator/src/presenters/small_tree_render.py:262-275 | the loop starts from the focal person in generation 0 and gives exactly the generations the families ask for |
| Ego.AddFamily | content_generator/src/presenters/small_tree_render.py:266-275 | one family's turn of the loop is the generation step |
| Ego.GenerationKeys | content_generator/src/presenters/small_tree_render.py:265-275 | a generation key exists only when some family asks for it or it was there from the start |
| Ego.GenerationStepAt | content_generator/src/presenters/small_tree_render.py:266-275 | one family adds to generations 0, 1 and -1 exactly what the loop adds |
| Ego.GenerationZero | content_generator/src/presenters/small_tree_render.py:267-270 | generation 0 gains the parents of the headed families and nobody else |
| Ego.GenerationOne | content_generator/src/presenters/small_tree_render.py:267-271 | generation 1 gains the children of the headed families and nobody else |
| Ego.GenerationAbove | content_generator/src/presenters/small_tree_render.py:272-275 | generation -1 gains the children of the families the person is a child of |
| Ego.InsertByBirth | content_generator/src/presenters/small_tree_render.py:168-170 | inserting keeps the children and puts the new one after those born no later |
| Ego.SortByBirth | content_generator/src/presenters/small_tree_render.py:168-170 | the sort keeps the same children |
| Ego.SortByBirthSorts | content_generator/src/presenters/small_tree_render.py:168-170 | the children come out in birth order, as a permutation |
| Ego.SortedKnown | content_generator/src/presenters/small_tree_render.py:168-170 | sorted children that all had persons still do |
| EgoDraw.JitterRounds | content_generator/src/presenters/small_tree_render.py:189-199 | apart from one lane and the tie at seven, the jitter is 1/(n+1) rounded to the nearest hundredth, a tie rounded up |
| EgoDraw.JitterDoctest | content_generator/src/presenters/small_tree_render.py:192-195 | one lane gives 0.5, two give 0.33, seven give 0.12 |
| EgoDraw.JitterBound | content_generator/src/presenters/small_tree_render.py:145-148 | up to sixteen lanes the jitter is positive and the lanes stay below a whole cell |
| EgoDraw.LaneFractionExact | content_generator/src/presenters/small_tree_render.py:148 | lane k's fraction is one less the jitter times k + 1 |
| EgoDraw.LanesInsideCell | content_generator/src/presenters/small_tree_render.py:145-148 | up to sixteen lanes every lane line is strictly inside the cell, each above the one before |
| EgoDraw.SeventeenLanesLeaveTheCell | content_generator/src/presenters/small_tree_render.py:145-148 | from seventeen lanes on, the last lane's line leaves the cell |
| EgoDraw.LabelWidthExact | content_generator/src/presenters/small_tree_render.py:321 | the label width is font size times 0.55 times the name's length |
| EgoDraw.CellLabels | content_generator/src/presenters/small_tree_render.py:305-340 | a cell is a rectangle at its grid position, the name and the hidden id at one anchor, halfway down |
| EgoDraw.RenderCount | content_generator/src/presenters/small_tree_render.py:305-340 | every cell draws three shapes and every line one |
| EgoDraw.ByGender | content_generator/src/presenters/small_tree_render.py:122-124 | two parents come out women first, a tie keeping their order |
| EgoDraw.ChildItems | content_generator/src/presenters/small_tree_render.py:168-184 | each child gets its cell at the next column and its descent line |
| EgoDraw.LaneBlocks | content_generator/src/presenters/small_tree_render.py:145-184 | lane k is drawn at fraction 1 - jitter(k + 1), from the column the lanes before it reached |
| EgoDraw.ChildStep | content_generator/src/presenters/small_tree_render.py:168-184 | drawing child i adds its cell and descent line to the children before it |
| EgoDraw.DrawChildren | content_generator/src/presenters/small_tree_render.py:168-184 | the inner loop draws exactly the plan of the children |
| EgoDraw.DrawLane | content_generator/src/presenters/small_tree_render.py:149-184 | one lane draws its partner and marriage line if set, then its children |
| EgoDraw.DrawLaneHead | content_generator/src/presenters/small_tree_render.py:149-163 | the partner's cell right of the focal person for the first lane, else at the current column, with the marriage line |
| EgoDraw.DrawObjects | content_generator/src/presenters/small_tree_render.py:101-186 | the drawing is exactly the rendered plan: parents, the focal person, the lanes |
| EgoDraw.PlanParts | content_generator/src/presenters/small_tree_render.py:107-147 | the plan is the parents' part, the focal cell and the lanes' part |
| EgoDraw.BlockAt | content_generator/src/presenters/small_tree_render.py:147-148 | block k is lane k at its column and jitter |
| EgoDraw.LaneStep | content_generator/src/presenters/small_tree_render.py:147-184 | drawing lane k after the lanes before it draws the first k + 1 blocks |
| EgoDraw.DrawLanes | content_generator/src/presenters/small_tree_render.py:145-184 | the lane loop draws exactly the lanes' blocks |
| EgoDraw.DrawParents | content_generator/src/presenters/small_tree_render.py:107-141 | one parent, two parents or none are drawn as the parents' plan says |
| EgoPlan.AllKids | content_generator/src/presenters/small_tree_render.py:147-170 | the children in drawing order: lane after lane, by birth within a lane |
| EgoPlan.ThreeLanes | content_generator/src/presenters/small_tree_render.py:145-148 | three lanes run their lines 37.5, 25 and 12.5 below the top of the row |
| EgoPlan.ChildrenTakeConsecutiveColumns | content_generator/src/presenters/small_tree_render.py:146-184 | the row below the focal person holds exactly the children, lane by lane, by birth, in columns 0, 1, 2, ... |
| EgoPlan.PartnerPlaced | content_generator/src/presenters/small_tree_render.py:149-163 | lane k's partner sits at the global children column, one further right for the first lane, with its marriage line at the lane's fraction |
| EgoPlan.FocalPlaced | content_generator/src/presenters/small_tree_render.py:107-144 | the focal person is at column 0, in generation 1 exactly when one or two parents are drawn |
| EgoPlan.ParentRow | content_generator/src/presenters/small_tree_render.py:107-141 | one parent at (0, 0); two at columns 0 and 1, women first; otherwise none |
| EgoPlan.ChildCells | content_generator/src/presenters/small_tree_render.py:168-184 | one lane's children sit in the row below, in consecutive columns from its start |
| EgoPlan.LaneCells | content_generator/src/presenters/small_tree_render.py:147-184 | a lane's partner is in the focal row and its children in the row below |
| EgoPlan.LanesCells | content_generator/src/presenters/small_tree_render.py:145-184 | every lane cell is within the children's or partners' columns, in the focal row or the row below |
| EgoPlan.NeededColumns | content_generator/src/presenters/small_tree_render.py:107-184 | the columns needed cover the focal person, the parents, the children and the partners |
| EgoPlan.ParentCells | content_generator/src/presenters/small_tree_render.py:107-141 | the parents' cells are in generation 0, below the number of parents |
| EgoPlan.PlanLanesCells | content_generator/src/presenters/small_tree_render.py:145-184 | every cell of the lanes' plan is in the needed columns and rows |
| EgoPlan.PlanCells | content_generator/src/presenters/small_tree_render.py:101-186 | every cell of the plan is in a needed column and a drawn row |
| EgoCanvas.LaneColumnsCover | content_generator/src/small_tree_render.py:294-296 | a lane counts at least one column and one per child |
| EgoCanvas.CountChildren | content_generator/src/presenters/small_tree_render.py:289-291 | the loop counts all the children of the lanes |
| EgoCanvas.CountLaneColumns | content_generator/src/small_tree_render.py:294-296 | the loop adds up max(children, 1) over the lanes |
| EgoCanvas.CountNonBlank | content_generator/src/presenters/small_tree_render.py:295-298 | the loop counts the generations holding somebody, in any key order |
| EgoCanvas.GetSizePresenters | content_generator/src/presenters/small_tree_render.py:283-303 | width: max(parents, 2 with lanes, all children) columns; height: the non-blank generations |
| EgoCanvas.GetSizeSrc | content_generator/src/small_tree_render.py:288-302 | width: the lane columns or the parents if more; height: every generation key |
| EgoCanvas.PresentersWidthMissesPartner | content_generator/src/presenters/small_tree_render.py:293 | two lanes, the first with two children: the second partner's cell starts where the canvas ends |
| EgoCanvas.SrcWidthMissesPartner | content_generator/src/small_tree_render.py:294-297 | a single childless lane: the canvas is one column wide and the partner is drawn in column 1 |
| EgoCanvas.FittingCovers | content_generator/src/presenters/small_tree_render.py:283-303 | the width widened to the last partner holds every column the plan needs |
| EgoCanvas.PartnerEndOf | content_generator/src/presenters/small_tree_render.py:147-163 | the loop tracks the column right of the last partner drawn |
| EgoCanvas.GenerationsHeld | content_generator/src/presenters/small_tree_render.py:262-275 | the generations around the focal row hold somebody whenever the plan draws them |
| EgoCanvas.RowsFit | content_generator/src/presenters/small_tree_render.py:295-302 | each copy's canvas has at least the rows the plan draws |
| EgoCanvas.InsertByKind | content_generator/src/presenters/small_tree_render.py:75 | inserting keeps the shapes and places the new one first of its kind |
| EgoCanvas.ByKind | content_generator/src/presenters/small_tree_render.py:75 | the sort keeps the number of shapes |
| EgoCanvas.InsertKindOrdered | content_generator/src/presenters/small_tree_render.py:75 | inserting keeps the shapes ordered by kind |
| EgoCanvas.InsertKeepsKind | content_generator/src/presenters/small_tree_render.py:75 | inserting puts the shape first among its kind and leaves the other kinds alone |
| EgoCanvas.ByKindGroups | content_generator/src/presenters/small_tree_render.py:75 | the grouped shapes are the same shapes, ordered by kind, each kind in drawing order |
| EgoCanvas.RelationsKnown | content_generator/src/presenters/small_tree_render.py:83-99 | the lanes and parents of a loaded tree name loaded persons |
| EgoCanvas.GetSize | content_generator/src/presenters/small_tree_render.py:283-303 | the copy's `__get_size` as written: its own column count, not widened to the last partner, and its own row count |
| EgoCanvas.GetSizeFitting | content_generator/src/presenters/small_tree_render.py:283-303 | the corrected size: the width widened to hold the last partner, the height as written |
| EgoCanvas.DrawCanvas | content_generator/src/presenters/small_tree_render.py:65-75 | the canvas is the plan drawn with the copy's own size as written, its shapes grouped by kind |
| EgoCanvas.CreateSvg | content_generator/src/presenters/small_tree_render.py:52-78 | the small tree as written: KeyError for a missing focal person, WithoutRelationsError without lanes and parents, otherwise the plan on the copy's own, unwidened canvas |
| EgoCanvas.SmallTreeFitting | content_generator/src/presenters/small_tree_render.py:52-78 | the corrected small tree: it fails exactly when the small tree as written fails, with the same error; otherwise the same shapes and height, on a canvas at least as wide |
| EgoCanvas.SmallTreeErrors | content_generator/src/presenters/small_tree_render.py:55-62 | the drawing fails exactly when the focal person is missing (KeyError) or has no lanes and no parents (WithoutRelationsError) |
| EgoCanvas.RectsInside | content_generator/src/presenters/small_tree_render.py:305-319 | a cell within the columns and rows has its rectangle inside the canvas |
| EgoCanvas.CellsInsideCanvas | content_generator/src/presenters/small_tree_render.py:52-78 | every rectangle of the corrected small tree lies inside its widened canvas |
| EgoLegacy.LegacyKeys | content_generator/small_tree_render/small_tree_render.py:91-105 | keys 0 and 1 exist once the person heads a family, -1 once they are a child; no families, no keys |
| EgoLegacy.ParentAndChild | content_generator/small_tree_render/small_tree_render.py:94-104 | a person who heads a family and is a child in one is in generation 0 and in generation -1 |
| EgoLegacy.RowShapes | content_generator/small_tree_render/small_tree_render.py:84-87 | three shapes per member of a generation |
| EgoLegacy.DrawRow | content_generator/small_tree_render/small_tree_render.py:84-87 | the inner loop draws exactly the generation's cells |
| EgoLegacy.DrawFromGenerations | content_generator/small_tree_render/small_tree_render.py:81-88 | the loop draws exactly the generations one after another |
| EgoLegacy.RowCell | content_generator/small_tree_render/small_tree_render.py:330-365 | member j is drawn by shapes 3j to 3j+2, its cell in column j at row gen + 1 |
| EgoLegacy.ThreePerPerson | content_generator/small_tree_render/small_tree_render.py:81-88 | exactly three shapes per member of a generation |
| EgoLegacy.GetSizeLegacy | content_generator/small_tree_render/small_tree_render.py:196-204 | width: the largest generation in columns; height: the number of generations in rows |
| EgoLegacy.WidestBounds | content_generator/small_tree_render/small_tree_render.py:197-200 | every generation fits the width |
| EgoLegacy.LegacyHeightMissesChildren | content_generator/small_tree_render/small_tree_render.py:203 | generations 0 and 1 give two rows of height, while generation 1 is drawn in the third row |
| EgoLegacy.RowsNeededBounds | content_generator/small_tree_render/small_tree_render.py:331-333 | every generation's row is within the rows needed |
| EgoLegacy.GetHeightFitting | content_generator/small_tree_render/small_tree_render.py:330-333 | the loop gives the height of the lowest row drawn, generation g being drawn in row g + 1 |
| EgoLegacy.RowRects | content_generator/small_tree_render/small_tree_render.py:330-346 | the rectangles of a generation lie in its row and within its members' width |
| EgoLegacy.LegacyRectsInside | content_generator/small_tree_render/small_tree_render.py:81-88 | with keys -1 to 1 every rectangle lies inside the width and the fitting height |
| EgoLegacy.GenerationsKnown | content_generator/small_tree_render/small_tree_render.py:91-105 | every member of a generation is a loaded person |
| EgoLegacy.RowsOfTree | content_generator/small_tree_render/small_tree_render.py:91-105 | the generations' rows name loaded persons at keys -1 to 1 |
| EgoLegacy.CreateSvgLegacy | content_generator/small_tree_render/small_tree_render.py:64-79 | the older small tree as written: KeyError for a missing focal person, otherwise every generation drawn on a canvas as wide as the largest generation and one row high per generation |
| EgoLegacy.LegacyTreeFitting | content_generator/small_tree_render/small_tree_render.py:64-79 | the corrected older small tree: it fails exactly when the one as written fails, with the same error; otherwise the same shapes and width, as high as the lowest row drawn |
| EgoLegacy.CreateSvgLegacyFitting | content_generator/small_tree_render/small_tree_render.py:64-79 | the method gives the corrected older small tree |
| EgoLegacy.LegacyCellsInside | content_generator/small_tree_render/small_tree_render.py:64-79 | every rectangle of the corrected older drawing lies inside its canvas |
| EgoLegacy.NoFamiliesEmptyCanvas | content_generator/small_tree_render/small_tree_render.py:195-204 | without families the canvas is 0 by 0 and empty |
| GraphNodes.NatText | gramps_parser/render.py:42 | `str` of a natural number is its decimal digits |
| GraphNodes.NatTextReads | gramps_parser/render.py:42 | reading the digits back gives the number |
| GraphNodes.IntText | gramps_parser/render.py:42 | a negative number is written with a minus sign before its digits |
| GraphNodes.XAtAscends | gramps_parser/render.py:30-32 | later days lie further right |
| GraphNodes.PersonBoxSpansLife | gramps_parser/render.py:76-82 | a box centred at mid-life spans birth to death, up to the half day mid-life drops |
| GraphNodes.ArrowOfCode | gramps_parser/render.py:108-116 | BIRTH_FROM gives "vee", MARRIAGE and SIMPLE "none"; any other code raises ValueError |
| GraphNodes.Arrow | gramps_parser/render.py:108-113 | only BIRTH_FROM has an arrowhead |
| GraphNodes.ToDotEdge | gramps_parser/render.py:124-128 | the tail is the other end, the head the first end |
| GraphNodes.WithNodeKeepsDistinct | gramps_parser/render.py:182-190 | appending keeps node ids distinct and the id present; appending the same node again changes nothing |
| GraphNodes.WithEdgeKeepsDistinct | gramps_parser/render.py:227-233 | no two edges join the same two ends; appending the same edge again changes nothing |
| GraphNodes.PresentIsPersonOrFamily | gramps_parser/render.py:182-190 | a node of the walk is a placed person or a known family |
| GraphNodes.FirstChildAt | gramps_parser/render.py:235-245 | the first BIRTH_FROM relation with an unplaced child of the person, or the end |
| GraphNodes.FirstPartnerAt | gramps_parser/render.py:298-316 | the first MARRIAGE relation with an unplaced partner on the other side, or the end |
| GraphNodes.NextStep | gramps_parser/render.py:192-209 | the first unplaced child, else the first unplaced partner, else nobody |
| GraphNodes.MinByBirthAsWritten | gramps_parser/render.py:285-296 | one candidate is returned uncompared; two or more raise TypeError |
| GraphNodes.SeedAsWrittenAgrees | gramps_parser/render.py:285-296 | where the written seed does not raise, it is the earliest-born man, else woman |
| GraphNodes.TwoMenRaise | gramps_parser/render.py:140-146 | two unplaced men stop the walk with TypeError, where the intended seed exists |
| GraphNodes.FamilyAdded | gramps_parser/render.py:211-218 | a family node at the next row places nobody and keeps the walk's shape |
| GraphNodes.FamilyAppended | gramps_parser/render.py:215 | a new family node keeps the walk's shape |
| GraphNodes.FamilyStepped | gramps_parser/render.py:211-218 | the family node and its edge keep the walk well formed and place nobody |
| GraphNodes.PoolNotPresent | gramps_parser/render.py:182-190 | an unplaced person has no node yet |
| GraphNodes.ReachedStepped | gramps_parser/render.py:219-224 | the reached person's edge and node take them out of the pool |
| GraphNodes.PersonStepped | gramps_parser/render.py:207 | a pooled person's node at the next row places them |
| GraphNodes.PersonAdded | gramps_parser/render.py:182-190 | a pooled person's node takes them out of the pool and places them |
| GraphNodes.EdgeAdded | gramps_parser/render.py:227-233 | a new edge keeps the edges distinct and the rest unchanged |
| GraphNodes.HlineOnce | gramps_parser/render.py:165-170 | both notes are present afterwards; the same line twice adds nothing the second time |
| GraphNodes.NotesKeepPersons | gramps_parser/render.py:166-169 | notes add no person |
| GraphNodes.HlineKeeps | gramps_parser/render.py:165-170 | one line keeps ids distinct, only adds notes and keeps what was present |
| GraphNodes.DecorKeeps | gramps_parser/render.py:157-163 | decor keeps ids and edges distinct, keeps the walk's nodes as a prefix, adds only notes, and leaves both notes of every line present |
| GraphNodes.DecorRepeatAddsNothing | gramps_parser/render.py:162-163 | the repeated "2000" line adds no node and no edge |
| GraphNodes.WithNodeKeepsOk | gramps_parser/render.py:182-190 | appending a person, a note, or a family whose wedding day was computed leaves no family node with a failed day |
| GraphNodes.ReadyIsSetup | gramps_parser/db.py:212-224 | the wedding days the families compute from their drawn weeks give a day, or its error, for every family the walk can reach |
| GraphTraversal.Reached | gramps_parser/render.py:192-209 | the persons the steps reach, one per step, in order |
| GraphTraversal.ReachedConcat | gramps_parser/render.py:192-209 | the persons reached by two runs of steps are those of the first, then those of the second |
| GraphTraversal.GraphWalk | gramps_parser/render.py:172-180 | the walk only takes persons out of the pool |
| GraphTraversal.GraphWalkUnfolds | gramps_parser/render.py:172-180 | a walk whose first step is `s` takes it, walks from the person reached, then resumes from the person in what is left |
| GraphTraversal.GraphWalkSplitsPool | gramps_parser/render.py:172-180 | the walk reaches each person at most once, each from the pool, leaves the rest pooled, and ends only when the person it started from has no step left |
| GraphTraversal.Placed | gramps_parser/render.py:140-151 | the persons the rounds place begin with the first round's |
| GraphTraversal.AsWrittenAgrees | gramps_parser/render.py:139-151 | the rounds the program gets through before its `min` raises are the first intended rounds, and all of them when it does not raise |
| GraphTraversal.TwoMenStopTheLoop | gramps_parser/render.py:139-146 | with two men unplaced, the program raises before placing any round |
| GraphTraversal.GraphRoundsPlaceEachOnce | gramps_parser/render.py:139-151 | the intended rounds place every man and woman of the pool exactly once and nobody from outside it |
| GraphTraversal.FirstWeddingError | gramps_parser/render.py:54-59 | none exactly when no step's family fails its wedding day; otherwise the error of the first step whose family fails |
| GraphTraversal.FirstWeddingErrorConcat | gramps_parser/render.py:54-59 | over two runs of steps, the first error is the first run's, else the second's |
| GraphTraversal.FirstWeddingErrorIn | gramps_parser/render.py:54-59 | the first error is one of the errors the wedding days raise |
| GraphRender.GraphRender.constructor | gramps_parser/render.py:132-151 | the empty lists, then the loop: the rounds are those the program runs over all persons, `raised` says whether its `min` raised, the persons with a node are those rounds' in order, the first failed wedding day is theirs, and the counter is twice the persons placed |
| GraphRender.GraphRender.AppendNode | gramps_parser/render.py:182-190 | the node is appended unless its id is there; a new person node takes its person out of the pool |
| GraphRender.GraphRender.AppendEdge | gramps_parser/render.py:227-233 | the edge is appended unless one with the same two ends is there |
| GraphRender.GraphRender.AddFamily | gramps_parser/render.py:211-218 | the family node at the next row, with its wedding day, and the edge from the person to it; a failed day is recorded unless an earlier one was |
| GraphRender.GraphRender.AddReached | gramps_parser/render.py:219-224 | the reached person's edge, then their node at the next row |
| GraphRender.GraphRender.TakeStep | gramps_parser/render.py:211-224 | one step takes two rows and one person from the pool |
| GraphRender.GraphRender.AddPersonToTheRight | gramps_parser/render.py:192-209 | the next step is taken, or none is reported when there is none |
| GraphRender.GraphRender.ExtendRight | gramps_parser/render.py:172-180 | the persons placed are exactly those the walk from the person reaches, in its order; the pool left is the walk's, and the first failed wedding day is the walk's first |
| GraphRender.GraphRender.NextRound | gramps_parser/render.py:140-144 | the counter moves on; the seed is the program's `min`, which raises TypeError with two or more candidates; when it does not raise it is the earliest-born man, else woman, and none only when every unplaced person is of unknown gender |
| GraphRender.GraphRender.Round | gramps_parser/render.py:147-151 | the seed's node, then the walk from it: the round is the seed and the walk's steps, and it places exactly those persons |
| GraphRender.GraphRender.PlaceSeed | gramps_parser/render.py:148-149 | the seed's node at the row after the counter |
| GraphRender.GraphRender.RunRound | gramps_parser/render.py:139-151 | one pass of the loop keeps the rounds placed plus the rounds the pool still defines equal to all the rounds the program runs; when it places nothing the loop is over and the rounds and the TypeError are the program's |
| GraphRender.GraphRender.PlaceRound | gramps_parser/render.py:147-151 | placing a seed's round keeps the rounds placed plus those still to come equal to the program's, and shrinks the pool |
| GraphRender.GraphRender.PlaceAll | gramps_parser/render.py:139-151 | the rounds are exactly those the program runs over the pool, `raised` says whether its `min` raised, the persons with a node are those rounds' in order, the first failed wedding day is theirs, and the counter ends at twice the persons placed |
| GraphRender.GraphRender.Finish | gramps_parser/render.py:139-153 | the constructor fails exactly when a wedding day failed or the seed raised, with that error first; otherwise the decorated lists are drawn as `Drawn` says and keep the persons placed |
| GraphRender.GraphRender.Decorate | gramps_parser/render.py:153-170 | after the decor the lists are drawn as `Drawn` says and keep the persons placed and the counter |
| GraphRender.GraphRender.AddHline | gramps_parser/render.py:165-170 | a note above the first row, one two rows below the last, and a line between |
| GraphRender.GraphRender.AddDecor | gramps_parser/render.py:157-163 | the six decor lines, one after another |
| GraphRender.OutcomeErrors | gramps_parser/render.py:132-153 | the constructor raises only the seed's TypeError or a wedding day's ValueError or OverflowError |
| GraphRender.DecoratedDrawn | gramps_parser/render.py:153-170 | adding the decor to the walk's lists keeps ids and edges distinct, person rows ascending, each family node at its family's wedding day, and leaves both notes of every decor line present |
| GraphRender.NotesAfter | gramps_parser/render.py:164-170 | notes appended after the walk's nodes leave its person rows ascending and its family nodes at their computed wedding days |
| GraphRender.RenderGraph | gramps_parser/render.py:132-153 | the render fails exactly when the program raises: the first family node's failing wedding day, else the TypeError of the seed's `min`; otherwise every man and woman gets exactly one node, in the order of the intended rounds, rows grow in placement order, the counter is twice the persons placed, family nodes sit at their wedding days, and every decor note is present |
| Biographer.TerminatedIsJoined | content_generator/src/presenters/biographer.py:40-45 | accumulating "item, " and dropping the last two characters joins with ", "; no items give "" |
| Biographer.ReprList | content_generator/src/presenters/biographer.py:40-45 | the loop returns the items joined with ", " |
| Biographer.ArticleReadBack | content_generator/src/presenters/biographer.py:26-34 | reading the text back gives Title, Date, Category, Tags and Slug in that order, then the content |
| Biographer.EventEntry | content_generator/src/presenters/biographer.py:87-91 | an event without a date is listed by description; one with a date and a description by both; one with a date only not at all |
| Biographer.PrepareEvents | content_generator/src/presenters/biographer.py:84-94 | the loop returns exactly the events section |
| Biographer.EventLinesKept | content_generator/src/presenters/biographer.py:86-91 | the entries are exactly those of the listed events, in order |
| Biographer.EventLinesEmpty | content_generator/src/presenters/biographer.py:86-92 | no entries exactly when no event is listed |
| Biographer.EventsSectionShape | content_generator/src/presenters/biographer.py:84-94 | empty exactly when no event is listed; otherwise the heading and the listed entries |
| Paths.FileName | content_generator/src/presenters/biographer.py:72 | the file name holds no separator and is the text after the path's last separator, or the whole path |
| Paths.FileNameIsTail | content_generator/src/presenters/biographer.py:72 | the file name is the path's tail |
| Paths.FileNameOfJoin | content_generator/src/presenters/gallery.py:31 | the file name of dir/name is name |
| Biographer.PersonBodyRendered | content_generator/src/presenters/biographer.py:59-82 | the body built piece by piece is the rendering of the body's blocks |
| Biographer.SmallTreeDrawn | content_generator/src/presenters/biographer.py:96-109 | the small tree of a listed person is drawn exactly when the person has a lane or a parent |
| Biographer.PersonSectionsShow | content_generator/src/presenters/biographer.py:60-64 | the birth opens the body; the death follows exactly when before today; the small tree image appears exactly when drawn; the events section always has its place |
| Biographer.PersonSectionsContent | content_generator/src/presenters/biographer.py:65-73 | every note's content is given, in one block; one picture per media item |
| Biographer.PersonSectionsOrdered | content_generator/src/presenters/biographer.py:59-82 | the blocks keep their order, each kind at most once |
| Biographer.AppendNotes | content_generator/src/presenters/biographer.py:65-68 | the heading, every note's content with a blank line, then one more blank line |
| Biographer.AppendGallery | content_generator/src/presenters/biographer.py:69-73 | the heading, then one picture line per media item |
| Biographer.DrawSmallTree | content_generator/src/presenters/biographer.py:96-109 | the small tree is drawn exactly when the person is related |
| Biographer.CompleteBody | content_generator/src/presenters/biographer.py:63-73 | the small tree line if drawn, the events, the notes if any, the gallery if any |
| Biographer.CreateArticle | content_generator/src/presenters/biographer.py:59-82 | the article of the person, titled by the full name, filed by id, with the body of its blocks |
| Biographer.LegacyBodyRendered | content_generator/biographer.py:59-81 | the older body built piece by piece is the rendering of its blocks |
| Biographer.LegacySectionsShow | content_generator/biographer.py:60-63 | birth first, death exactly when before today, events; no small tree and no block of all notes |
| Biographer.LegacySectionsContent | content_generator/biographer.py:64-72 | one note's content exactly when there are notes; one picture per media item |
| Biographer.LegacySectionsOrdered | content_generator/biographer.py:59-81 | the older blocks keep their order |
| Biographer.CreateArticleLegacy | content_generator/biographer.py:59-81 | the corrected older article of the person: the article its body describes, filed under the person's `gramps_id` |
| Biographer.CreateArticleLegacyAsWritten | content_generator/biographer.py:59-81 | as written every call raises AttributeError at `person.id`, so no person gets the article the corrected method builds |
| Biographer.DbArticleOf | gramps_parser/biographer.py:47-59 | titled by the full name, filed by id, with the life span and the first note |
| Biographer.DbArticleBody | gramps_parser/biographer.py:49-51 | "{birth} - {death}" and a blank line, the birth printed as "None" when it is missing; one note's content follows, with nothing after, exactly when there is a note |
| Gallery.Regroup | content_generator/src/presenters/gallery.py:45-53 | the loop gives exactly the regrouped media |
| Gallery.RegroupMeaning | content_generator/src/presenters/gallery.py:46-53 | one entry per distinct path, in first-seen order; each the first media at its path with the persons of all media there |
| Gallery.RegroupKeys | content_generator/src/presenters/gallery.py:47-51 | the keys are the distinct paths, once each, in first-seen order |
| Gallery.RegroupEntries | content_generator/src/presenters/gallery.py:48-52 | each entry is the first media at its path, with the persons of all media there in order |
| Gallery.PersonsAtFrom | content_generator/src/presenters/gallery.py:52 | the persons gathered at a path are persons of media at that path |
| Gallery.ImageBlockShape | content_generator/src/presenters/gallery.py:61-75 | a block opens with the picture line and ends with the separator; the persons line is there exactly when the media names someone |
| Gallery.GalleryPage.constructor | content_generator/src/presenters/gallery.py:57-59 | the page starts as the fixed header |
| Gallery.GalleryPage.AddImage | content_generator/src/presenters/gallery.py:61-75 | the page grows by the media's block and nothing else |
| Gallery.BlockAfter | content_generator/src/presenters/gallery.py:61-75 | the block is the picture line, the persons line with one link per person when there are persons, then the separator |
| Gallery.MovedAllAt | content_generator/src/presenters/gallery.py:30-33 | each media is moved where it stands, only its path changed |
| Gallery.CopyKeepsBlock | content_generator/src/presenters/gallery.py:30-33 | copying keeps the file name, so the block is unchanged |
| Gallery.RegroupedKnown | content_generator/src/presenters/gallery.py:52 | the regrouped media name only persons named by the media they come from |
| Gallery.CopyAndAdd | content_generator/src/presenters/gallery.py:21-23 | one turn: the picture moved, then its block added |
| Gallery.GalleryValues | content_generator/src/presenters/gallery.py:20 | the regrouped media, in the dict's order, naming loaded persons only |
| Gallery.GenerateGallery | content_generator/src/presenters/gallery.py:18-24 | the page is the header and one block per distinct path in first-seen order; the media are moved into the gallery directory |

## Left out

- SQLite queries, pickle and JSON decoding: the query rows and the decoded fields are the loaders' inputs.
- drawsvg and graphviz object construction and file output: shapes, nodes and edges are datatypes, and the drawing is the list handed over.
- File reading and writing, directory creation, and the XML parsing inside the hyperlink pass: the pass works on a sequence of parsed line records.
- `datetime.now()`, `date.today()`, `random.randint` and the `SITEURL` variable: each is a parameter.
- `strftime` and the locale in `Date.__str__`, and `Person.__str__`: the calendar rendering is a parameter `calendar`, and a person's caption is a field.
- The string form of float coordinates: coordinates are exact reals.
- loguru logging.
- PIL scaling and `shutil` copying in the gallery: a copy is modelled as the new path only, and `absolute()` is not modelled.
- content_generator/gallery.py: it only copies files.
- The background and time slices of the full timeline (`__create_time_slice`, `__create_background`): they are decoration with no layout logic.
- The dead code of content_generator/small_tree_render/small_tree_render.py (lines 141-193, 206-328 and 369-376): it reads attributes that are never set.
- `__get_father` of gramps_parser/render.py: it is never called.
- The command-line entry points and the site configuration files.
- Python's set and dict iteration order: it is a given sequence. The first note of the older biographers is `notes[0]` of that sequence.
- Object identity and aliasing: a person or media is looked up by id, and `mark_person` on a shared Media object is modelled on values.
- content_generator/src/tree_render.py and content_generator/src/small_tree_render.py are line-shifted copies. The first is covered by the same `TreeWalk` and `Timeline` members. The second has its own `EgoCanvas` sizing members.
- content_generator/gramps_tree.py imports `PersonWithoutBirthdayError` from a module that does not define it, so that file cannot be imported. Its lifetime loop is modelled as if the import worked.
- The relationship loops of gramps_parser/db.py:384-416 and content_generator/gramps_tree.py:166-204 branch differently but are logically the same as content_generator/src/gramps_tree.py:185-219. `Loader.Step` models all three.
- Timeline.TreeRender.Place: the identity of the `Node` objects is not modelled, only their y.
- Gallery.MovedAll: its own contract states only the length; `Gallery.MovedAllAt` gives the elements.
- Timeline.Render: states that each person's row lies below everyone placed before, not the row's number (the person's place in the order plus the rounds begun so far).
- GraphRender.RenderGraph: states that person rows grow in placement order, not each node's row number, and that both notes of every decor line are present, not their rows.
- Paths.Segments: pathlib's special case of a path starting with exactly two separators is not modelled; such a path reads as absolute with one.
- GraphRender.GraphRender.AddFamily: where a family node's wedding day raises, the model records the first such error and walks on instead of stopping; the walk never reads a wedding day, so what is returned is the same.
- Timeline.Weddings: every family's wedding day is computed up front from its drawn weeks, where the program computes it on first use and caches it; the days are the same. gramps_parser/db.py:212-224 computes the same day as content_generator/src/app/entities.py:281-293 and is covered by the same member.

## Findings

| source | as written | input that shows it | evidently intended | confidence | as-written member | corrected member |
|---|---|---|---|---|---|---|
| content_generator/entities.py:228-231 | `__eq__` compares with `other.id`, which that Person class does not define | any person compared with itself | compare `gramps_id` with `other.gramps_id` | not executed | Entities.LegacyEqualityFailsOnItself | Entities.PersonEqIsIdentity |
| gramps_parser/render.py:285-296 | `min` over parser `Date` objects, which define no order | two unplaced men | the earliest-born man, else woman | not executed | GraphNodes.TwoMenRaise | TreeWalk.Patriarch |
| gramps_parser/render.py:139-151 | the loop seeds each round with that `min`, so the constructor raises TypeError while two or more men, or with no man two or more women, are unplaced | any tree with two men | the rounds seeded by the earliest-born man, else woman, placing every man and woman once | not executed | GraphTraversal.TwoMenStopTheLoop | GraphTraversal.GraphRoundsPlaceEachOnce |
| content_generator/biographer.py:79 | `slug=person.id`, while that Person class only offers `gramps_id` | any person | the slug is the person's `gramps_id` | not executed | Biographer.CreateArticleLegacyAsWritten | Biographer.CreateArticleLegacy |
| content_generator/src/presenters/small_tree_render.py:293 | the width counts `max(parents, 2 if lanes, children)` columns | lanes B1 with children C1 and C2, then B2 without children: B2 is drawn in column 2 on a two-column canvas | a canvas wide enough for every partner | not executed | EgoCanvas.PresentersWidthMissesPartner | EgoCanvas.CellsInsideCanvas |
| content_generator/src/small_tree_render.py:294-297 | the width counts `max(children, 1)` per lane | one lane B1 without children: B1 is drawn in column 1 on a one-column canvas | a canvas wide enough for every partner | not executed | EgoCanvas.SrcWidthMissesPartner | EgoCanvas.CellsInsideCanvas |
| content_generator/small_tree_render/small_tree_render.py:203 | the height counts the generations, while generation g is drawn in row g + 1 | a focal person heading a family and nobody's child: keys 0 and 1, two rows of height, generation 1 drawn in the third row | a height that holds the lowest row drawn | not executed | EgoLegacy.LegacyHeightMissesChildren | EgoLegacy.LegacyCellsInside |
