# Portfolio dashboard over a headless CMS — a Dafny model

The dashboard reads four kinds of content from a Cosmic bucket: projects, skills, work
experience and testimonials. It shows them as cards, groups skills into category sections and
counts everything on a home page. After each build a small script adds a console-capture
`<script>` tag to every generated HTML page. This project models the logic of those pieces and
proves what they promise.

- `outcomes.dfy`: `Option` and `Result`.
- `js.dfy`: the JavaScript behaviour the code relies on:
  - truthiness of `||`;
  - `includes` and `indexOf`;
  - `replace` with a string pattern (first occurrence only);
  - `substring`, with clamping;
  - `parseInt`, with whitespace, sign, `0x` and `NaN`;
  - `String(n)`.
- `types.dfy`: the content records, all of their metadata optional, and the type guards.
- `stable_sort.dfy`: the getters' `Array.prototype.sort`. It is a stable sort by descending
  date, as an insertion sort on an array. It is proved to be the unique stable sort.
- `cosmic.dfy`: the four getters, the 404 mapping, the fixed error messages and the
  mutations.
- `skills_page.dfy`: the reduce that buckets skills by category label, the ordered sections
  and the header counts.
- `stars.dfy`, `skill_card.dfy`, `testimonial_card.dfy`, `experience_card.dfy`,
  `project_card.dfy`: what each card shows.
- `dashboard.dfy`: `getDashboardStats`.
- `inject_console_capture.dfy`: the per-page head-tag injection and the loop over pages.

Outside influences are parameters:

- **Backend query outcome:** a `Call`. It either returned objects or raised a JavaScript value.
- **Date to milliseconds:** a function `string -> int`.
- **Date formatting:** a function `string -> string`.
- **Build directory:** whether it exists, the list of HTML pages and a map from path to
  content.

## Model

| member | source | states |
|---|---|---|
| Js.IndexOf | scripts/inject-console-capture.js:19 | the index found is an occurrence and no earlier index is one; `None` exactly when the pattern occurs nowhere |
| Js.IncludesIff | scripts/inject-console-capture.js:19 | `includes` holds exactly when the pattern occurs at some index |
| Js.ReplaceFirst | scripts/inject-console-capture.js:21-24 | replacing the first occurrence changes the length by the replacement's length minus the pattern's when the pattern occurs, otherwise not at all |
| Js.Substring | components/ProjectCard.tsx:57 | `substring` never yields more than the string |
| Js.ParseNumberToString | components/TestimonialCard.tsx:20 | `parseInt(String(n)) == n` for every integer written in plain decimal digits |
| Js.DecimalStringValue | components/SkillCard.tsx:65 | the decimal digits written for `n` denote `n` |
| Types.KindOf | types.ts:117-131 | the kind found is a kind exactly when the matching guard holds, and its literal is the object's `type` |
| Types.GuardsExclusive | types.ts:117-131 | at most one guard holds for any object |
| Types.GuardsNarrow | types.ts:14-99 | each record kind satisfies its own guard |
| Cosmic.HasStatusIff | lib/cosmic.ts:10-12 | `hasStatus` holds exactly for a non-null object with a `status` property |
| Cosmic.Recover | lib/cosmic.ts:27-32 | a thrown value becomes `[]` exactly when it is an object whose `status` is the number 404; anything else becomes the getter's fixed error |
| Cosmic.NoStatusIsFailure | lib/cosmic.ts:28-31 | a thrown value without a `status` (a string, `null`, an `Error` without status) is a failure |
| Cosmic.StringStatusIsFailure | lib/cosmic.ts:28 | a status of the string "404" is not a 404 under strict equality |
| Cosmic.FetchFailuresDistinct | lib/cosmic.ts:27-92 | the four getters fail with four different messages |
| Cosmic.EffectiveDate | lib/cosmic.ts:23-24 | the sort date is the record's own date when it is a non-empty string, otherwise the creation date |
| Cosmic.EmptyDateFallsBack | lib/cosmic.ts:23-24 | a missing or empty date falls back to `created_at`; a non-empty one is used |
| Cosmic.FetchSorted | lib/cosmic.ts:22-31 | a returned array comes back as a stable sort of itself by descending date; a thrown value is recovered as above |
| Cosmic.GetProjects | lib/cosmic.ts:15-33 | projects are stably sorted newest completion date first, or 404 gives `[]`, or "Failed to fetch projects" |
| Cosmic.GetSkills | lib/cosmic.ts:36-50 | skills come back in the backend's order, or 404 gives `[]`, or "Failed to fetch skills" |
| Cosmic.GetWorkExperience | lib/cosmic.ts:53-71 | work experience is stably sorted newest start date first, or 404 gives `[]`, or "Failed to fetch work experience" |
| Cosmic.GetTestimonials | lib/cosmic.ts:74-92 | testimonials are stably sorted newest date received first, or 404 gives `[]`, or "Failed to fetch testimonials" |
| Cosmic.Mutate | lib/cosmic.ts:95-124 | a mutation fails exactly when the backend call throws, always with the operation's fixed message, and otherwise passes the result through |
| StableSort.SortInPlace | lib/cosmic.ts:22-26 | sorting the array in place leaves the descending stable sort of its old contents |
| StableSort.InsertAt | lib/cosmic.ts:22-26 | an element is inserted right after the rightmost element whose date is at least its own: later dates go first, ties keep arrival order |
| StableSort.SortDescIsStableSort | lib/cosmic.ts:22-26 | the sort's result is ordered by descending key, is a permutation of the input, and keeps the input order among equal keys |
| StableSort.StableSortIsSortDesc | lib/cosmic.ts:22-26 | any sequence that is a stable descending sort of the input is the sort's result, so the order is fully determined |
| StableSort.StableSortUnique | lib/cosmic.ts:22-26 | two stable descending sorts of the same input are equal |
| StableSort.SortDescMultiset | lib/cosmic.ts:22-26 | sorting is a permutation |
| StableSort.SortDescNonIncreasing | lib/cosmic.ts:22-26 | sorted keys never increase |
| StableSort.SortDescStable | lib/cosmic.ts:22-26 | records with equal dates keep their input order |
| SkillsPage.GroupByCategory | app/skills/page.tsx:10-17 | the reduce builds, for each label in order of first appearance, the bucket of skills with that label |
| SkillsPage.CategoryLabelSpec | app/skills/page.tsx:11 | the bucket is the category's display value, whatever the key; a missing category or an empty value goes to "Other" |
| SkillsPage.LabelsIff | app/skills/page.tsx:12-14 | a label is a key exactly when its bucket is non-empty |
| SkillsPage.LabelsDistinct | app/skills/page.tsx:12-14 | every key is created once |
| SkillsPage.BucketMembership | app/skills/page.tsx:11-15 | a skill is in a bucket exactly when its label is that bucket's |
| SkillsPage.BucketAppend | app/skills/page.tsx:15 | buckets keep the input order |
| SkillsPage.BucketsPartition | app/skills/page.tsx:10-17 | the buckets together hold every skill exactly once, and their sizes add up to the number of skills |
| SkillsPage.BucketsDisjoint | app/skills/page.tsx:10-17 | two different buckets share no skill |
| SkillsPage.CategoryOrderDistinct | app/skills/page.tsx:19 | the category order names each category once |
| SkillsPage.CategoryKeysAreNotSections | app/skills/page.tsx:11-19 | no category key is a section name, so only grouping by the label lets sections appear |
| SkillsPage.SectionsFromSpec | app/skills/page.tsx:74-84 | each section is a non-empty bucket of an ordered category, every such bucket is shown, and sections follow the category order |
| SkillsPage.ShownSkills | app/skills/page.tsx:74-84 | the shown skills are, as a multiset, the skills whose label is in the category order |
| SkillsPage.ShownSkill | app/skills/page.tsx:74-84 | a skill is shown exactly when its label is one of the six ordered categories |
| SkillsPage.UnlistedCategoryHidden | app/skills/page.tsx:38-78 | a skill with a label outside the order counts in the header's categories but is shown in no section |
| SkillsPage.CategoryCountIsDistinctLabels | app/skills/page.tsx:38 | the header's category count is the number of distinct labels among the skills |
| SkillsPage.RenderSkillsPage | app/skills/page.tsx:38-84 | the header counts skills and buckets; the empty state shows exactly for no skills; otherwise the ordered sections |
| SkillsPage.ReduceAsWrittenSpec | app/skills/page.tsx:10-17 | the reduce on an object literal throws exactly when some label names an inherited `Object.prototype` member, and otherwise builds the same buckets |
| SkillsPage.ConstructorCategoryThrows | app/skills/page.tsx:12-15 | the label "constructor" throws as written, while the grouping gives it its own bucket |
| Stars.FilledSlots | components/SkillCard.tsx:33-37 | `index < count` over `m` slots fills `count` slots clamped to `[0, m]`, and none for `NaN` |
| Stars.StarsFilled | components/TestimonialCard.tsx:21-22 | five slots, at most five filled |
| SkillCard.StarCount | components/SkillCard.tsx:30-31 | the level table with its fallback to 1 gives between one and five stars |
| SkillCard.RenderStarsCount | components/SkillCard.tsx:29-41 | expert, advanced, intermediate and beginner fill 5, 4, 3 and 2 of five stars; any other key, or none, fills one |
| SkillCard.ColourMatchesStars | components/SkillCard.tsx:14-31 | green, blue and yellow go with 5, 4 and 3 stars, gray with 2 or fewer |
| SkillCard.FilledStarsAsWrittenSpec | components/SkillCard.tsx:30-37 | as written, no star is filled exactly for a key naming an inherited member, and otherwise the model's count is filled |
| SkillCard.ToStringLevelFillsNoStar | components/SkillCard.tsx:31 | the key "toString" fills no star as written, and one star as the fallback to 1 intends |
| SkillCard.YearsLabelSpec | components/SkillCard.tsx:62-67 | the years line starts with the number, which reads back as itself; it says "years" for every number except 1 |
| SkillCard.OneYear | components/SkillCard.tsx:65 | one year reads "1 year experience" |
| SkillCard.SkillCardSpec | components/SkillCard.tsx:9-59 | badge and stars appear together exactly when a proficiency is set; the badge shows the value with the colour class of the key, and the stars follow the key; the name is `skill_name` when non-empty, else the title |
| TestimonialCard.RenderStarsSpec | components/TestimonialCard.tsx:19-30 | five stars; none for a missing or empty rating or one that does not parse; for the text of an integer `n`, `n` clamped to `[0, 5]` |
| TestimonialCard.RatingLiterals | types.ts:114 | the rating literals are the texts of 1 to 5 |
| TestimonialCard.RatingFillsItsValue | components/TestimonialCard.tsx:19-22 | each rating literal fills exactly its own number of stars |
| TestimonialCard.SubtitleSpec | components/TestimonialCard.tsx:68-74 | no subtitle exactly when title and company are both empty; a part set alone is the whole subtitle; both give exactly the title, " at " and the company |
| TestimonialCard.TestimonialCardStars | components/TestimonialCard.tsx:37-41 | stars show exactly when a rating is set, and the rating `n` fills `n` of them |
| ExperienceCard.FormatDateRangeSpec | components/ExperienceCard.tsx:21-28 | empty exactly without a start date; otherwise exactly the formatted start, " - ", and "Present" for a current position or a missing end, else the formatted end |
| ExperienceCard.FormatDateRangeExamples | components/ExperienceCard.tsx:21-28 | a current role, a finished role, and a non-current role without end date read "Mar 2021 - Present", "Jun 2019 - Jan 2020" and "Jan 2022 - Present" |
| ExperienceCard.CurrentBadgeSpec | components/ExperienceCard.tsx:62-66 | the "Current" badge shows exactly for `current_position` true, and then the range ends in "Present" |
| ProjectCard.StripTags | components/ProjectCard.tsx:57 | removing tags never lengthens the text and introduces no character |
| ProjectCard.StripTagsTagFree | components/ProjectCard.tsx:57 | after removal no `>` follows any `<`: nothing the pattern matches is left |
| ProjectCard.StripTagsUnchanged | components/ProjectCard.tsx:57 | text that holds no tag is left as it is |
| ProjectCard.StripTagsIdempotent | components/ProjectCard.tsx:57 | removing tags twice is removing them once |
| ProjectCard.StripTagsKeepsText | components/ProjectCard.tsx:57 | text before the first `<` is kept |
| ProjectCard.StripTagsRemovesTag | components/ProjectCard.tsx:57 | a `<`, text without `>`, and a `>` are removed together |
| ProjectCard.ExcerptSpec | components/ProjectCard.tsx:57 | the excerpt is the first `min(150, n)` characters of the stripped text, then "...": at most 153 characters |
| ProjectCard.ShortExcerpt | components/ProjectCard.tsx:57 | a short description without tags is shown in full, then "..." |
| ProjectCard.ImageUrlLiteral | components/ProjectCard.tsx:34 | the cover image is the `imgix_url` with `?w=800&h=400&fit=crop&auto=format,compress` |
| ProjectCard.ProjectCardSpec | components/ProjectCard.tsx:17-59 | the badge shows exactly for `featured` true; the excerpt exactly for a non-empty description, and it is at most 153 characters ending in "..." |
| Dashboard.FeaturedProjects | app/page.tsx:19 | the filter keeps exactly the featured projects and never more than all of them |
| Dashboard.FeaturedMultiset | app/page.tsx:19 | each featured project is kept as often as it occurs; others are dropped |
| Dashboard.AllFeatured | app/page.tsx:19 | the featured count equals the total exactly when every project is featured |
| Dashboard.StatsOf | app/page.tsx:14-20 | featured projects never outnumber projects |
| Dashboard.Combined | app/page.tsx:7-12 | the statistics exist exactly when all four getters succeed; otherwise the error is one of the failing getters' errors |
| Dashboard.GetDashboardStats | app/page.tsx:6-21 | the statistics are those of the four getters; the project totals equal the size and featured count of what the backend returned, whatever the sort |
| Dashboard.FeaturedCountPermutation | app/page.tsx:19 | the featured count does not depend on order |
| Dashboard.MissingCollectionCountsZero | app/page.tsx:6-21 | a 404 on testimonials gives zero testimonials and leaves the other totals as the backend's sizes |
| Dashboard.OneFailureFailsAll | app/page.tsx:7-12 | whichever getter fails (throws anything but a 404) fails the dashboard with its own message, the first in list order when several fail; with no failure there are statistics |
| InjectConsoleCapture.InjectInserts | scripts/inject-console-capture.js:21-24 | the script line is inserted right before the first `</head>`; the rest, later `</head>`s included, is unchanged; the page grows by the line's length and then mentions the script |
| InjectConsoleCapture.MarkedUntouched | scripts/inject-console-capture.js:19 | a page that mentions the script is neither changed nor written |
| InjectConsoleCapture.NoHeadRewrittenUnchanged | scripts/inject-console-capture.js:21-26 | a page without `</head>` is written back unchanged |
| InjectConsoleCapture.AppliedMarker | scripts/inject-console-capture.js:19-24 | afterwards a page mentions the script exactly when it did already or had a `</head>` |
| InjectConsoleCapture.ApplyIdempotent | scripts/inject-console-capture.js:19-25 | running the step twice gives the same page as once |
| InjectConsoleCapture.InjectConsoleCapture | scripts/inject-console-capture.js:5-30 | without a build directory nothing changes; otherwise every listed page is transformed, other files are untouched, and the pages reported are exactly the listed ones that did not mention the script |

## Left out

- Network and configuration. The SDK client, its `find`/`props`/`depth` query and the
  environment-variable keys are left out. A query's outcome is a parameter.
- `updateObject`/`deleteObject`/`createObject`: each is one backend call whose outcome is a
  parameter. `console.error` is left out.
- Dates:
  - `new Date(...).getTime()` is the `parse` parameter. It yields an integer, so an invalid
    date's `NaN` is not modelled. With `NaN` the comparator answers `NaN` and the engine's
    order is then implementation-defined.
  - `date-fns` `format` is the `fmt` parameter.
- Dashboard.Combined: `Promise.all` runs the four getters concurrently and rejects with the
  first rejection to settle. The model runs them in list order. Its contract says only that
  the error is one of the failing getters' errors.
- Missing `metadata`: the model always has a `metadata` record, with every field optional.
  A record without `metadata` at all, which `metadata?.` tolerates, is not modelled.
- Numbers are unbounded integers. `years_experience` and statuses that are not integers
  are not modelled.
- Js.ParseNumberToString: `Js.NumberToString` always writes plain decimal digits. JavaScript's
  `String(n)` switches to exponent form from 1e21, and integers beyond 2^53 are not exact, so
  the round trip stands for JavaScript only below those bounds.
- Strings are sequences of characters, not UTF-16 code units. `substring(0, 150)` can
  therefore differ on text outside the Basic Multilingual Plane.
- Cosmic.HasStatusIff: `'status' in error` also sees inherited properties. The model knows
  only an object's own properties.
- SkillCard.YearsLabel: `{yearsExperience && ...}` renders the number `0` as text when years
  is 0. The model shows nothing for 0, which is what the card's intent is.
- SkillsPage.GroupByCategory: `Object.keys` lists integer-like keys first. The page uses
  only the key count, so the model keeps insertion order.
- Rendering is left out:
  - JSX structure, class names, icons and links;
  - `dangerouslySetInnerHTML`, which parses the excerpt as HTML (the excerpt string is
    modelled).
- The 48×48 testimonial photo and 64×64 company logo addresses are modelled with the same
  resizing query as the project image, but carry no lemma of their own.
- The project, experience and testimonial list pages are not part of this model. Their only
  logic is an empty-list branch and a count.
- File system and logging of the injection script:
  - `glob` is replaced by the list of pages.
  - The files are a map from path to content.
  - `path.join` and `console.log` are left out. The pages reported stand for the log lines.

## Findings

| source | as written | input that shows it | evidently intended | confidence | as-written member | corrected member |
|---|---|---|---|---|---|---|
| components/SkillCard.tsx:30-37 | the lookup `levels[level]` on an object literal also finds inherited members; `index < member` is then false for every index | proficiency key "toString" | one filled star for a key outside the table | low: needs a key outside the CMS select list; not executed | SkillCard.ToStringLevelFillsNoStar | SkillCard.RenderStarsCount |
| app/skills/page.tsx:10-17 | `acc[category]` on `{}` also finds inherited members, so no bucket is created and `.push` throws a TypeError, failing the page | category value "constructor" | a section-less bucket counted in the header, like any other unlisted label | low: needs a category value outside the CMS select list; not executed | SkillsPage.ConstructorCategoryThrows | SkillsPage.GroupByCategory |
