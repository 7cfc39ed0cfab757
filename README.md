# Résumé site list-presentation model

A Dafny model of the logic behind the schwannden/resume website's list sections. The site
renders static résumé content. Three components and one page pass the shipped lists through
the same pipeline:

1. group the entries by their `type` field (a `reduce` that pushes each entry into `acc[type]`);
2. choose the categories to show. In highlight mode this is a fixed priority list filtered to the
   categories present. In full mode it is every present key, sorted by a comparator. Known
   categories come in priority order. Unknown ones come after them, in lexicographic order;
3. cut each category to a capped prefix in highlight mode, show it whole in full mode, and show
   "And N more" when entries are left over.

Beside the pipeline the model covers:

- the talk filter of the speaking section;
- the feature preview of contribution cards;
- the separator logic of publication entries;
- the derived list of additional GitHub contributions;
- the build-time check of required configuration keys;
- the font-size option lookup;
- the font-size preference hook, which holds a state value and drives local storage and the
  document's class list.

Modules, one per source file, plus shared ones:

- `Wrappers`: the optional value.
- `Display`: modes, badge variants, JavaScript truthiness of optional strings, and plural nouns.
- `Listing`: the shared pipeline.
  - `GroupByType` is the imperative `reduce`. It is proved equal to the specification functions
    `Kinds` (the keys in first-seen order) and `Grouped` (each key mapped to its entries).
  - The full-mode sort is computed by insertion (`SortKeys`). It is proved to give a strictly
    sorted permutation. `SortedUnique` shows any strictly sorted permutation is the same list, so
    the result does not depend on the JavaScript engine's sort algorithm.
- `ContributionList`, `PublicationList`, `SpeakingHighlights`, `ContributionsPage`,
  `SpeakingPage`: the components, each with its own constants (priority list, caps, labels,
  badge variants).
- `ResumeData`: the entity records and the shipped contributions, publications, talks and awards.
  It also holds `additionalGitHubContributions`, with `String.prototype.replace` for a string
  pattern (first occurrence only).
- `SiteConfig`: `validateConfig`. A configuration is a JSON-like `Value`. A key is split on "." and
  walked with optional chaining, so a nullish value or an absent own property gives `undefined`.
- `FontSizeUtils`, `FontSizeHook`: the font-size options, and the hook as a class over a
  `LocalStorage` and a `ClassList` object.
- `Scenarios`: facts about the shipped data.

## Notes on the code

- The contribution categories are `tool`, `community` and `github`.
- The shipped contributions group as tool 1, community 3 and github 5.
- The community cap is 2, although the comment at `contribution-list.tsx:52` says "top 1".
- The "And N more speaking engagements" count is `talks.length - 4` over the unfiltered talk list.
  It is not the number of talks hidden. `MoreCountVersusHidden` states exactly when the two agree.
  With the shipped data the line reads "And 2 more" while three talks are hidden.

Category fields are plain strings, named `kind` because `type` is a Dafny keyword. This keeps
the `default` branches of the source's switches reachable. `localeCompare` is modelled as plain
lexicographic order on characters.

## Model

| member | source | states |
|---|---|---|
| `Listing.GroupByType` | src/components/sections/contribution-list.tsx:13-22 | The reduce's keys are the categories in first-seen order. Its map sends each key to exactly that category's entries, in input order. |
| `Listing.GroupsPartition` | src/components/sections/contribution-list.tsx:13-22 | The groups, concatenated in key order, are a permutation of the input: no entry is dropped or duplicated. |
| `Listing.FilterCount` | src/components/sections/contribution-list.tsx:15-18 | An entry occurs in the group of its own category as often as in the input, and in no other group. |
| `Listing.FilterAppend` | src/components/sections/contribution-list.tsx:18 | Grouping is stable: the group of a concatenation is the concatenation of the groups. |
| `Listing.KindsPresent` | src/components/sections/contribution-list.tsx:15-18 | A category is a key of the grouping iff some entry has that category. |
| `Listing.GroupsNonEmpty` | src/components/sections/contribution-list.tsx:15-18 | No key of the grouping holds an empty group. |
| `Listing.KindsDistinct` | src/components/sections/contribution-list.tsx:15-17 | Each category is a key at most once. |
| `Listing.KindOfEntryPresent` | src/components/sections/contribution-list.tsx:15-18 | Every entry's category is a key, and the entry is in that key's group. |
| `Listing.GroupedSnoc` | src/components/sections/contribution-list.tsx:15-18 | One more entry extends its category's group at the end, creating the group if it was absent; other groups are unchanged. |
| `Listing.PushStep` | src/components/sections/contribution-list.tsx:15-19 | One reduce step on the i-th entry: the new grouping and the new key order. |
| `Listing.Take` | src/components/sections/contribution-list.tsx:51 | `slice(0, n)` gives a prefix of length min(n, length). |
| `Listing.ShowItems` | src/components/sections/contribution-list.tsx:46-57 | `getDisplayItems`: in highlight mode a prefix of length min(cap, total); in full mode the whole group. |
| `Listing.MakePanel` | src/components/sections/contribution-list.tsx:94-96 | The shown items are a prefix. shown + remaining = total and remaining ≥ 0. Full mode shows everything with remaining 0. "And N more" appears iff the mode is highlight and remaining > 0. |
| `Listing.IndexOf` | src/components/sections/contribution-list.tsx:65-66 | `indexOf` returns -1 iff the value is absent, else its first position. |
| `Listing.HighlightTypesMember` | src/components/sections/contribution-list.tsx:59-63 | A category is shown in highlight mode iff it is in the priority list, not excluded, and present. |
| `Listing.HighlightTypesInOrder` | src/components/sections/contribution-list.tsx:59-63 | Highlight categories appear in strictly increasing priority-list position. |
| `Listing.LexCompare` | src/components/sections/contribution-list.tsx:67 | `localeCompare` as lexicographic order yields -1, 0 or 1, and 0 iff the strings are equal. |
| `Listing.LexAntisymmetric` | src/components/sections/contribution-list.tsx:67 | Swapping the arguments negates the comparison. |
| `Listing.LexTransitive` | src/components/sections/contribution-list.tsx:67 | Lexicographic "less than" is transitive. |
| `Listing.CompareStrictTotal` | src/components/sections/contribution-list.tsx:64-71 | The full-mode comparator is 0 only for equal keys, and it is antisymmetric. |
| `Listing.BeforeTransitive` | src/components/sections/contribution-list.tsx:64-71 | The comparator's "before" relation is transitive, so the sort is well defined. |
| `Listing.InsertPermutes` | src/components/sections/contribution-list.tsx:64 | Insertion adds exactly the inserted key. |
| `Listing.InsertSorted` | src/components/sections/contribution-list.tsx:64-71 | Inserting a new key into a strictly sorted list keeps it strictly sorted. |
| `Listing.SortKeysSorted` | src/components/sections/contribution-list.tsx:64-71 | Sorting the distinct keys yields a strictly sorted permutation of them. |
| `Listing.SortedUnique` | src/components/sections/contribution-list.tsx:64-71 | Two strictly sorted permutations of the same keys are equal, so every correct sort gives one order. |
| `Listing.SortedRanks` | src/components/sections/contribution-list.tsx:64-71 | In a sorted category list, known categories follow the priority list, unknown ones come after all known ones, and unknown ones are in lexicographic order. |
| `Listing.FullTypes` | src/components/sections/contribution-list.tsx:64-71 | Full-mode categories are a strictly sorted permutation of the grouping's keys. |
| `Listing.PanelGroups` | src/components/sections/contribution-list.tsx:93-96 | Each rendered panel shows a key of the grouping, with that key's whole, non-empty group. |
| `ContributionList.TypeVariants` | src/components/sections/contribution-list.tsx:32-43 | tool→info, community→success; github and every other type→secondary. |
| `ContributionList.HighlightCategories` | src/components/sections/contribution-list.tsx:59-63 | Highlight mode lists "tool" and then "community", each only when present, and never github. |
| `ContributionList.FullCategories` | src/components/sections/contribution-list.tsx:64-71 | Full-mode categories are a permutation of the keys, ordered tool < community < github, with unknown types after all known ones in lexicographic order. |
| `ContributionList.SectionOfPanel` | src/components/sections/contribution-list.tsx:94-109 | Badge: the group size, "project" iff exactly one. Cards: a prefix of the group, all of it in full mode, min(2, n) in highlight (min(3, n) for github). "And N more" iff highlight and entries remain, with N the number left. |
| `ContributionList.SectionContents` | src/components/sections/contribution-list.tsx:93-97 | Section i is built from the whole, non-empty group of the i-th category shown. |
| `ContributionList.FeaturePreview` | src/components/sections/contribution-list.tsx:217-258 | Nothing renders for an absent or empty list. Full mode shows all features. Highlight mode shows the first min(2, n), plus a "+(n−2) more" count iff n > 2. Shown + count = n. |
| `ContributionList.CardFeatures` | src/components/sections/contribution-list.tsx:113-215 | Github cards show no features; other cards preview them by mode; the description shows iff truthy. |
| `ContributionList.MoreLabels` | src/components/sections/contribution-list.tsx:267-273 | The "And N more" noun is the lower-cased label; for an unknown type it is the type itself. |
| `ContributionList.Render` | src/components/sections/contribution-list.tsx:283-334 | One section per category shown. The view-all link appears iff highlight. The additional GitHub section appears iff full, and it is `additionalGitHubContributions`. |
| `PublicationList.TypeVariants` | src/components/sections/publication-list.tsx:33-50 | blog→info, paper→success, thesis→warning, article→outline, book→destructive; certificate and any other type→secondary. |
| `PublicationList.HighlightCategories` | src/components/sections/publication-list.tsx:65-67 | Highlight categories are the present ones among blog, paper, thesis, certificate, in that order. |
| `PublicationList.HighlightNeverUnlisted` | src/components/sections/publication-list.tsx:23 | A category outside the priority list (book, article, …) is never shown in highlight mode. |
| `PublicationList.FullCategories` | src/components/sections/publication-list.tsx:68-75 | Full-mode categories are a permutation of the keys, in priority order, then unknown categories in lexicographic order. |
| `PublicationList.Ranks` | src/components/sections/publication-list.tsx:23 | blog < paper < thesis < certificate in the priority list. |
| `PublicationList.SectionOfPanel` | src/components/sections/publication-list.tsx:53-63 | Badge "item" iff one entry. Cards: a prefix, all in full mode, min(6, n) for blog, min(3, n) for certificate and min(2, n) otherwise in highlight. "And N more" iff highlight and entries remain. |
| `PublicationList.SectionContents` | src/components/sections/publication-list.tsx:96-98 | Section i is built from the whole, non-empty group of the i-th category shown. |
| `PublicationList.MetaLineJoinsFields` | src/components/sections/publication-list.tsx:136-153 | The venue/date/views line is the present fields joined by "•": no leading, trailing or doubled separator. |
| `PublicationList.IntersperseDots` | src/components/sections/publication-list.tsx:136-153 | Joining separator-free pieces puts a separator only strictly between two of them. |
| `PublicationList.MetaDots` | src/components/sections/publication-list.tsx:137-152 | "•" precedes the date iff there is a venue, and precedes the views iff there is a venue or a date. |
| `PublicationList.Render` | src/components/sections/publication-list.tsx:81-96 | One section per category shown; the view-all link appears iff highlight. |
| `SpeakingHighlights.Featured` | src/components/sections/speaking-highlights.tsx:16-21 | The filter keeps only keynote, workshop and invited talks. |
| `SpeakingHighlights.FeaturedAppend` | src/components/sections/speaking-highlights.tsx:16-21 | The filter distributes over concatenation, so kept talks keep their order. |
| `SpeakingHighlights.FeaturedCount` | src/components/sections/speaking-highlights.tsx:16-21 | A featured talk is kept as often as it occurs; any other talk is dropped. |
| `SpeakingHighlights.DisplayTalks` | src/components/sections/speaking-highlights.tsx:13-23 | Full mode shows the talks unchanged. Highlight mode shows a prefix of the featured talks of length min(4, #featured). |
| `SpeakingHighlights.HighlightOnlyFeatured` | src/components/sections/speaking-highlights.tsx:16-22 | Every talk shown in highlight mode is featured, never internal or briefing, and comes from the input. |
| `SpeakingHighlights.TalkTypeVariants` | src/components/sections/speaking-highlights.tsx:25-40 | keynote→destructive, invited→info, workshop→warning, briefing→outline; internal and anything else→secondary. |
| `SpeakingHighlights.MaterialLinks` | src/components/sections/speaking-highlights.tsx:95-131 | The materials block renders iff `materials` is set. |
| `SpeakingHighlights.MaterialLinksOrder` | src/components/sections/speaking-highlights.tsx:97-129 | Links come in the order slides, video, coverage, each present iff its field is truthy. |
| `SpeakingHighlights.MoreEngagements` | src/components/sections/speaking-highlights.tsx:137-140 | The line shows iff highlight mode and more than 4 talks in all; N = total − 4 > 0. |
| `SpeakingHighlights.MoreCountVersusHidden` | src/components/sections/speaking-highlights.tsx:137-140 | N never exceeds the number of hidden talks, and equals it iff at least 4 talks are featured. |
| `SpeakingHighlights.Render` | src/components/sections/speaking-highlights.tsx:45-49 | One card per displayed talk, in order; the "more" line as above. |
| `ContributionsPage.PageOrder` | src/app/contributions/page.tsx:124-126 | Sections come in the order tool, community, github, each only when its group exists. |
| `ContributionsPage.SectionIsWholeGroup` | src/app/contributions/page.tsx:124-141 | Each section lists its whole, non-empty group in input order, untruncated. |
| `ContributionsPage.MakeSection` | src/app/contributions/page.tsx:128-141 | One card per entry in order; the badge counts the group and reads "project" iff it has one entry. |
| `ContributionsPage.Features` | src/app/contributions/page.tsx:183-201 | All features render iff the list is present and non-empty. |
| `ContributionsPage.PageTypesDistinct` | src/app/contributions/page.tsx:40 | No category is rendered twice. |
| `ContributionsPage.RenderedEntries` | src/app/contributions/page.tsx:124-125 | The page lists each tool, community or github contribution as often as it occurs, and never one of another type. |
| `ContributionsPage.PageCards` | src/app/contributions/page.tsx:124-141 | The cards, section after section, show exactly the concatenated groups of the page's categories. |
| `SpeakingPage.LevelVariants` | src/app/speaking/page.tsx:93-103 | national→destructive, university→info, regional→warning, any other level→secondary. |
| `SpeakingPage.AwardCards` | src/app/speaking/page.tsx:92-125 | One card per award in order, with the level's variant; the year shows iff it is truthy. |
| `SpeakingPage.CardsCoverAwards` | src/app/speaking/page.tsx:92 | Reading the awards back off the cards gives the award list. |
| `ResumeData.FindFrom` | src/data/resume.ts:577 | The first occurrence of the pattern at or after a position, or none. |
| `ResumeData.ReplaceFirst` | src/data/resume.ts:577 | `replace` with a string pattern leaves a string without the pattern unchanged, and cuts a leading pattern off. |
| `ResumeData.ReplaceFirstAt` | src/data/resume.ts:577 | Only the first occurrence is replaced. |
| `ResumeData.RemovePrefix` | src/data/resume.ts:577 | For a URL starting with the prefix, prefix + displayName = url. |
| `ResumeData.AdditionalGitHubContributions` | src/data/resume.ts:571-578 | One link per contribution of type github, in order, keeping name and url, with displayName = url with the first "https://github.com/" removed. |
| `ResumeData.GitHubLinksFollowGroup` | src/data/resume.ts:571-577 | The derived list follows the grouping's github group. For a github.com URL the display name is the rest of the URL. |
| `SiteConfig.Find` | resume.config.ts:265-266 | An object without the property yields undefined. |
| `SiteConfig.FindFirst` | resume.config.ts:265-266 | A property's value is that of its first field. |
| `SiteConfig.Get` | resume.config.ts:265-266 | `obj?.[k]` on undefined or null yields undefined instead of an error; on an object it yields the own property's value. |
| `SiteConfig.Split` | resume.config.ts:262-263 | `split(".")` yields at least one segment. |
| `SiteConfig.SplitJoin` | resume.config.ts:262-263 | Joining the segments back with "." gives the key. |
| `SiteConfig.SplitPlain` | resume.config.ts:262-263 | A key without "." is one segment. |
| `SiteConfig.SplitAt` | resume.config.ts:262-263 | A key splits at its first "." into the head segment and the rest's segments. |
| `SiteConfig.WalkUndefined` | resume.config.ts:264-267 | Once the walk reaches undefined it stays undefined: no step raises. |
| `SiteConfig.WalkAppend` | resume.config.ts:264-268 | Walking a path is walking its parts one after another. |
| `SiteConfig.AbsentHeadIsMissing` | resume.config.ts:264-271 | A dotted key whose first segment is absent is reported missing. |
| `SiteConfig.MissingMember` | resume.config.ts:261-272 | A key is reported iff it is required and its walked value is falsy. |
| `SiteConfig.MissingAppend` | resume.config.ts:261-272 | Reports keep the order of the required list. |
| `SiteConfig.MissingCount` | resume.config.ts:261-272 | A missing key is reported as often as it is required, so each key once when the list has no repeats. |
| `SiteConfig.CollectMissing` | resume.config.ts:259-272 | The `forEach` loop collects exactly `Missing`. |
| `SiteConfig.ValidateConfig` | resume.config.ts:256-283 | The result is true iff the missing list is empty. |
| `SiteConfig.NoneMissing` | resume.config.ts:269-282 | Nothing is missing iff every required key walks to a truthy value. |
| `SiteConfig.ShippedConfigValid` | resume.config.ts:15-46 | The shipped configuration passes validation, whatever the analytics id. |
| `SiteConfig.ShippedEmail` | resume.config.ts:40-41 | "social.email" walks to the shipped e-mail address. |
| `SiteConfig.EmptyFieldIsMissing` | resume.config.ts:45 | An empty optional field such as "social.youtube" would be reported missing. |
| `FontSizeUtils.FindConfig` | src/lib/font-size-utils.ts:38 | `find` returns the first configuration with that name, or none when no name matches. |
| `FontSizeUtils.ConfigOrFirst` | src/lib/font-size-utils.ts:37-39 | The first matching configuration; `configs[0]` when none matches. |
| `FontSizeUtils.GetFontSizeConfig` | src/lib/font-size-utils.ts:36-40 | The configuration returned has the requested name and is one of the shipped ones. |
| `FontSizeUtils.NeverFallsBack` | src/lib/font-size-utils.ts:12-40 | Every font size has a configuration, so the fallback is never taken. |
| `FontSizeUtils.Labels` | src/lib/font-size-utils.ts:43-45 | Labels are "Normal", "Large" and "Extra Large", distinct per size. |
| `FontSizeUtils.ConfigsOrdered` | src/lib/font-size-utils.ts:12-34 | Three configurations with distinct names (normal, large, extra-large, in that order) and increasing multipliers. |
| `FontSizeHook.Parse` | src/hooks/use-font-size.ts:14-17 | A stored value is accepted only when it is one of the three names. |
| `FontSizeHook.ParseName` | src/hooks/use-font-size.ts:14-17 | Each of the three names is accepted as its own size. |
| `FontSizeHook.ClassesOfSizes` | src/hooks/use-font-size.ts:20-25 | Each size has its own class, and it is one of the three removed classes. |
| `FontSizeHook.AddToken` | src/hooks/use-font-size.ts:25 | `classList.add` keeps the existing classes and adds the token once. |
| `FontSizeHook.WithoutMember` | src/hooks/use-font-size.ts:20-24 | After `remove`, a class is present iff it was present and is not one of the removed ones. |
| `FontSizeHook.WithoutCount` | src/hooks/use-font-size.ts:20-24 | `remove` drops every occurrence of the removed classes and keeps every other class. |
| `FontSizeHook.ApplyFontClassExactlyOne` | src/hooks/use-font-size.ts:41-46 | After the swap exactly one font-size class is present, once, and it is the new size's. Other classes are unchanged. |
| `FontSizeHook.ApplyFontClassAppends` | src/hooks/use-font-size.ts:41-46 | The new class goes at the end of the remaining classes. |
| `FontSizeHook.ApplyFontClassKeepsOthers` | src/hooks/use-font-size.ts:41-46 | Classes other than the font-size classes are unchanged, in order. |
| `FontSizeHook.ApplyFontClassLastWins` | src/hooks/use-font-size.ts:33-47 | Two updates in a row leave the classes as the second update alone would. |
| `FontSizeHook.ClassList.Add` | src/hooks/use-font-size.ts:25 | The class list becomes `AddToken` of the old one. |
| `FontSizeHook.ClassList.Remove` | src/hooks/use-font-size.ts:20-24 | The class list becomes the old one without the removed classes. |
| `FontSizeHook.LocalStorage.GetItem` | src/hooks/use-font-size.ts:13 | Returns the stored value of the key, or none when it is absent. |
| `FontSizeHook.LocalStorage.SetItem` | src/hooks/use-font-size.ts:38 | The key is bound to the value; every other key is unchanged. |
| `FontSizeHook.FontSizeState.constructor` | src/hooks/use-font-size.ts:8 | Before the mount effect the size is "normal". |
| `FontSizeHook.FontSizeState.Mount` | src/hooks/use-font-size.ts:10-31 | Storage is not written. A valid stored value is adopted and its class swapped in. Otherwise the state is unchanged and only "font-size-normal" is added. |
| `FontSizeHook.FontSizeState.Update` | src/hooks/use-font-size.ts:33-48 | The state becomes the size, storage binds "fontSize" to its name, and the class list gets the size's class swapped in. |
| `Scenarios.ShippedContributionGroups` | src/data/resume.ts:456-533 | The shipped contributions group, in first-seen order, into tool: 1, community: 3, github: 5. |
| `Scenarios.ShippedPublicationKeys` | src/data/resume.ts:265-372 | The shipped publication categories are first seen as certificate, paper, thesis, book, blog. |
| `Scenarios.ShippedPublicationGroups` | src/data/resume.ts:265-372 | The shipped publications group into certificate: 3, paper: 1, thesis: 1, book: 2, blog: 9. |
| `Scenarios.ShippedPublicationHighlightTypes` | src/components/sections/publication-list.tsx:65-67 | With the shipped data, highlight mode shows blog, paper, thesis, certificate (no books). |
| `Scenarios.ShippedPublicationFullTypes` | src/components/sections/publication-list.tsx:68-75 | With the shipped data, full mode shows blog, paper, thesis, certificate, book. |
| `Scenarios.ShippedContributionHighlight` | src/components/sections/contribution-list.tsx:59-96 | Highlight mode shows the one tool, then 2 of the 3 community projects with "And 1 more community projects". |
| `Scenarios.ShippedContributionFullTypes` | src/components/sections/contribution-list.tsx:64-71 | With the shipped data, full mode shows tool, community, github. |
| `Scenarios.ShippedContributionPage` | src/app/contributions/page.tsx:124-126 | The contributions page has sections tool, community, github. |
| `Scenarios.ShippedTalkKinds` | src/data/resume.ts:374-441 | Six talks, of types workshop, invited, briefing, keynote, internal, internal. |
| `Scenarios.ShippedFeaturedTalks` | src/components/sections/speaking-highlights.tsx:13-22 | Exactly three shipped talks are featured: the workshop, the invited talk and the keynote, in that order. |
| `Scenarios.ShippedSpeakingHighlight` | src/components/sections/speaking-highlights.tsx:137-140 | Highlight mode shows 3 talks and says "And 2 more" while 3 talks are hidden. |
| `Scenarios.ShippedGitHubGroup` | src/data/resume.ts:571-572 | The github group of the shipped contributions is their last five entries. |
| `Scenarios.ShippedGitHubLinks` | src/data/resume.ts:571-578 | The derived list has five links, keeping the name and url of those five contributions. |

## Left out

- JSX markup, CSS class strings, icons, border-colour cycling and the literal text of headings
  and descriptions. Only the data that feeds the markup is modelled.
- Talk dates, venues and audiences, and award organisations, are carried along as fields but
  have no logic.
- JavaScript object-key quirks of the grouping accumulator `{}`: a category named like an
  inherited property (`constructor`, `__proto__`) or an integer-like key (which `Object.keys`
  lists first). Categories are modelled as ordinary map keys in first-seen order. Only full mode
  depends on key order, and it sorts.
- `localeCompare`'s locale-sensitive collation is modelled as plain code-point lexicographic order.
- Font-size `multiplier` values are floating point in the source and `real` here. Only their order
  is stated.
- `SiteConfig.Get`: property access is modelled on object literals' own properties only. In
  JavaScript `?.[k]` also reaches string and array properties (`"abc"?.["length"]` is 3) and
  inherited ones (`({})?.["toString"]` is a function); the model gives `undefined` there, so a
  key such as `"name.length"` would be reported missing by the model but not by the source. No
  segment of the required keys ("name", "title", "url", "social", "email") is such a property, so
  `ValidateConfig` on the shipped keys is exact. `Find` returns the first of duplicate fields while
  JavaScript keeps the last; TypeScript rejects duplicate keys in object literals, so no
  configuration has them.
- `ResumeData.ReplaceFirst`: JavaScript replacement patterns (`$&`, `$1`, `$$`) in the replacement
  string are not interpreted; the model covers replacement strings without `$`, which includes the
  empty string the source passes.
- `SiteConfig.ShippedConfigValid`: the long `description` text and the `seo`, `navigation` and
  `structuredData` blocks of the shipped configuration are not transcribed. Validation reads none
  of them.
- The `NODE_ENV` gate and the `console.warn` call of `validateConfig`, and `process.env` reads
  (the analytics id is a parameter).
- React's hook scheduling, hydration, `useState` semantics and the `typeof window` guard. The hook
  is a class whose methods run the effect and the update directly.
- `FontSizeHook.ClassList.Add`: a DOMTokenList is an ordered set. The model keeps a sequence and
  adds a token only when it is absent, which agrees with a set whenever the list starts without
  duplicates.
- The page shells (home page, layout, not-found page, header, mobile navigation), the
  accessibility dropdown, analytics, the résumé redirect, sitemap, robots and build/lint
  configuration contain no list logic and are not part of this model.
- Experience, skills, projects, education and volunteer records are rendered without grouping or
  truncation, and are not part of this model.
