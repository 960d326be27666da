# Portfolio page: project filter, tag buttons and theme

A Dafny model of the logic in the single-page portfolio site `src/index.tsx`:

- **The project filter** (`filtered`). The search box text `q` is trimmed and lowercased into a term. A project is shown when two tests pass. The text test holds when the term is empty or occurs in the lowercased text `title summary tech…` (the fields joined by single spaces). The tag test holds when the selected tag is empty or equals one of the project's lowercased tech tags. Shown projects keep the order of the list.
- **The tag buttons** (`allTags`). Every project's tech tags are lowercased and flattened. `new Set` removes repeats, and `sort()` orders the rest in JavaScript's default string order.
- **The theme**. The `dark` flag starts out `true`. On mount, a non-empty `localStorage` entry `"theme"` sets it to whether that entry is `"dark"`. After every change of the flag, the page writes `dark ? "light" : "dark"` back to storage. The header button flips the flag.
- **The project list** (`PROJECTS`), written out as constants. The model proves what the page shows for it: the exact tag buttons, the projects for the `cad` button, and the projects for the queries `rover` and `zzz-no-match`.

The JavaScript library operations the filter uses are modelled on their own in `JsString` and `JsArray`:

- `toLowerCase`, `trim`, `includes` and `join` in `JsString`;
- `filter` in `JsArray`.

The default sort order, the sort and the de-duplication are in `TagOrder`.

The absence of a term from a long text is proved by the rules in `Absence`, and `TextFacts` applies them to each project's fields.

React's effects appear in `Theme.Page` as the state changes they make. Storage is a map, and `getItem` returns an `Option`.

## Model

| member | source | states |
|---|---|---|
| JsString.LowerChar | src/index.tsx:107 | one character of `toLowerCase`: the result is never upper case, an upper-case letter becomes the letter 32 code points further on, and any other character is unchanged |
| JsString.Lower | src/index.tsx:107 | `toLowerCase` keeps the length and lowercases each character in place |
| JsString.LowerIdempotent | src/index.tsx:142 | lowercasing an already lowercased string changes nothing |
| JsString.LowerAppend | src/index.tsx:144 | lowercasing a concatenation lowercases each part |
| JsString.LowerKeepsInfix | src/index.tsx:144 | a string occurring in a text still occurs in it after both are lowercased |
| JsString.Trim | src/index.tsx:142 | `trim` returns a slice of the input with only ECMAScript white space outside it; the slice neither starts nor ends with white space; it is empty exactly when the input is all white space |
| JsString.TrimIdempotent | src/index.tsx:142 | trimming twice is trimming once |
| JsString.IncludesFrom | src/index.tsx:145 | the left-to-right scan finds the term exactly when it occurs at some position at or after the start position |
| JsString.Includes | src/index.tsx:145 | `text.includes(term)` holds exactly when `term` occurs in `text` as a contiguous block |
| JsString.Join | src/index.tsx:144 | `join` of no parts is empty; otherwise its length is the parts' total length plus one separator fewer than there are parts |
| JsString.PartIsInfixOfJoin | src/index.tsx:144 | every field joined into the search text occurs in it |
| JsArray.Filter | src/index.tsx:143 | `filter` returns no more elements than it was given |
| JsArray.FilterMembers | src/index.tsx:143-148 | a value is in the result of `filter` exactly when it is in the input and accepted |
| JsArray.FilterCounts | src/index.tsx:143-148 | `filter` keeps every copy of an accepted value and none of a rejected one |
| JsArray.FilterIsOrderedSelection | src/index.tsx:143-148 | the result of `filter` is the input's subsequence at increasing positions, and those positions are exactly the accepted ones |
| JsArray.FilterAppend | src/index.tsx:143-148 | filtering a concatenation filters each part |
| JsArray.FilterIdempotent | src/index.tsx:143-148 | filtering twice with the same test is filtering once |
| TagOrder.Below | src/index.tsx:108 | in the default sort order a proper prefix sorts before the longer string, and no string sorts before one of its own prefixes |
| TagOrder.BelowIrreflexive | src/index.tsx:108 | no string sorts strictly before itself |
| TagOrder.BelowTransitive | src/index.tsx:108 | the default sort order is transitive |
| TagOrder.BelowTotal | src/index.tsx:108 | any two different strings are ordered one way or the other |
| TagOrder.Sort | src/index.tsx:108 | the sorted result is in order and is a permutation of the input |
| TagOrder.Dedup | src/index.tsx:107 | the de-duplicated result has no repeats, holds the same values as the input, and is no longer |
| TagOrder.DedupInFirstOccurrenceOrder | src/index.tsx:106-107 | the de-duplicated values appear in the order of their first occurrences in the input, as `Array.from(new Set(...))` lists them |
| TagOrder.StrictlySortedUnique | src/index.tsx:106-108 | two strictly sorted lists with the same members are equal |
| ProjectFilter.SearchText | src/index.tsx:144 | the search text is lowercase and contains the lowercased title, summary and each tech tag |
| ProjectFilter.Term | src/index.tsx:142 | the term is lowercase, no longer than the query, and empty exactly when the query is blank |
| ProjectFilter.LowerAll | src/index.tsx:107 | `map((t) => t.toLowerCase())` keeps the length and lowercases each tag in place |
| ProjectFilter.LowerTags | src/index.tsx:146 | a project's tags compared with the selected tag are its tech tags, each lowercased, in order |
| ProjectFilter.MatchesText | src/index.tsx:145 | the text test passes exactly when the term is empty or occurs in the project's search text |
| ProjectFilter.MatchesTagMeaning | src/index.tsx:146 | the tag test passes exactly when no tag is selected or some tech tag of the project, lowercased, is the selected one |
| ProjectFilter.KeepsMeaning | src/index.tsx:145-147 | the callback keeps a project exactly when the text test and the tag test both pass |
| ProjectFilter.Filtered | src/index.tsx:141-149 | a project is shown exactly when it is in the list, the query is blank or its term occurs in the project's search text, and the tag is empty or one of its lowercased tags |
| ProjectFilter.FilteredIsOrderedSelection | src/index.tsx:141-149 | the shown projects are the list's subsequence at exactly the positions whose project passes both tests |
| ProjectFilter.FilteredCounts | src/index.tsx:141-149 | a passing project is shown as often as it is listed, a failing one never |
| ProjectFilter.FilteredIdempotent | src/index.tsx:141-149 | filtering the shown projects again with the same query and tag changes nothing |
| ProjectFilter.BlankQueryShowsAll | src/index.tsx:142-147 | a blank query with no tag selected shows every project in order |
| ProjectFilter.FlatTags | src/index.tsx:107 | a string is among the flattened lowercased tags exactly when some project carries it |
| ProjectFilter.AllTags | src/index.tsx:106-108 | the tag buttons are strictly sorted and hold exactly the lowercased tags of the projects |
| ProjectFilter.AllTagsUnique | src/index.tsx:106-108 | any strictly sorted list holding exactly the lowercased tags is the tag-button list |
| ProjectFilter.EveryTagButtonShowsAProject | src/index.tsx:407-410 | pressing any tag button with an empty search box shows at least one project |
| Absence.CleanJoin | src/index.tsx:144 | fields whose lowercased text neither contains a term nor ends in a proper prefix of it, joined by such a separator, give a text whose lowercased form has the same property |
| Absence.CleanExcludes | src/index.tsx:145 | a text clean for `t` contains no term that contains `t` |
| Absence.AvoidsClean | src/index.tsx:145 | a text without the first letter of `t`, in either case, is clean for `t` once lowercased |
| Absence.WindowClean | src/index.tsx:145 | a text in which no three neighbouring characters spell the three-letter `t`, in any case, is clean for `t` |
| Projects.ProjectsWellTagged | src/index.tsx:28-103 | the page lists six projects, each with at least one tech tag and no tag twice, so the tag chips keyed by tag (src/index.tsx:459) have distinct keys |
| Scenarios.NssTags | src/index.tsx:34 | the NSS settlement entry's lowercased tags are `blender`, `cad`, `space systems` |
| Scenarios.RoverexTags | src/index.tsx:47 | the RoverEx entry's lowercased tags are `arduino`, `raspberry pi`, `c`, `python`, `react` |
| Scenarios.MoonCampTags | src/index.tsx:60 | the Moon Camp entry's lowercased tags are `blender`, `fusion 360`, `cad` |
| Scenarios.FestivalTags | src/index.tsx:72 | the science festival entry's lowercased tags are `stem outreach`, `communication` |
| Scenarios.MovTags | src/index.tsx:84 | the MOV entry's lowercased tags are `mentoring`, `education` |
| Scenarios.KaiaTags | src/index.tsx:96 | the KAIA entry's lowercased tag is `leadership` |
| Scenarios.TagButtonsInOrder | src/index.tsx:108 | the fourteen expected button labels are in strict default sort order |
| Scenarios.AllTagsOfProjects | src/index.tsx:28-108 | the page's tag buttons are exactly `arduino, blender, c, cad, communication, education, fusion 360, leadership, mentoring, python, raspberry pi, react, space systems, stem outreach`, in that order |
| Scenarios.NssMatchesNoProbe | src/index.tsx:29-41 | no search term containing `ver` or `zzz` matches the NSS settlement entry |
| Scenarios.RoverexMatchesNoProbe | src/index.tsx:42-54 | no search term containing `zzz` matches the RoverEx entry |
| Scenarios.MoonCampMatchesNoProbe | src/index.tsx:55-66 | no search term containing `ver` or `zzz` matches the Moon Camp entry |
| Scenarios.FestivalMatchesNoProbe | src/index.tsx:67-78 | no search term containing `ver` or `zzz` matches the science festival entry |
| Scenarios.MovMatchesNoProbe | src/index.tsx:79-90 | no search term containing `ver` or `zzz` matches the MOV entry |
| Scenarios.KaiaMatchesNoProbe | src/index.tsx:91-102 | no search term containing `ver` or `zzz` matches the KAIA entry |
| Scenarios.RoverexMentionsRover | src/index.tsx:43 | the RoverEx search text contains `rover` |
| Scenarios.TermOfRover | src/index.tsx:142 | the query `rover` gives the term `rover` |
| Scenarios.TermOfNoMatch | src/index.tsx:142 | the query `zzz-no-match` gives the term `zzz-no-match` |
| Scenarios.CadButtonShows | src/index.tsx:141-149 | with an empty search box, the `cad` button shows exactly the NSS settlement and Moon Camp entries, in that order |
| Scenarios.RoverQueryShows | src/index.tsx:141-149 | the query `rover` with no tag selected shows exactly the RoverEx entry |
| Scenarios.NoMatchQueryShowsNothing | src/index.tsx:141-149 | the query `zzz-no-match` shows no project |
| Theme.GetItem | src/index.tsx:132 | `getItem` returns nothing exactly when the key is absent, and the stored string otherwise |
| Theme.StoredValue | src/index.tsx:138 | the persist effect writes a non-empty value that is `"dark"` exactly when the theme is light and `"light"` exactly when it is dark |
| Theme.Restored | src/index.tsx:132-133 | an absent or empty stored value keeps the flag; any other sets it to whether the value is `"dark"` |
| Theme.Page.constructor | src/index.tsx:127 | a new page starts dark, over the storage the browser already holds |
| Theme.Page.Persisted | src/index.tsx:132-138 | when storage holds what the persist effect wrote, the next load effect restores the opposite of the current flag |
| Theme.Page.Mount | src/index.tsx:131-139 | after mounting, the flag is what the load effect restores, and storage is the old storage with the theme entry set to what the persist effect writes for the new flag |
| Theme.Page.Toggle | src/index.tsx:184 | the button flips the flag and sets the theme entry to what the persist effect writes for the new flag, and nothing else changes |
| Theme.MountWithoutPreference | src/index.tsx:127-134 | with no theme entry, or an empty one, the page mounts dark |
| Theme.ToggleTwice | src/index.tsx:136-139 | pressing the button twice restores both the flag and the storage |
| Theme.ReloadTwice | src/index.tsx:131-139 | whatever the storage, the next reload shows the opposite of the theme a page mounted with |
| Theme.ReadsBackInverted | src/index.tsx:132-138 | reading back the value written for a theme gives the other theme |
| Theme.ToggleThenReload | src/index.tsx:131-139 | pressing the button and then reloading shows the theme from before the press |
| Theme.IntendedStoredValue | src/index.tsx:138 | the corrected value is non-empty and is `"dark"` exactly when the theme is dark |
| Theme.IntendedReadsBack | src/index.tsx:132-133 | reading back the corrected value gives the same theme |

## Left out

- Rendering is not modelled: the JSX components, framer-motion animations, Tailwind classes and icons. Their only inputs are the shown projects and the tag buttons, which are modelled.
- The document-level `classList.toggle("dark", dark)` (src/index.tsx:137) is not modelled. It changes the DOM, not the state.
- React's scheduling is taken as: the load effect, then the persist effect for the first render, then one more render and persist effect when the flag changed.
- The extra effect run that `React.StrictMode` adds in development builds is not modelled.
- The `createRoot` bootstrap (src/index.tsx:529-533) is not modelled.
- The clock read `new Date()` in the footer (src/index.tsx:523) is not modelled.
- `src/DocViewer.tsx` is not part of this model.
- `(p.tech || [])` is modelled as `p.tech`: every project has a tech list.
- The `year`, `links` and `image` fields are carried in the data but not used by the filter. The `live` links are commented out in the source and are absent here too.
- Storage errors (a disabled or full `localStorage`) are not modelled. Storage is a map that always accepts writes.
- The search box and the tag buttons are not modelled as input events. Their values are the parameters `q` and `tag` of `ProjectFilter.Filtered`.
- JsString.LowerChar: lowercases only ASCII `A`-`Z` and Latin-1 `À`-`Þ` (except `×`). Other scripts are left unchanged, unlike JavaScript's full Unicode mapping. All text in the project list is ASCII or characters that lowercase to themselves.
- JsString.Lower: works on code points, while JavaScript strings are UTF-16 code units. The two agree on the project list, which has no characters outside the Basic Multilingual Plane.
- TagOrder.Below: compares code points, while `sort()` compares UTF-16 code units. The two agree for tags inside the Basic Multilingual Plane, which all tags are.

## Findings

| source | as written | input that shows it | evidently intended | confidence | as-written member | corrected member |
|---|---|---|---|---|---|---|
| src/index.tsx:138 | the persist effect stores `dark ? "light" : "dark"`, the name of the other theme, and the load effect reads it back as the theme | mount a page over empty storage: it is dark and stores `"light"`; the next load reads `"light"` and shows the light theme | store the current theme (`dark ? "dark" : "light"`) so the chosen theme survives a reload | high that the preference flips on every reload; medium that this was unintended; not executed | Theme.ReloadTwice | Theme.IntendedReadsBack |

`Theme.Page` keeps the code's behaviour, because it is the model of the page as written. `Theme.IntendedStoredValue` and `Theme.IntendedReadsBack` give the corrected persistence and prove the round trip for it. The toggle-twice property holds for either value.
