# Portfolio page: search filters and theme preference

This project models the two pieces of behaviour in the portfolio page
`modern_data_analyst_ai_ml_portfolio_react_tailwind_framer_motion.jsx`:

- **The search boxes.** The project list is filtered by a query matched,
  case-insensitively, against each project's title and tags. The
  certification list is filtered by a query matched, case-insensitively,
  against title and organisation, and matched as typed against the decimal
  rendering of the year. Both lists are compiled-in literals (`Search.Projects`,
  `Search.Certifications`), and both filters are pure functions of the query.
- **The theme preference (`useDarkMode`).** A boolean flag is initialised from
  the stored `"theme"` key or from the system's dark-mode preference. An
  effect then writes `"dark"`/`"light"` under that key and adds or removes
  the `dark` class on the root element.

Modules:

- `Wrappers` (wrappers.dfy): `Option`.
- `Text` (text.dfy): the string built-ins the filters use. `toLowerCase` is
  abstracted to ASCII letters. `includes` is modelled as a recursive search
  with a positional reference definition. `n + ""` for an integer is modelled
  with its inverse.
- `Collections` (collections.dfy): `Array.prototype.filter` and `some` on
  sequences, with subsequence, membership, multiplicity and idempotence lemmas.
- `Search` (search.dfy): the data, `filteredProjects` and `filteredCerts`,
  and their properties for any query and any list.
- `SearchScenarios` (scenarios.dfy): the filters applied to the page's own
  lists.
- `Theme` (theme.dfy): `useDarkMode` as a class `ThemePreference`. Local
  storage is a `map<string, string>` field and the root class list is a
  `set<string>` field. The window's presence and the colour-scheme media query
  are parameters.

Sequences are values, so the filters cannot change the source lists
(`Array.prototype.filter` does not either).

Only the absence of a window gives dark. With a window and no stored key,
the flag is exactly the media query's answer (`Theme.InitialEnabled`).
Matching the year against the raw query agrees with case-insensitive
matching, because a year renders to digits and a sign only
(`Search.YearMatchIsCaseInsensitive`).

## Model

| member | source | states |
|---|---|---|
| `Text.Lower` | modern_data_analyst_ai_ml_portfolio_react_tailwind_framer_motion.jsx:225 | ASCII `toLowerCase` on one character: the result is never upper-case, and the character is unchanged exactly when it is not an upper-case letter |
| `Text.LowerStrIdempotent` | modern_data_analyst_ai_ml_portfolio_react_tailwind_framer_motion.jsx:225 | lower-casing an already lower-cased string changes nothing |
| `Text.LowerStrFixed` | modern_data_analyst_ai_ml_portfolio_react_tailwind_framer_motion.jsx:237 | a string without upper-case letters is its own lower-case form |
| `Text.LowerStr` | modern_data_analyst_ai_ml_portfolio_react_tailwind_framer_motion.jsx:225 | `toLowerCase` keeps the length, folds each character on its own, and leaves no upper-case letter |
| `Text.IncludesIff` | modern_data_analyst_ai_ml_portfolio_react_tailwind_framer_motion.jsx:225-226 | `s.includes(q)` holds exactly when `q` occurs as a contiguous block at some position of `s` (both directions) |
| `Text.Includes` | modern_data_analyst_ai_ml_portfolio_react_tailwind_framer_motion.jsx:225 | `s.includes(q)` implies `q` is no longer than `s`, and for `q` as long as `s` it holds exactly when they are equal |
| `Text.IncludesEmpty` | modern_data_analyst_ai_ml_portfolio_react_tailwind_framer_motion.jsx:225 | the empty query occurs in every string |
| `Text.IncludesChars` | modern_data_analyst_ai_ml_portfolio_react_tailwind_framer_motion.jsx:225 | every character of a query that occurs in `s` is a character of `s` |
| `Text.CaseFoldIrrelevant` | modern_data_analyst_ai_ml_portfolio_react_tailwind_framer_motion.jsx:237 | in a string holding no letter, searching the query as typed and searching the lower-cased query agree |
| `Text.NatToDecimal` | modern_data_analyst_ai_ml_portfolio_react_tailwind_framer_motion.jsx:237 | the rendering of a natural number is non-empty, all digits, and has no leading zero unless the number is 0 |
| `Text.IntToDecimal` | modern_data_analyst_ai_ml_portfolio_react_tailwind_framer_motion.jsx:237 | `n + ""` starts with a minus sign exactly when `n` is negative, and otherwise holds only digits |
| `Text.NatToDecimalRoundTrip` | modern_data_analyst_ai_ml_portfolio_react_tailwind_framer_motion.jsx:237 | reading back the decimal rendering of a natural number gives the number |
| `Text.IntToDecimalRoundTrip` | modern_data_analyst_ai_ml_portfolio_react_tailwind_framer_motion.jsx:237 | reading back `n + ""` gives `n` for every integer |
| `Text.IntToDecimalInjective` | modern_data_analyst_ai_ml_portfolio_react_tailwind_framer_motion.jsx:237 | distinct years render to distinct strings |
| `Collections.Filter` | modern_data_analyst_ai_ml_portfolio_react_tailwind_framer_motion.jsx:223 | `filter` returns no more elements than the source, each of them a source element that passes the test |
| `Collections.Any` | modern_data_analyst_ai_ml_portfolio_react_tailwind_framer_motion.jsx:226 | `some` holds exactly when some element passes the test |
| `Collections.FilterIsSubsequence` | modern_data_analyst_ai_ml_portfolio_react_tailwind_framer_motion.jsx:223 | the filtered list is an order-preserving subsequence of the source |
| `Collections.FilterMembership` | modern_data_analyst_ai_ml_portfolio_react_tailwind_framer_motion.jsx:223 | an element is in the result exactly when it is in the source and passes the test |
| `Collections.FilterMultiplicity` | modern_data_analyst_ai_ml_portfolio_react_tailwind_framer_motion.jsx:223 | each element occurs in the result as often as in the source if it passes, and not at all otherwise |
| `Collections.FilterKeepsAll` | modern_data_analyst_ai_ml_portfolio_react_tailwind_framer_motion.jsx:223 | when every element passes, the result is the source unchanged |
| `Collections.FilterIdempotent` | modern_data_analyst_ai_ml_portfolio_react_tailwind_framer_motion.jsx:223 | filtering a filtered list again with the same test changes nothing |
| `Search.ProjectKeysDistinct` | modern_data_analyst_ai_ml_portfolio_react_tailwind_framer_motion.jsx:93-143 | the seven projects have distinct titles and each carries three distinct tags, as the title and tag keys of the rendered cards require (lines 511, 527) |
| `Search.CertificationsData` | modern_data_analyst_ai_ml_portfolio_react_tailwind_framer_motion.jsx:145-154 | the four certifications have distinct titles and distinct years between 2021 and 2024 |
| `Search.FieldMatches` | modern_data_analyst_ai_ml_portfolio_react_tailwind_framer_motion.jsx:225 | a field matches only a query no longer than itself, and the empty query matches every field |
| `Search.FieldMatchesIgnoresCase` | modern_data_analyst_ai_ml_portfolio_react_tailwind_framer_motion.jsx:225 | changing the case of letters in the query or in the field does not change whether they match |
| `Search.ProjectMatches` | modern_data_analyst_ai_ml_portfolio_react_tailwind_framer_motion.jsx:224-226 | a project matches exactly when its title or some tag matches, and every project matches the empty query |
| `Search.FilteredProjects` | modern_data_analyst_ai_ml_portfolio_react_tailwind_framer_motion.jsx:221-229 | the listed projects are no more than the source list, and each is a source project that matches the query |
| `Search.FilteredProjectsMembership` | modern_data_analyst_ai_ml_portfolio_react_tailwind_framer_motion.jsx:221-229 | a project is listed exactly when it is a source project and the lower-cased query occurs in its lower-cased title or in some lower-cased tag |
| `Search.FilteredProjectsOrder` | modern_data_analyst_ai_ml_portfolio_react_tailwind_framer_motion.jsx:221-229 | the listed projects are a subsequence of the source list in source order |
| `Search.FilteredProjectsEmptyQuery` | modern_data_analyst_ai_ml_portfolio_react_tailwind_framer_motion.jsx:225-226 | an empty project query lists every project, in order |
| `Search.FilteredProjectsIdempotent` | modern_data_analyst_ai_ml_portfolio_react_tailwind_framer_motion.jsx:221-229 | filtering the listed projects again with the same query lists them all again |
| `Search.CertMatches` | modern_data_analyst_ai_ml_portfolio_react_tailwind_framer_motion.jsx:234-237 | a certification matches exactly when its title, organisation or year rendering matches case-insensitively, and every certification matches the empty query |
| `Search.FilteredCerts` | modern_data_analyst_ai_ml_portfolio_react_tailwind_framer_motion.jsx:231-240 | the listed certifications are no more than the source list, and each is a source entry that matches the query |
| `Search.FilteredCertsMembership` | modern_data_analyst_ai_ml_portfolio_react_tailwind_framer_motion.jsx:231-240 | a certification is listed exactly when it is a source entry and the lower-cased query occurs in its lower-cased title or organisation, or the raw query occurs in its year's decimal rendering |
| `Search.FilteredCertsOrder` | modern_data_analyst_ai_ml_portfolio_react_tailwind_framer_motion.jsx:231-240 | the listed certifications are a subsequence of the source list in source order |
| `Search.FilteredCertsEmptyQuery` | modern_data_analyst_ai_ml_portfolio_react_tailwind_framer_motion.jsx:235-237 | an empty certification query lists every certification, in order |
| `Search.FilteredCertsIdempotent` | modern_data_analyst_ai_ml_portfolio_react_tailwind_framer_motion.jsx:231-240 | filtering the listed certifications again with the same query lists them all again |
| `Search.YearMatchIsCaseInsensitive` | modern_data_analyst_ai_ml_portfolio_react_tailwind_framer_motion.jsx:233-237 | matching the year against the raw query is the same as matching it case-insensitively |
| `SearchScenarios.PythonScenario` | modern_data_analyst_ai_ml_portfolio_react_tailwind_framer_motion.jsx:93-229 | the query "python" lists exactly Loan Performance, Branch-wise P&L, Zone-wise Sales and Email Data Analytics, in that order |
| `SearchScenarios.Year2022Scenario` | modern_data_analyst_ai_ml_portfolio_react_tailwind_framer_motion.jsx:145-240 | the certification query "2022" lists exactly "Python for Data Science & ML" |
| `Theme.StoredTheme` | modern_data_analyst_ai_ml_portfolio_react_tailwind_framer_motion.jsx:54-55 | `getItem("theme")` is present exactly when the key is stored, and then it is the stored value |
| `Theme.PersistedValue` | modern_data_analyst_ai_ml_portfolio_react_tailwind_framer_motion.jsx:61-67 | the effect persists "dark" exactly when the flag is set and "light" exactly when it is not |
| `Theme.InitialEnabled` | modern_data_analyst_ai_ml_portfolio_react_tailwind_framer_motion.jsx:51-57 | no window gives dark; a stored "dark" gives dark whatever the system prefers; no stored key gives the system preference; any other stored value gives light |
| `Theme.ClassesFor` | modern_data_analyst_ai_ml_portfolio_react_tailwind_framer_motion.jsx:60-67 | the root has the `dark` class exactly when the flag is set, and every other class is kept |
| `Theme.PersistRoundTrip` | modern_data_analyst_ai_ml_portfolio_react_tailwind_framer_motion.jsx:51-68 | a fresh start reads back the flag the effect persisted, whatever the system preference |
| `Theme.ThemePreference.InSync` | modern_data_analyst_ai_ml_portfolio_react_tailwind_framer_motion.jsx:59-68 | when flag, storage and class list agree, a page mounted afresh from that storage starts with the same flag, whatever the system prefers |
| `Theme.ThemePreference.Mount` | modern_data_analyst_ai_ml_portfolio_react_tailwind_framer_motion.jsx:50-68 | mounting computes the initial flag, then persists it under "theme" and marks the root; flag, storage and class list agree afterwards |
| `Theme.ThemePreference.ApplyEffect` | modern_data_analyst_ai_ml_portfolio_react_tailwind_framer_motion.jsx:59-68 | the effect writes the flag's value under "theme" and sets or clears the `dark` class, leaving other keys, classes and the flag unchanged |
| `Theme.ThemePreference.SetEnabled` | modern_data_analyst_ai_ml_portfolio_react_tailwind_framer_motion.jsx:59-70 | the flag becomes the argument; the effect re-runs only if the flag changed; flag, storage and class list agree afterwards when they agreed before or the flag changed |
| `Theme.ToggleThenReload` | modern_data_analyst_ai_ml_portfolio_react_tailwind_framer_motion.jsx:50-70 | after `setEnabled(e)`, a page mounted afresh from the resulting storage starts with `e` |

## Left out

- Rendering, layout, Tailwind class strings, framer-motion animations and `AnimatePresence`: presentational.
- `Particles` (lines 177-199): it draws positions from `Math.random`.
- The recharts timeline (lines 156-164, 368-382): fractional years and a charting library that is not part of this model.
- The contact form submit (lines 588-600): `FormData`, `encodeURIComponent` and navigation through `window.location` are browser I/O.
- React's `useState`/`useMemo` scheduling: the filters are plain functions of the current query, and a render is not modelled.
- `Text.IntToDecimal`: agrees with `n + ""` only for integers of magnitude below 10^21 that a JavaScript Number holds exactly (up to 2^53). JavaScript prints larger numbers in exponent notation and rounds integers above 2^53; the page's years are four-digit integers.
- `Text.Lower`: models `toLowerCase` on ASCII letters only. Other characters are left unchanged, whereas JavaScript also folds non-ASCII letters.
- `Theme.ThemePreference.Mount`: models a mount in a browser window only. Without a window (server rendering) effects never run, and only the initial value `Theme.InitialEnabled(false, ...)` is modelled.
- Exceptions that `localStorage` may throw when storage is blocked are not modelled. Storage is an always-available map.
- `src/components/ui/*.jsx`: thin wrappers over React elements whose only logic is class-name concatenation.
- The `skills` and `timeline` literals: no search runs over them.
