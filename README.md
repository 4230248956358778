# CV screening: a verified model of its deterministic core

This project models the logic inside the hiring tool's CV-screening screens
and two of its API routes, and proves properties of that model in Dafny:

- **Screening dashboard**: the status tabs (`getCandidatesByStatus`,
  `getStatusCount`), the candidate filter `applyFilters` with its eight clauses
  (search, experience level, score range, location, required skills, minimum
  years, maximum salary, custom key/value filters), `hasActiveFilters` and the
  "Clear all" reset value.
- **Advanced-filters panel**: `updateFilter` and its `'all'` normalisation,
  adding and removing skills, merging the job's required skills, adding and
  removing custom filters, `getCurrentExperienceLevel`, the quick-filter buttons
  and the panel's own input fields.
- **Candidate table**: select-all and per-row selection, pagination with
  clamped previous/next, the skills-match ratio, score and match colour bands,
  the badge fallbacks and the footer's average score.
- **Resume viewer**: zoom in steps of 25 between 50 and 200, rotation by quarter
  turns, and the mock e-mail line.
- **`POST /api/applications`**: the database is a set of abstract tables
  (applicants keyed by e-mail, applications, document links, documents, job
  posts). The route finds or creates the applicant, refuses a second
  application to the same job and creates the application and its links, all
  in one transaction. It maps errors to 400/409/500 and success to 201.
- **`POST` and `GET /api/documents`**: the per-file upload loop (skip rule,
  name and extension split, PDF check, `fileType` fallback), the sorting of
  outcomes into results and errors, the choice of 200/207/500, and the GET
  guards and chat lookup.

Module layout, one file each:

- `text.dfy` (`Text`): ASCII lowercasing, `includes`, `split` on one
  character, `indexOf`, `replace` of the first occurrence, and integer to
  decimal text.
- `seqs.dfy` (`Seqs`): `filter`, counting, subsequences and "no duplicates".
- `candidates.dfy` (`Candidates`): the candidate and filter records.
- `screening_dashboard.dfy`, `advanced_filters.dfy`, `candidate_table.dfy`,
  `resume_viewer.dfy`, `applications_route.dfy` and `documents_route.dfy`: one
  module per source file.

State that the source updates in place is modelled as classes:

- the panel's fields (`AdvancedFilters.FiltersPanel`);
- the table's selection and page (`CandidateTable.TableState`);
- the viewer's zoom and rotation (`ResumeViewer.Viewer`);
- the database tables (`ApplicationsRoute.Database`).

Each state-changing method is tied to a specification function. The two POST
handlers are methods with loops, proved equal to `PostSpec` functions, and the
properties are proved about those functions.

External effects are inputs of the model:

- the AI reply (`AiReply`);
- for each uploaded file, what pdf-parse, the file system, Cloudinary and the
  insert do (`Environment`);
- the session's user id;
- the `Date.now()` stamp;
- the uploads directory.

JavaScript's `Math.round(p / q)` is modelled exactly on integers as
`(2p + q) / (2q)`, the nearest integer with halves rounded up. The NaN of an
empty required-skills list is `None`.

## Model

| member | source | states |
|---|---|---|
| ScreeningDashboard.CandidatesByStatus | components/organisms/job-post-details/cv-screening-dashboard.tsx:183-191 | For each of the six statuses, the result is an order-keeping sublist whose elements are exactly the candidates with that status, and it holds as many as there are. Any other tab value gives the whole list. |
| ScreeningDashboard.CandidatesByStatusIsExact | components/organisms/job-post-details/cv-screening-dashboard.tsx:183-191 | Any order-keeping sublist that holds only candidates of a known status and has the full count is that tab's list. |
| ScreeningDashboard.StatusCount | components/organisms/job-post-details/cv-screening-dashboard.tsx:193-195 | The badge count is the length of the tab's list. For a known status that is the number of candidates with it; otherwise it is the list length. |
| ScreeningDashboard.TabsPartitionCandidates | components/organisms/job-post-details/cv-screening-dashboard.tsx:183-195 | When every candidate has one of the six statuses, the six tab counts add up to the number of candidates. |
| ScreeningDashboard.ApplyFilters | components/organisms/job-post-details/cv-screening-dashboard.tsx:197-245 | The result keeps order and adds nothing. A candidate is in it exactly when it is in the input and passes all eight clauses. |
| ScreeningDashboard.MatchesSearch | components/organisms/job-post-details/cv-screening-dashboard.tsx:200-203 | The lowered search term occurs in the lowered name, e-mail or summary, or in one of the lowered skills. |
| ScreeningDashboard.MatchesExperienceLevel | components/organisms/job-post-details/cv-screening-dashboard.tsx:206-208 | An empty level or `all` admits everyone; any other level requires exact equality. |
| ScreeningDashboard.MatchesScore | components/organisms/job-post-details/cv-screening-dashboard.tsx:211 | The score lies between `minScore` and `maxScore`, both inclusive. |
| ScreeningDashboard.MatchesLocation | components/organisms/job-post-details/cv-screening-dashboard.tsx:214 | An empty location admits everyone; otherwise it occurs, ignoring case, in the candidate's location. |
| ScreeningDashboard.MatchesSkills | components/organisms/job-post-details/cv-screening-dashboard.tsx:217-218 | Every chosen skill is one of the candidate's skills, compared exactly. |
| ScreeningDashboard.MatchesExperience | components/organisms/job-post-details/cv-screening-dashboard.tsx:221 | The years of experience are at least `minExperience`. |
| ScreeningDashboard.MatchesSalary | components/organisms/job-post-details/cv-screening-dashboard.tsx:224 | A cap of 0 admits everyone; otherwise the expected salary is at most the cap. |
| ScreeningDashboard.CustomEntryHolds | components/organisms/job-post-details/cv-screening-dashboard.tsx:228-238 | An empty value holds. Otherwise the lowered value occurs in the lowered field: a string field, some element of an array field, or `String()` of a number or `undefined`. |
| Candidates.FieldOf | components/organisms/job-post-details/cv-screening-dashboard.tsx:229 | `candidate[key]`: each field of the candidate record under its own name, as a string, a string array or a number, and `undefined` for any other key. |
| ScreeningDashboard.MatchesCustomFilters | components/organisms/job-post-details/cv-screening-dashboard.tsx:227-239 | Every custom entry holds. |
| ScreeningDashboard.Matches | components/organisms/job-post-details/cv-screening-dashboard.tsx:241-243 | The conjunction of the eight clauses. |
| ScreeningDashboard.VisibleCandidates | components/organisms/job-post-details/cv-screening-dashboard.tsx:247 | The shown list is the filter applied to the active tab's list. On a status tab, a candidate is shown exactly when it has that status and passes the filter; on any other tab, exactly when it passes the filter. The order of the list is kept. |
| ScreeningDashboard.SearchClause | components/organisms/job-post-details/cv-screening-dashboard.tsx:200-203 | Searching equals filtering the empty-search result by a case-insensitive substring hit in name, e-mail, summary or a skill. The empty search admits everyone, and the case of the search term does not matter. |
| ScreeningDashboard.ExperienceLevelClause | components/organisms/job-post-details/cv-screening-dashboard.tsx:206-208 | `'all'` and `''` give the same result. Any other level keeps exactly the candidates of that level. |
| ScreeningDashboard.ScoreBoundsInclusive | components/organisms/job-post-details/cv-screening-dashboard.tsx:211 | Both bounds are inclusive: setting either bound, or both, to a shown candidate's score still shows it. |
| ScreeningDashboard.AddingSkillShrinks | components/organisms/job-post-details/cv-screening-dashboard.tsx:217-218 | Adding a skill filters the previous result by "has that skill", so the result can only shrink. |
| ScreeningDashboard.SalaryClause | components/organisms/job-post-details/cv-screening-dashboard.tsx:224 | `maxSalary = 0` switches the clause off. Any other cap filters the uncapped result by "expected salary at most the cap". |
| ScreeningDashboard.CustomFilterClause | components/organisms/job-post-details/cv-screening-dashboard.tsx:227-239 | An entry with an empty value acts as no entry. A non-empty entry filters the result without it by the entry's condition. |
| ScreeningDashboard.CustomFilterUpdate | components/organisms/job-post-details/cv-screening-dashboard.tsx:227-239 | For one candidate, setting one custom entry replaces only that entry's condition. |
| ScreeningDashboard.ClearedFilters | components/organisms/job-post-details/cv-screening-dashboard.tsx:451-460 | The "Clear all" value reports no active filter, with maximum score 100, minimum years 0 and no salary cap. |
| ScreeningDashboard.HasActiveFiltersIgnores | components/organisms/job-post-details/cv-screening-dashboard.tsx:250-256 | The active-filters test does not depend on `maxScore`, `minExperience` or `maxSalary`. |
| ScreeningDashboard.HasActiveFilters | components/organisms/job-post-details/cv-screening-dashboard.tsx:250-256 | A level other than empty and `all`, a chosen skill, a location, a positive minimum score, or a custom entry with a non-empty value. |
| ScreeningDashboard.InactiveFiltersCanStillFilter | components/organisms/job-post-details/cv-screening-dashboard.tsx:250-256 | A salary cap alone is not reported as active, yet it hides a candidate above the cap. |
| ScreeningDashboard.ClearedFiltersAdmit | components/organisms/job-post-details/cv-screening-dashboard.tsx:197-245 | After "Clear all" with an empty search, a candidate is shown exactly when its score is in 0..100 and its years are not negative. |
| ScreeningDashboard.TopPerformersShowsOnlyTop | components/organisms/job-post-details/advanced-filters.tsx:385-388 | With the corrected "Top Performers", every shown candidate is senior and scores at least 90. |
| ScreeningDashboard.TopPerformersAsWrittenShowsLowScores | components/organisms/job-post-details/advanced-filters.tsx:385-388 | With the handler as written, starting from the cleared state, a senior candidate scoring below 90 is still shown. |
| ScreeningDashboard.BudgetFriendlyShowsOnlyJakartaOnBudget | components/organisms/job-post-details/advanced-filters.tsx:404-407 | With the corrected "Budget Friendly", every shown candidate's location contains "jakarta" (ignoring case) and the expected salary is at most 25 000 000. |
| ScreeningDashboard.BudgetFriendlyAsWrittenShowsAnyCity | components/organisms/job-post-details/advanced-filters.tsx:404-407 | With the handler as written, from the cleared state, a candidate within the cap is shown wherever they live. |
| ScreeningDashboard.ScoreRangeShowsOnlyRange | components/organisms/job-post-details/advanced-filters.tsx:200-203 | With the corrected slider, every shown score lies between the two thumbs. |
| ScreeningDashboard.ScoreRangeAsWrittenIgnoresMinimum | components/organisms/job-post-details/advanced-filters.tsx:200-203 | With the slider as written, raising the lower thumb from the cleared state still shows a candidate below it. |
| AdvancedFilters.UpdateFilter | components/organisms/job-post-details/advanced-filters.tsx:102-112 | The named key gets the stored value, with experience level `'all'` stored as `''`. Every other key keeps its value. |
| AdvancedFilters.StoredValue | components/organisms/job-post-details/advanced-filters.tsx:104-106 | The value an update stores: experience level `'all'` becomes `''`, and every other value is stored as given. |
| AdvancedFilters.CurrentExperienceLevel | components/organisms/job-post-details/advanced-filters.tsx:162-164 | The shown level is never empty. A stored non-empty level is shown as it is. |
| AdvancedFilters.ExperienceLevelRoundTrip | components/organisms/job-post-details/advanced-filters.tsx:102-164 | Choosing a level and then reading it back gives the chosen level, with `''` read as `'all'`. |
| AdvancedFilters.WithSkill | components/organisms/job-post-details/advanced-filters.tsx:114-119 | Only the skills change. An empty or already chosen skill changes nothing; otherwise the skill is appended at the end. The result has no duplicates if the input had none. |
| AdvancedFilters.WithSkillIdempotent | components/organisms/job-post-details/advanced-filters.tsx:114-119 | Adding the same skill twice is the same as adding it once. |
| AdvancedFilters.WithoutSkill | components/organisms/job-post-details/advanced-filters.tsx:121-126 | No occurrence of the skill remains. The other skills stay, in order, and the new length is the number of other entries. |
| AdvancedFilters.WithRequiredSkills | components/organisms/job-post-details/advanced-filters.tsx:128-131 | The old skills stay as a prefix and every required skill is present. Each appended skill is required and was not chosen before. With no duplicates in either input, the result has none. |
| AdvancedFilters.WithRequiredSkillsIdempotent | components/organisms/job-post-details/advanced-filters.tsx:128-131 | Adding the job requirements a second time adds nothing. |
| AdvancedFilters.WithCustomFilter | components/organisms/job-post-details/advanced-filters.tsx:133-153 | An empty key or value changes nothing. Otherwise the key maps to the value, overwriting any old one, and every other entry is untouched. |
| AdvancedFilters.WithoutCustomFilter | components/organisms/job-post-details/advanced-filters.tsx:155-159 | The key is absent and every other entry is unchanged. Removing an absent key is a no-op. |
| AdvancedFilters.AddThenRemoveCustomFilter | components/organisms/job-post-details/advanced-filters.tsx:133-159 | Removing a filter just added gives the map without that key. |
| AdvancedFilters.DispatchAsWritten | components/organisms/job-post-details/advanced-filters.tsx:108-111 | When several `updateFilter` calls spread the same snapshot, only the last call's key changes. Every other key keeps the snapshot's value. |
| AdvancedFilters.DispatchSequential | components/organisms/job-post-details/advanced-filters.tsx:102-112 | The reference reading: each `updateFilter` applied to the result of the one before. |
| AdvancedFilters.DispatchSequentialUntouched | components/organisms/job-post-details/advanced-filters.tsx:200-203 | Under the intended reading, where each update builds on the one before, a key that no update names keeps its value. |
| AdvancedFilters.DispatchSequentialLastWriter | components/organisms/job-post-details/advanced-filters.tsx:200-203 | Under the intended reading, a key ends with the value of the last update that names it. |
| AdvancedFilters.TopPerformersAsWrittenLosesMinScore | components/organisms/job-post-details/advanced-filters.tsx:385-388 | As written, the level becomes senior but the minimum score keeps its old value; from the cleared state it stays 0. |
| AdvancedFilters.TopPerformersAsWritten | components/organisms/job-post-details/advanced-filters.tsx:385-388 | The two `updateFilter` calls of the button, both spreading the same snapshot. |
| AdvancedFilters.TopPerformers | components/organisms/job-post-details/advanced-filters.tsx:385-388 | As intended, the minimum score is 90 and the level is senior, and nothing else changes. |
| AdvancedFilters.BudgetFriendlyAsWrittenLosesLocation | components/organisms/job-post-details/advanced-filters.tsx:404-407 | As written, the cap becomes 25 000 000 but the location keeps its old value. |
| AdvancedFilters.BudgetFriendlyAsWritten | components/organisms/job-post-details/advanced-filters.tsx:404-407 | The two `updateFilter` calls of the button, both spreading the same snapshot. |
| AdvancedFilters.BudgetFriendly | components/organisms/job-post-details/advanced-filters.tsx:404-407 | As intended, the location is Jakarta and the cap is 25 000 000, and nothing else changes. |
| AdvancedFilters.ScoreRangeAsWrittenLosesMinimum | components/organisms/job-post-details/advanced-filters.tsx:200-203 | As written, the maximum moves but the minimum keeps its old value. |
| AdvancedFilters.ScoreRangeAsWritten | components/organisms/job-post-details/advanced-filters.tsx:200-203 | The slider's two `updateFilter` calls, both spreading the same snapshot. |
| AdvancedFilters.ScoreRange | components/organisms/job-post-details/advanced-filters.tsx:200-203 | As intended, both thumbs are stored and nothing else changes. |
| AdvancedFilters.PerfectMatch | components/organisms/job-post-details/advanced-filters.tsx:395-397 | The skills become exactly the job's required skills, and nothing else changes. |
| AdvancedFilters.WithPreset | components/organisms/job-post-details/advanced-filters.tsx:414-428 | A preset button sets one custom entry over a spread of the current ones: the key maps to the value, every other key is present exactly as before and keeps its value, and nothing else changes. |
| AdvancedFilters.SalaryInput | components/organisms/job-post-details/advanced-filters.tsx:290 | A failed parse (NaN) gives 0. A parsed number is kept. |
| AdvancedFilters.FiltersPanel.constructor | components/organisms/job-post-details/advanced-filters.tsx:96-100 | The panel's five input fields start empty. |
| AdvancedFilters.FiltersPanel.SelectExperienceLevel | components/organisms/job-post-details/advanced-filters.tsx:177 | The new filters are `updateFilter` of the level, and reading the level back gives the chosen one. |
| AdvancedFilters.FiltersPanel.ChangeScoreRange | components/organisms/job-post-details/advanced-filters.tsx:200-203 | As written, both calls spread the same snapshot, so the minimum is unchanged and the maximum is stored. |
| AdvancedFilters.FiltersPanel.ChangeLocation | components/organisms/job-post-details/advanced-filters.tsx:218 | Only the location changes. |
| AdvancedFilters.FiltersPanel.ChangeMinExperience | components/organisms/job-post-details/advanced-filters.tsx:274 | Only the minimum years change. |
| AdvancedFilters.FiltersPanel.ChangeMaxSalary | components/organisms/job-post-details/advanced-filters.tsx:290 | Only the cap changes, to the parsed value or 0. |
| AdvancedFilters.FiltersPanel.AddSkill | components/organisms/job-post-details/advanced-filters.tsx:114-119 | The filters become `WithSkill` of the old ones, and the skill picker is cleared. |
| AdvancedFilters.FiltersPanel.RemoveSkill | components/organisms/job-post-details/advanced-filters.tsx:121-126 | The filters become `WithoutSkill` of the old ones. |
| AdvancedFilters.FiltersPanel.AddRequiredSkills | components/organisms/job-post-details/advanced-filters.tsx:128-131 | The filters become `WithRequiredSkills` of the old ones. |
| AdvancedFilters.FiltersPanel.AddPredefinedFilter | components/organisms/job-post-details/advanced-filters.tsx:133-142 | With a non-empty key and value, the entry is added and both inputs are cleared. Otherwise nothing changes. |
| AdvancedFilters.FiltersPanel.AddCustomFilter | components/organisms/job-post-details/advanced-filters.tsx:144-153 | With a non-empty key and value, the entry is added and both inputs are cleared. Otherwise nothing changes. |
| AdvancedFilters.FiltersPanel.RemoveCustomFilter | components/organisms/job-post-details/advanced-filters.tsx:155-159 | The custom filters become `WithoutCustomFilter` of the old ones, and nothing else changes. |
| AdvancedFilters.FiltersPanel.QuickTopPerformers | components/organisms/job-post-details/advanced-filters.tsx:385-388 | The filters become the as-written "Top Performers" result. |
| AdvancedFilters.FiltersPanel.QuickPerfectMatch | components/organisms/job-post-details/advanced-filters.tsx:395-397 | The filters become `PerfectMatch` of the old ones. |
| AdvancedFilters.FiltersPanel.QuickBudgetFriendly | components/organisms/job-post-details/advanced-filters.tsx:404-407 | The filters become the as-written "Budget Friendly" result. |
| AdvancedFilters.FiltersPanel.QuickMuslimCandidates | components/organisms/job-post-details/advanced-filters.tsx:414-416 | The filters become `WithPreset` of the old ones with `religion: islam`. |
| AdvancedFilters.FiltersPanel.QuickIndonesianOnly | components/organisms/job-post-details/advanced-filters.tsx:423-428 | The filters become `WithPreset` of the old ones with `nationality: indonesia`. |
| CandidateTable.Ids | components/organisms/job-post-details/candidate-detail.tsx:72 | The ids of the candidates, one per row, in list order. |
| CandidateTable.Toggled | components/organisms/job-post-details/candidate-detail.tsx:78-84 | Checking appends the id with no duplicate check. Unchecking removes every occurrence, keeps the rest in order, and leaves as many entries as there were other ids. |
| CandidateTable.SelectThenDeselect | components/organisms/job-post-details/candidate-detail.tsx:78-84 | Unchecking right after checking removes the new entry and every older copy. |
| CandidateTable.SelectTwiceDuplicates | components/organisms/job-post-details/candidate-detail.tsx:80 | Checking a row twice lists its id twice. |
| CandidateTable.TotalPages | components/organisms/job-post-details/candidate-detail.tsx:158 | The page count is the ceiling of n / rows: 0 for an empty list, otherwise the least r with n ≤ r·rows. |
| CandidateTable.PageRows | components/organisms/job-post-details/candidate-detail.tsx:159-161 | Page p holds at most `rows` rows. They are rows (p-1)·rows onward, clipped to the list, and a page past the end is empty. |
| CandidateTable.Window | components/organisms/job-post-details/candidate-detail.tsx:159-161 | The rows from a start index: at most `rows` of them, empty past the end, otherwise min(rows, rows left), in list order. |
| CandidateTable.FirstPagesPrefix | components/organisms/job-post-details/candidate-detail.tsx:159-161 | The first k pages, one after another, are the list's first k·rows rows. |
| CandidateTable.FirstPages | components/organisms/job-post-details/candidate-detail.tsx:159-161 | Pages 1 to k, one after another. |
| CandidateTable.PagesCoverList | components/organisms/job-post-details/candidate-detail.tsx:158-161 | Pages 1 to `totalPages` show every row exactly once, in order. |
| CandidateTable.PagesInRangeNonEmpty | components/organisms/job-post-details/candidate-detail.tsx:158-161 | Every page from 1 to `totalPages` has at least one row. |
| CandidateTable.TableState.constructor | components/organisms/job-post-details/candidate-detail.tsx:65-67 | The table starts with no selection, on page 1, with 10 rows per page. |
| CandidateTable.TableState.SelectAll | components/organisms/job-post-details/candidate-detail.tsx:70-76 | Checking selects exactly the candidate ids in list order. Unchecking empties the selection. |
| CandidateTable.TableState.SelectCandidate | components/organisms/job-post-details/candidate-detail.tsx:78-84 | The selection becomes `Toggled` of the old one. |
| CandidateTable.TableState.PrevPage | components/organisms/job-post-details/candidate-detail.tsx:394 | The page becomes max(1, page - 1), so it never drops below 1. |
| CandidateTable.TableState.NextPage | components/organisms/job-post-details/candidate-detail.tsx:402 | The page becomes min(totalPages, page + 1), so it never goes above `totalPages` and stays at least 1. |
| CandidateTable.TableState.SetRowsPerPage | components/organisms/job-post-details/candidate-detail.tsx:374-383 | The rows per page become the chosen option (5, 10, 20 or 50). The page is not reset. |
| CandidateTable.TableState.CurrentRows | components/organisms/job-post-details/candidate-detail.tsx:159-161 | The rows are `PageRows` of the current page: the window starting at (page-1)·rowsPerPage holds min(rowsPerPage, rows left) rows in list order, and is empty past the end. |
| CandidateTable.RoundDiv | components/organisms/job-post-details/candidate-detail.tsx:149 | `Math.round(p / q)`: 2qr − q ≤ 2p < 2qr + q, which is the nearest integer with halves rounded up. |
| CandidateTable.SkillsMatchInfo | components/organisms/job-post-details/candidate-detail.tsx:147-156 | `matching` counts the candidate's skills that the job requires and `total` is the number of required skills. `percentage` is the rounded 100·matching/total, and it is absent (NaN) exactly when nothing is required. |
| CandidateTable.InRequired | components/organisms/job-post-details/candidate-detail.tsx:148 | `jobRequiredSkills.includes(skill)`: the skill is one of the required skills, compared exactly. |
| CandidateTable.SkillsMatchBounded | components/organisms/job-post-details/candidate-detail.tsx:147-156 | With no repeated candidate skills, `matching` ≤ `total` and the percentage is in 0..100. |
| CandidateTable.RepeatedSkillOvercounts | components/organisms/job-post-details/candidate-detail.tsx:148 | A repeated matching skill is counted twice: skills `React, React` against `React` give 2/1 and 200 %. |
| CandidateTable.ScoreColor | components/organisms/job-post-details/candidate-detail.tsx:140-145 | Green exactly from 90, blue for 80..89, yellow for 70..79 and red below 70. |
| CandidateTable.ScoreColorMonotone | components/organisms/job-post-details/candidate-detail.tsx:140-145 | A higher score never gets a lower band. |
| CandidateTable.MatchBand | components/organisms/job-post-details/candidate-detail.tsx:251-255 | Green exactly from 80 %, yellow for 60..79 %, otherwise red, including the NaN of an empty required list. |
| CandidateTable.MatchBandMonotone | components/organisms/job-post-details/candidate-detail.tsx:251-255 | A higher percentage never gets a lower band. |
| CandidateTable.StatusTone | components/organisms/job-post-details/candidate-detail.tsx:108-119 | The status badge is gray exactly for a status outside the six. |
| CandidateTable.StatusTonesDistinct | components/organisms/job-post-details/candidate-detail.tsx:109-116 | The six statuses get six different tones. |
| CandidateTable.ExperienceTone | components/organisms/job-post-details/candidate-detail.tsx:125-134 | The level badge is blue (the `mid` style) exactly for a level other than junior, senior and lead. |
| CandidateTable.UnknownLevelLooksMid | components/organisms/job-post-details/candidate-detail.tsx:134 | An unknown level is styled like `mid`. |
| CandidateTable.Capitalize | components/organisms/job-post-details/candidate-detail.tsx:120 | The first character is upper-cased and the rest is kept; the empty string stays empty. |
| CandidateTable.CapitalizeKeepsLetters | components/organisms/job-post-details/candidate-detail.tsx:135 | The label differs from the value only in the case of its first letter. |
| CandidateTable.AverageScore | components/organisms/job-post-details/candidate-detail.tsx:363-366 | Shown exactly for a non-empty list, as the rounded sum / n. |
| CandidateTable.SumScores | components/organisms/job-post-details/candidate-detail.tsx:366 | `candidates.reduce((sum, c) => sum + c.score, 0)`: the sum of the scores, 0 for an empty list; `SumScoresBounded` bounds it by n·lo and n·hi. |
| CandidateTable.AverageScoreBounded | components/organisms/job-post-details/candidate-detail.tsx:363-366 | The average of scores between lo and hi lies between lo and hi. |
| ResumeViewer.ZoomedIn | components/organisms/job-post-details/resume-viewer.tsx:17 | Adds 25 up to 175, gives 200 from 175, and keeps a valid zoom valid. |
| ResumeViewer.ZoomedOut | components/organisms/job-post-details/resume-viewer.tsx:21 | Subtracts 25 down from 75, gives 50 at 75 and below, and keeps a valid zoom valid. |
| ResumeViewer.Rotated | components/organisms/job-post-details/resume-viewer.tsx:25 | The result is in 0..359. From a quarter turn it is the next one: r + 90, with 270 wrapping to 0. |
| ResumeViewer.ZoomInOutRoundTrip | components/organisms/job-post-details/resume-viewer.tsx:16-22 | For 50 ≤ z ≤ 175, zooming in then out gives back z. |
| ResumeViewer.ZoomOutInRoundTrip | components/organisms/job-post-details/resume-viewer.tsx:16-22 | For 75 ≤ z ≤ 200, zooming out then in gives back z. |
| ResumeViewer.ZoomLimitsAreFixedPoints | components/organisms/job-post-details/resume-viewer.tsx:16-22 | Zooming in at 200 and out at 50 change nothing. |
| ResumeViewer.FourRotationsIdentity | components/organisms/job-post-details/resume-viewer.tsx:24-26 | Four rotations give back the start. |
| ResumeViewer.Viewer.constructor | components/organisms/job-post-details/resume-viewer.tsx:13-14 | Zoom starts at 100 and rotation at 0, both valid. |
| ResumeViewer.Viewer.ZoomIn | components/organisms/job-post-details/resume-viewer.tsx:16-18 | Zoom becomes `ZoomedIn` of the old zoom and stays in 50..200, a multiple of 25. |
| ResumeViewer.Viewer.ZoomOut | components/organisms/job-post-details/resume-viewer.tsx:20-22 | Zoom becomes `ZoomedOut` of the old zoom and stays in 50..200, a multiple of 25. |
| ResumeViewer.Viewer.Rotate | components/organisms/job-post-details/resume-viewer.tsx:24-26 | Rotation becomes `Rotated` of the old rotation and stays in {0, 90, 180, 270}. |
| ResumeViewer.MockEmail | components/organisms/job-post-details/resume-viewer.tsx:44 | The name, lowered, followed by `@email.com`. With a space, the first space becomes `.`, no space comes before it, and every other character is lowered. |
| ResumeViewer.MockEmailKeepsLaterSpaces | components/organisms/job-post-details/resume-viewer.tsx:44 | A second space in the name stays a space, since only the first one is replaced. |
| ApplicationsRoute.Status | app/api/applications/route.ts:183-199 | 201 exactly for a created result, 400 for a validation error, and 409 exactly for the duplicate-application error. Every other error gives 500. |
| ApplicationsRoute.Message | app/api/applications/route.ts:183-199 | The thrown error's message, which is the duplicate-application message exactly for the duplicate error, so only that error gives 409. The serialisation message is the TypeError's; the others stand for messages from outside the route. |
| ApplicationsRoute.FindDocument | app/api/applications/route.ts:42-44 | The first document with the id, which is absent exactly when no document has that id. |
| ApplicationsRoute.FirstDocument | app/api/applications/route.ts:42-44 | With ids, it is the document of the first id, absent when that id is unknown. With no ids, the filter matches every row and the query has no ordering, so it is some document, absent only for an empty table; the model takes the first in table order. |
| ApplicationsRoute.HasLocalPath | app/api/applications/route.ts:46 | `if (document.localPath)`: a path counts only when it is present and non-empty, since `''` is falsy. |
| ApplicationsRoute.ParsedOf | app/api/applications/route.ts:107-131 | Reply text that is missing or unparsable gives all-absent fields. The literal `null`, whose fields cannot be read, gives no data (the handler throws). |
| ApplicationsRoute.LinksFor | app/api/applications/route.ts:151-156 | One link per document id, in order, all for the new application. |
| ApplicationsRoute.WithApplicant | app/api/applications/route.ts:119-133 | The applicant insert: stored under the request's e-mail with the next id, and the counter advanced. |
| ApplicationsRoute.NewApplicant | app/api/applications/route.ts:119-133 | The applicant create data: the given id, name, e-mail and phone from the request, and experiences, location, languages, summary, educations, years and profile links from the parsed CV. |
| ApplicationsRoute.HasApplication | app/api/applications/route.ts:137-142 | The duplicate `findFirst` finds a row: some application has this applicant id and this job post id. |
| ApplicationsRoute.WithApplication | app/api/applications/route.ts:145-156 | The application insert and its link rows, with the application counter advanced. |
| ApplicationsRoute.Transaction | app/api/applications/route.ts:39-181 | Inside the transaction: find or create the applicant (a `null` reply throws), refuse a duplicate, then create the application and its links. Every failure returns the starting tables. |
| ApplicationsRoute.PostSpec | app/api/applications/route.ts:17-200 | The whole POST: JSON and schema checks, the first-document lookup, the local-path check (no path gives 500 through the unserialisable `undefined` result), the CV read and the AI call, then the transaction. |
| ApplicationsRoute.Valid | app/api/applications/route.ts:118-147 | The table invariant: applicants stored under their own e-mail with distinct ids, ids below their counters, and at most one application per (applicant, job post). |
| ApplicationsRoute.PostIsAllOrNothing | app/api/applications/route.ts:39-199 | The status is 201, 400, 409 or 500, and every answer but 201 leaves every table as it was. |
| ApplicationsRoute.BadBodies | app/api/applications/route.ts:19-27 | A body the schema refuses gives 400 with nothing written. A body that is not JSON gives 500. |
| ApplicationsRoute.MissingFirstDocument | app/api/applications/route.ts:42-44 | An unknown first document id gives 500 and writes nothing. |
| ApplicationsRoute.NoLocalPathRefused | app/api/applications/route.ts:46-183 | As written, a first document without a local path answers 500 and writes nothing, whatever the rest of the request. |
| ApplicationsRoute.PostSpecIntended | app/api/applications/route.ts:39-183 | The corrected POST: without a local path the CV is not parsed, `parsedData` stays `{}`, and the transaction runs as usual. |
| ApplicationsRoute.IntendedCreatesWithoutLocalPath | app/api/applications/route.ts:46-147 | As intended, a fresh request for an existing job post whose documents exist answers 201 and appends one application, even when the first document has no local path. A new applicant then has no extracted fields. |
| ApplicationsRoute.IntendedAgreesWithLocalPath | app/api/applications/route.ts:39-183 | The correction changes nothing when the first document is missing or has a local path. |
| ApplicationsRoute.IntendedPreservesValid | app/api/applications/route.ts:118-147 | The corrected POST keeps the table invariant. |
| ApplicationsRoute.ExistingApplicantKept | app/api/applications/route.ts:118-134 | An applicant already stored under the e-mail is not overwritten. |
| ApplicationsRoute.NewApplicantFromReply | app/api/applications/route.ts:107-134 | A new applicant gets the next id, the request's contact data and the extracted fields. With no text or unparsable text, every extracted field is absent. |
| ApplicationsRoute.DuplicateRejected | app/api/applications/route.ts:137-142 | An existing application for the same applicant and job gives 409 and writes nothing. |
| ApplicationsRoute.SuccessShape | app/api/applications/route.ts:145-157 | A real 201 appends exactly one application, with the next id, the request's job, salary and notes, and the applicant's id. It appends one link per document id, in order, and leaves documents and job posts untouched. |
| ApplicationsRoute.WithApplicantValid | app/api/applications/route.ts:119-133 | Creating an applicant under a new e-mail keeps the table invariant. |
| ApplicationsRoute.WithApplicationValid | app/api/applications/route.ts:145-147 | Creating an application with the next id, for a pair that has none, keeps the table invariant. |
| ApplicationsRoute.TransactionShape | app/api/applications/route.ts:118-157 | The transaction either leaves the tables as they were, or adds one application for a pair that had none, after creating the applicant if needed. |
| ApplicationsRoute.TransactionPreservesValid | app/api/applications/route.ts:118-157 | The transaction body keeps the table invariant. |
| ApplicationsRoute.PostPreservesValid | app/api/applications/route.ts:136-147 | Every POST keeps the invariant. Each applicant is stored under its own e-mail, applicant ids are distinct, ids stay below their counters, and there is at most one application per (applicant, job post). |
| ApplicationsRoute.SecondSubmissionRejected | app/api/applications/route.ts:137-142 | Sending a successful request again gives 409. |
| ApplicationsRoute.Database.Restore | app/api/applications/route.ts:39-40 | The rollback puts back every table. |
| ApplicationsRoute.Database.LinkBatch | app/api/applications/route.ts:150-156 | The link rows exist exactly when every id names a document, and then they are one per id, in order. |
| ApplicationsRoute.Database.RunTransaction | app/api/applications/route.ts:39-181 | The tables it leaves and the response are those of the transaction's specification; every failure after a write rolls back. |
| ApplicationsRoute.Database.Post | app/api/applications/route.ts:17-200 | The tables it leaves and the response are those of `PostSpec`. |
| DocumentsRoute.BaseName | app/api/documents/route.ts:40 | A prefix of the name with no dot, followed in the name by a dot or by its end. With no dot, it is the whole name. |
| DocumentsRoute.Processed | app/api/documents/route.ts:35 | The guard: a file entry with a non-empty name and a positive size. |
| DocumentsRoute.Extension | app/api/documents/route.ts:41 | A suffix of the name with no dot, preceded in the name by a dot or by its start. With no dot, it is the whole name. |
| DocumentsRoute.ExtensionOfDottedName | app/api/documents/route.ts:41 | The extension of `base.ext`, where `ext` has no dot, is `ext`. |
| DocumentsRoute.PdfCheckIgnoresCase | app/api/documents/route.ts:45 | Text is extracted exactly when the final extension lowercases to `pdf`. A name with no dot counts when the whole name lowercases to `pdf`. |
| DocumentsRoute.IsPdf | app/api/documents/route.ts:45 | The lowered extension is `pdf`. |
| DocumentsRoute.LocalTextPath | app/api/documents/route.ts:54 | The uploads directory, then `<stamp>-<base name>.txt`. |
| DocumentsRoute.FileType | app/api/documents/route.ts:86 | The upload format if non-empty, else the MIME subtype if non-empty, else `pdf`. |
| DocumentsRoute.ErrorMessage | app/api/documents/route.ts:99 | The error's message if non-empty, else `Failed to process file`. |
| DocumentsRoute.Owner | app/api/documents/route.ts:90-92 | The owner is connected exactly when the user id is present and non-empty. |
| DocumentsRoute.ProcessFile | app/api/documents/route.ts:35-101 | A file is skipped exactly when the guard rejects it. It is saved exactly when the PDF step (only for a PDF), the upload and the insert all succeed. The saved document takes its id from the insert, its path, size and format from the upload reply (format via `FileType`), its owner from the session, and the local text path exactly for a PDF. Otherwise the failure carries the file name and the message of the first step that failed, through `ErrorMessage`. |
| DocumentsRoute.OutcomesPartition | app/api/documents/route.ts:94-101 | Every entry lands in exactly one of results, errors or skipped. |
| DocumentsRoute.Outcomes | app/api/documents/route.ts:34-103 | One `ProcessFile` outcome per entry, in order. |
| DocumentsRoute.SavedDocs | app/api/documents/route.ts:94-96 | `uploadResults`: the saved documents, in input order. |
| DocumentsRoute.Failures | app/api/documents/route.ts:97-101 | `uploadErrors`: the failures, in input order. |
| DocumentsRoute.PostSpec | app/api/documents/route.ts:19-121 | The whole POST: 500 when the form cannot be read, 400 with no entries, otherwise `Respond` on the two lists. |
| DocumentsRoute.AggregationAppends | app/api/documents/route.ts:96-100 | Results and errors of earlier entries come first, so both lists keep input order. |
| DocumentsRoute.SkippedCount | app/api/documents/route.ts:35 | The skipped entries are exactly those the guard rejects. |
| DocumentsRoute.ProcessedFilesAccounted | app/api/documents/route.ts:34-103 | Results plus errors equal the number of processed files. |
| DocumentsRoute.PostStatus | app/api/documents/route.ts:27-29 | 400 exactly for the no-files answer. 500 for an unreadable form and for all-failed. For an accepted answer, 207 exactly when there are errors, otherwise 200. |
| DocumentsRoute.PostGuards | app/api/documents/route.ts:24-29 | A form that cannot be read answers 500, and a form with no entries answers 400. |
| DocumentsRoute.Respond | app/api/documents/route.ts:105-116 | 500 exactly when there are errors and no results, 207 exactly when there are both, and 200 exactly when there are no errors. |
| DocumentsRoute.AllSkippedIsSuccess | app/api/documents/route.ts:105-116 | A form whose files are all skipped answers 200 with no data. |
| DocumentsRoute.ProcessOne | app/api/documents/route.ts:35-101 | The loop body computes `ProcessFile` for the entry. |
| DocumentsRoute.Post | app/api/documents/route.ts:19-121 | The loop's response is `PostSpec`: 500 when the form cannot be read, 400 with no entries, otherwise the status chosen from the two lists. |
| DocumentsRoute.FindChat | app/api/documents/route.ts:141-147 | A chat of the conversation whose context belongs to the user (the query has no ordering, so which one is not promised). It is absent exactly when no chat matches. |
| DocumentsRoute.GetSpec | app/api/documents/route.ts:125-181 | 401 exactly without a user, and 400 without a conversation id. With both, 500 exactly when the query fails. When a chat matches, the answer lists exactly that chat's documents owned by the user, in order; each returned document is owned by the user. |
| DocumentsRoute.GetNotFound | app/api/documents/route.ts:166-168 | 404 exactly when no chat of the conversation belongs to the user. |
| DocumentsRoute.GetStatus | app/api/documents/route.ts:125-181 | The status of each GET answer: 401, 400, 404, 200 or 500. |
| Text.Lower | components/organisms/job-post-details/cv-screening-dashboard.tsx:200 | `toLowerCase` on ASCII: length kept, each character lowered, no capital left. |
| Text.LowerIdempotent | components/organisms/job-post-details/cv-screening-dashboard.tsx:200-203 | Lowering twice is lowering once. |
| Text.ContainsIffOccurs | components/organisms/job-post-details/cv-screening-dashboard.tsx:200 | `includes` holds exactly when the text occurs at some position. |
| Text.ContainsEmpty | components/organisms/job-post-details/cv-screening-dashboard.tsx:200 | Every string includes the empty string. |
| Text.Contains | components/organisms/job-post-details/cv-screening-dashboard.tsx:200 | `includes`: the text is a prefix of some suffix. |
| Text.NatToString | components/organisms/job-post-details/cv-screening-dashboard.tsx:238 | `String(n)` of a natural number: a non-empty string of digits. |
| Text.NatToStringRoundTrip | components/organisms/job-post-details/cv-screening-dashboard.tsx:238 | Reading the digits back gives the number. |
| Text.IntToString | components/organisms/job-post-details/cv-screening-dashboard.tsx:238 | `String(n)`: non-empty, a leading minus sign exactly for negative numbers, then decimal digits that read back as the magnitude. |
| Text.Split | app/api/documents/route.ts:40-41 | `split` on one character has at least one piece. |
| Text.SplitJoin | app/api/documents/route.ts:40-41 | Joining the pieces with the separator gives back the string. |
| Text.SplitPiecesFree | app/api/documents/route.ts:40-41 | No piece holds the separator. |
| Text.Join | app/api/documents/route.ts:40-41 | Pieces glued back with the separator; the inverse that pins down `Split`. |
| Text.SplitFirst | app/api/documents/route.ts:40 | The first piece is a prefix without the separator, ending at the first separator. There is one piece exactly when the separator is absent. |
| Text.SplitLast | app/api/documents/route.ts:41 | The last piece is a suffix without the separator, starting after the last separator. |
| Text.IndexOf | components/organisms/job-post-details/resume-viewer.tsx:44 | The first position of the character, or −1 exactly when it is absent. |
| Text.ReplaceFirst | components/organisms/job-post-details/resume-viewer.tsx:44 | `replace` of one character: the length is kept, only the first occurrence changes, and nothing changes when the character is absent. |
| Seqs.Filter | components/organisms/job-post-details/cv-screening-dashboard.tsx:198 | `filter`: at most as long as the input, and an element is in the result exactly when it is in the input and passes. |
| Seqs.Count | components/organisms/job-post-details/cv-screening-dashboard.tsx:193-195 | How many elements pass, the length of a `filter`. |

## Left out

- JSX rendering, CSS class strings, icons, toasts and the DOM download of the resume viewer. Colour classes are modelled only as the bands and tones they pick.
- The view-glue components: the detail dropdown, the job details, the candidates-table columns and wrapper, and the job detail page. Also left out are the health route, the screening repository (an HTTP wrapper) and the DTO type file.
- `GET /api/applications` is a plain `findMany` with no logic.
- The Gemini call, `fs.readFile`, pdf-parse, `fs.mkdir`/`writeFile`, Cloudinary and Prisma are I/O. Their outcomes are inputs of the model (`AiReply`, `Environment`, the tables).
- Prisma's isolation level, its timeouts and concurrent transactions. The model covers one request at a time, so an interleaving of two requests for the same pair is not covered.
- The schema `CreateApplicationRequestDTO` is not part of this model. It appears only as the outcome "fails the schema" or a well-formed request.
- Error messages of the applications route other than the duplicate one and the serialisation `TypeError` are modelled as one generic message. The status depends only on whether the message is the duplicate one.
- The `findUnique` after `createMany` is not modelled. It re-reads the row just created, and its "Failed to create application" branch cannot happen.
- The application-document link table is modelled without its own uniqueness: a request that repeats a document id creates two links.
- The local text file written before a failed upload stays on disk; the model keeps no file system. `path.join` normalisation is reduced to joining with `/`.
- `Date.now()` is an input (`Environment.stamp`).
- `Intl.NumberFormat`, `toLocaleDateString` and the date and salary formatting are locale behaviour.
- Floating point. Ratios are rounded exactly in integer arithmetic.
- CandidateTable.SkillsMatchInfo: the percentage is exact rounding of 100·matching/total. JavaScript computes `(matching / total) * 100` in doubles first, which lands just below a half when the exact value is one. The two agree for every list of fewer than 40 required skills. From 40 on they can differ by one: for 23 of 40, IEEE double arithmetic gives 57.49999999999999 and so 57, where the model gives 58.
- The footer average needs no such caveat: `sum / n` is a single correctly rounded division, so exact rounding agrees with `Math.round` on integer scores of sizes a table can hold.
- `toLowerCase` and `toUpperCase` are ASCII-only. There is no Unicode case mapping.
- `String()` coercion covers numbers, strings, arrays of strings and `undefined` only, which are the field types of the candidate record. Any key the record does not have reads as `undefined`. JavaScript prototype keys (such as `constructor`) are not modelled.
- The panel's input setters (`setNewSkill` and the key/value fields) are plain field writes with nothing to prove.
- ResumeViewer.Viewer.ZoomIn: the validity of the zoom is an invariant the methods keep, not a check the source makes. The source clamps only the range.
- CandidateTable.TableState.NextPage: requires a non-empty list. With no candidates the source shows an empty-state message instead of the buttons, and `Math.min(0, page + 1)` would give page 0.

## Findings

| source | as written | input that shows it | evidently intended | confidence | as-written member | corrected member |
|---|---|---|---|---|---|---|
| components/organisms/job-post-details/advanced-filters.tsx:385-388 | "Top Performers" calls `updateFilter` twice. Each call spreads the same `filters` snapshot, so the second record replaces the first and `minScore: 90` is lost. | From the cleared filters, press "Top Performers": `minScore` stays 0 and a senior with score 50 is still shown. | Minimum score 90 and level senior. | not executed | AdvancedFilters.TopPerformersAsWrittenLosesMinScore, ScreeningDashboard.TopPerformersAsWrittenShowsLowScores | AdvancedFilters.TopPerformers, ScreeningDashboard.TopPerformersShowsOnlyTop |
| components/organisms/job-post-details/advanced-filters.tsx:404-407 | "Budget Friendly" has the same double call, so `location: 'Jakarta'` is lost and only the salary cap survives. | From the cleared filters, press "Budget Friendly": the location stays empty and a candidate in Surabaya within the cap is shown. | Location Jakarta and salary at most 25 000 000. | not executed | AdvancedFilters.BudgetFriendlyAsWrittenLosesLocation, ScreeningDashboard.BudgetFriendlyAsWrittenShowsAnyCity | AdvancedFilters.BudgetFriendly, ScreeningDashboard.BudgetFriendlyShowsOnlyJakartaOnBudget |
| components/organisms/job-post-details/advanced-filters.tsx:200-203 | The score slider sets `minScore` and then `maxScore` from the same snapshot, so a new minimum is lost. | From the cleared filters, drag the lower thumb to 20: `minScore` stays 0. | Both thumbs stored. | not executed | AdvancedFilters.ScoreRangeAsWrittenLosesMinimum, ScreeningDashboard.ScoreRangeAsWrittenIgnoresMinimum | AdvancedFilters.ScoreRange, ScreeningDashboard.ScoreRangeShowsOnlyRange |
| app/api/applications/route.ts:46-183 | The whole transaction body sits inside `if (document.localPath)`. Without a local path the callback returns `undefined`, `NextResponse.json(undefined, { status: 201 })` throws a `TypeError` (the Fetch standard's JSON serialisation refuses `undefined`), and the catch answers 500. | A well-formed application whose first document was uploaded as a non-PDF: the documents route sets `localPath` only for PDFs, so the answer is 500 and no applicant or application is created. | Only the CV parsing depends on the local path; the applicant and the application are still created, with no extracted fields. | not executed | ApplicationsRoute.NoLocalPathRefused | ApplicationsRoute.PostSpecIntended, ApplicationsRoute.IntendedCreatesWithoutLocalPath |

`ApplicationsRoute.Database.Post` and `ApplicationsRoute.PostSpec` model
the route as written.

The panel's methods (`FiltersPanel.QuickTopPerformers`,
`FiltersPanel.QuickBudgetFriendly`, `FiltersPanel.ChangeScoreRange`) model the
handlers as written. The corrected functions state what those buttons
evidently mean to do.
