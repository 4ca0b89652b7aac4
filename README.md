# CVHub core, modelled in Dafny

CVHub is a recruitment web application. Applicants build a CV in a five-step
wizard and publish it. Companies browse a public directory of applicants,
bookmark them and list their own job advertisements. This project models
the application's decision logic and its list and record operations:

- **Directory search** (`DirectorySearch`, `directory_search.dfy`).
  - The query parameters and their defaults.
  - Profiles and users are looked up by user id; the last row for an id wins.
  - Four filters are AND-ed: free text, location, minimum experience and any-of skills.
  - Each kept CV is projected into a result record.
  - Any failed read gives a 500.
- **Advertisement list** (`AdsList`, `ads_list.dfy`).
  - Three gates, in order: signed in, role "company", a company profile.
  - A summary fold over the ads: their count, the active count, and the impression and click sums.
- **CV builder.**
  - The skills editor (`SkillsStep`): trimmed, duplicate-free adds, removal of every copy, and the Enter key.
  - The experience editor (`ExperienceStep`) and the education editor (`EducationStep`): add a blank entry, merge a partial record into the entries with an id, remove by id, and the `editingId` that Done/Edit set.
  - The personal-information step (`PersonalInfoStep`): a single-field update.
  - The wizard page (`CvBuilder`): its five steps, next/previous stopping at the ends, the shallow merge of a step's update, and the progress bar and "Step k of 5" label.
- **Session middleware** (`SessionMiddleware`): the redirect rule for the dashboard and the login/signup pages.
- **Bookmark toggle** (`Bookmarks`): the route's delete-or-insert on the bookmarks table, and the directory page's side of a click.
- **Signup.**
  - The route (`SignupRoute`): the required-field check, then the ordered writes (auth user, `users` row, role profile), stopping at the first failure.
  - The page (`SignupPage`): the role default, client validation, the request body and the error message the page shows.

Shared modules:

- `Wrappers` holds `Option` and `Result`.
- `Lists` holds `Array.filter`, `map`, `join`, `split`, and `new Map(...)` as a last-wins index.
- `Text` holds the string primitives:
  - ASCII `toLowerCase`;
  - `trim` over the ECMAScript white-space set;
  - `includes` and `startsWith`;
  - `parseInt` with an optional sign and a `0x` prefix, where `NaN` is `None`.

Pure source code is modelled as functions. Component and route state that the source updates in place is modelled in classes:

- `SkillsEditor`: `data` and `inputValue`;
- the experience and education editors: `data` and `editingId`;
- `CvBuilderPage`: `currentStep` and `cvData`;
- `BookmarkTable`: rows;
- `Backend`: a log of the writes, in order;
- `SignupForm`: `loading`, `error`, `role` and the form.

Each class method is proved equal to a pure function of the old state. The properties are proved about those functions.

The following are parameters of the model, not computations in it:

- the database reads and their errors;
- the session's user;
- the server's reply to the signup page;
- the `Date.now()` ids.

## Model

| member | source | states |
|---|---|---|
| DirectorySearch.Search | app/api/directory/search/route.ts:20-95 | The answer is a failure exactly when one of the three reads failed. A failure carries "Failed to search applicants" and status 500, with no partial listing. Otherwise the listing is `Results` of the defaulted criteria on the three reads, whose content the Search lemmas below fix, and it never has more entries than there are CVs. |
| DirectorySearch.ReadCriteriaDefaults | app/api/directory/search/route.ts:7-10 | With no parameters, search, location and skills are empty and `minExperience` parses "0" to 0. |
| DirectorySearch.SearchConcat | app/api/directory/search/route.ts:41-90 | The results for the CVs `a + b` are the results for `a` followed by those for `b`, so the input order is kept. |
| DirectorySearch.SearchSingle | app/api/directory/search/route.ts:41-90 | A single CV gives exactly its projection when it is kept (a profile and all four filters passing), and nothing otherwise. |
| DirectorySearch.SearchSound | app/api/directory/search/route.ts:41-90 | Every result is the projection of some input CV that has a profile and passes all four filters. |
| DirectorySearch.SearchComplete | app/api/directory/search/route.ts:41-90 | Every input CV that has a profile and passes all four filters appears, projected, among the results. |
| DirectorySearch.NoProfileDropped | app/api/directory/search/route.ts:43-44 | A CV whose author has no profile gives no result: wherever it stands among the CVs, the listing is the one the other CVs give. |
| DirectorySearch.LastProfileWins | app/api/directory/search/route.ts:37-85 | When several profiles share a user id, the last one decides the filters and the projected profile id, location and years. |
| DirectorySearch.ProjectedName | app/api/directory/search/route.ts:79-82 | The result's name is the last `users` row's `full_name` for the author, else "Unknown"; the CV content's name is not used. |
| DirectorySearch.ResultsShape | app/api/directory/search/route.ts:80-88 | Every result has a profile id and a non-empty name, and `bookmarked` is false. |
| DirectorySearch.OnlyPublished | app/api/directory/search/route.ts:15-18 | With the route's query, every result's `cvId` is the id of a published CV row. |
| DirectorySearch.BatchedFetchSameResults | app/api/directory/search/route.ts:23-38 | Fetching only the profiles and users of the CVs' authors gives the same results as fetching all of them. |
| DirectorySearch.DefaultCriteriaKeepProfiled | app/api/directory/search/route.ts:7-75 | With default criteria and no negative experience stored, a CV is kept exactly when its author has a profile. |
| DirectorySearch.TextFilterExamples | app/api/directory/search/route.ts:47-53 | The text filter ignores case and looks at the content name and the skills: "jane" and "RUST" match "Jane Doe" with skill "Rust"; "python" does not. |
| DirectorySearch.TextSpansAdjacentSkills | app/api/directory/search/route.ts:50-51 | The skills are joined by a space, so "a s" matches the skills "Java" and "Script". |
| DirectorySearch.LocationFilterExamples | app/api/directory/search/route.ts:57 | Location is an exact match, ignoring case. A profile without a location fails any non-empty location, and an empty location passes everything. |
| DirectorySearch.ExperienceFilterExamples | app/api/directory/search/route.ts:62 | The minimum is inclusive, a `NaN` minimum excludes nobody, and a missing value counts as 0. |
| DirectorySearch.RequiredTwo | app/api/directory/search/route.ts:68 | "a,b" gives the two tokens `a` and `b`, each trimmed and lowercased. |
| DirectorySearch.SkillsFilterAnyOf | app/api/directory/search/route.ts:67-72 | With two requested skills, a CV is kept exactly when its lowercased skills contain either normalised token. |
| DirectorySearch.GoSqlSkills | app/api/directory/search/route.ts:69 | The skills "Go" and "SQL" are compared as "go" and "sql". |
| DirectorySearch.SkillsFilterWhole | app/api/directory/search/route.ts:70 | Tokens match whole skills, not substrings: "g" does not select "Go". |
| Lists.IndexByLast | app/api/directory/search/route.ts:37-38 | The map built from rows holds, for each key, the last row with that key. |
| Lists.IndexBy | app/api/directory/search/route.ts:37-38 | The map has a key exactly when some row has that key. |
| Text.ParseIntDecimal | app/api/directory/search/route.ts:9 | `parseInt` reads back every non-negative decimal number `toString` writes. |
| Text.ParseIntMinus | app/api/directory/search/route.ts:9 | A leading minus sign negates the unsigned number after it, and a minus sign with no number after it is `NaN`. |
| Text.ParseIntNegative | app/api/directory/search/route.ts:9 | `parseInt` reads back every negative decimal number `toString` writes, so "-5" gives -5. |
| Text.ParseIntNaN | app/api/directory/search/route.ts:9 | A string that does not start with white space, a sign or a digit parses as `NaN`. |
| Text.TrimShape | app/api/directory/search/route.ts:68 | `trim` returns one contiguous piece of its input, with white space only around it and none at either end. |
| Text.TrimIdempotent | components/cv-builder/skills-step.tsx:21-22 | Trimming twice is trimming once, so a skill the editor stored is its own trimmed form. |
| Text.ToLowerConcat | app/api/directory/search/route.ts:51 | Lowercasing a concatenation lowercases each part, so lowercasing the joined skills lowercases each skill in place. |
| Lists.JoinSplit | app/api/directory/search/route.ts:68 | Joining the pieces of `split(",")` with "," gives back the parameter, so the split loses no character. |
| AdsList.ListAds | app/api/ads/list/route.ts:7-47 | The gates apply in order: no user gives 401; a role other than "company" gives 403; no company profile gives 404. Otherwise, if the ads read succeeded, the ads are returned unchanged with their statistics. |
| AdsList.GateOrder | app/api/ads/list/route.ts:8-28 | A missing session wins over everything, and a non-company role wins over a missing profile. |
| AdsList.ListAdsErrors | app/api/ads/list/route.ts:8-50 | Each gate answers with its own status and error body: 401 "Unauthorized", 403 "Only companies can view ads", 404 "Company profile not found". A failed role or ads read gives 500 "Failed to fetch ads". |
| AdsList.ActiveAtMostTotal | app/api/ads/list/route.ts:41-42 | `activeAds <= totalAds`. |
| AdsList.ActiveCount | app/api/ads/list/route.ts:42 | `activeAds` counts each ad whose status is exactly "active", as often as it occurs, and no other ad. |
| AdsList.ActiveAdditive | app/api/ads/list/route.ts:42 | The active count of `a + b` is the sum of the two active counts. |
| AdsList.SumImpressionsConcat | app/api/ads/list/route.ts:43 | The impression sum of `a + b` is the sum of the two sums. |
| AdsList.SumClicksConcat | app/api/ads/list/route.ts:44 | The click sum of `a + b` is the sum of the two sums. |
| AdsList.StatsAdditive | app/api/ads/list/route.ts:40-45 | The statistics of `a + b` are the field-wise sum of the two lists' statistics. |
| AdsList.StatsSingle | app/api/ads/list/route.ts:40-45 | One ad counts as 1, as active only when its status is "active", and adds its impressions and clicks, with null as 0. |
| AdsList.TotalsNonNegative | app/api/ads/list/route.ts:43-44 | With no negative counter stored, both sums are non-negative. |
| SkillsStep.WithSkillAdded | components/cv-builder/skills-step.tsx:21-22 | When the trimmed input is non-empty and new, the list grows by one and keeps its old entries in front. Otherwise the list is unchanged. |
| SkillsStep.AddedSkill | components/cv-builder/skills-step.tsx:21-22 | The appended skill is the trimmed input: non-empty, with no white space at either end, and not already listed. |
| SkillsStep.AddKeepsDistinct | components/cv-builder/skills-step.tsx:21-22 | A list without duplicates has none after an add. |
| SkillsStep.AddTwice | components/cv-builder/skills-step.tsx:21-22 | Adding the same text twice adds it once. |
| SkillsStep.WithoutSkill | components/cv-builder/skills-step.tsx:27-29 | Removal never lengthens the list. |
| SkillsStep.RemoveSkillCounts | components/cv-builder/skills-step.tsx:27-29 | Afterwards no copy of the skill remains, and every other skill occurs as often as before. |
| SkillsStep.RemoveSkillConcat | components/cv-builder/skills-step.tsx:28 | Removal works piecewise over `a + b`, so the others keep their order. |
| SkillsStep.RemoveAbsent | components/cv-builder/skills-step.tsx:28 | Removing an unlisted skill changes nothing. |
| SkillsStep.RemoveKeepsDistinct | components/cv-builder/skills-step.tsx:28 | Removal keeps a duplicate-free list duplicate-free. |
| SkillsStep.AddThenRemove | components/cv-builder/skills-step.tsx:21-28 | Adding a new skill and then removing it gives back the original list. |
| SkillsStep.SkillsEditor.AddSkill | components/cv-builder/skills-step.tsx:20-25 | The list becomes `WithSkillAdded`. The input is cleared on success and kept otherwise. |
| SkillsStep.SkillsEditor.RemoveSkill | components/cv-builder/skills-step.tsx:27-29 | The list becomes `WithoutSkill`, and the input is unchanged. |
| SkillsStep.SkillsEditor.HandleKeyPress | components/cv-builder/skills-step.tsx:31-36 | Enter prevents the default action and adds. Any other key changes nothing. |
| SkillsStep.SkillsEditor.SetInput | components/cv-builder/skills-step.tsx:46 | The input takes the typed value, and the list is unchanged. |
| SkillsStep.SkillsEditor.constructor | components/cv-builder/skills-step.tsx:18 | The input starts empty. |
| ExperienceStep.WithExperienceAdded | components/cv-builder/experience-step.tsx:29-39 | The list grows by one, with the old entries in front. The new entry has the given id, all fields empty and `currentlyWorking` false. |
| ExperienceStep.WithExperienceUpdated | components/cv-builder/experience-step.tsx:43-44 | The length is unchanged. |
| ExperienceStep.UpdateEntries | components/cv-builder/experience-step.tsx:43-44 | An entry with the id becomes the merge of the patch into it, at the same index. Every other entry is unchanged. |
| ExperienceStep.MergeFields | components/cv-builder/experience-step.tsx:44 | Each of the seven fields (id, company, position, start date, end date, currently working, description) comes from the patch when the patch carries it, and from the entry otherwise. An empty patch changes nothing. |
| ExperienceStep.MergeIdempotent | components/cv-builder/experience-step.tsx:44 | Merging a patch twice is merging it once. |
| ExperienceStep.MergeMerge | components/cv-builder/experience-step.tsx:44 | Two merges in a row equal one merge of the combined patch, where the later patch wins. |
| ExperienceStep.UpdateAbsent | components/cv-builder/experience-step.tsx:44 | Updating an id that no entry has changes nothing. |
| ExperienceStep.UpdateIdempotent | components/cv-builder/experience-step.tsx:44 | The same update applied twice equals it applied once, for every patch, including one that changes the id. |
| ExperienceStep.CurrentlyWorkingKeepsEndDate | components/cv-builder/experience-step.tsx:111 | Ticking "I currently work here" sets `currentlyWorking` and leaves every `endDate` as it was. |
| ExperienceStep.WithoutExperience | components/cv-builder/experience-step.tsx:47-48 | Removal never lengthens the list. |
| ExperienceStep.RemoveEntries | components/cv-builder/experience-step.tsx:47-48 | No entry with the id remains, and every other entry occurs as often as before. |
| ExperienceStep.RemoveConcat | components/cv-builder/experience-step.tsx:47-48 | Removal from `a + b` is removal from `a` followed by removal from `b`, so the remaining entries keep their order. |
| ExperienceStep.RemoveAbsent | components/cv-builder/experience-step.tsx:48 | Removing an id that no entry has changes nothing. |
| ExperienceStep.AddThenRemove | components/cv-builder/experience-step.tsx:29-48 | Adding an entry under an unused id and then removing that id gives back the list. |
| ExperienceStep.ExperienceEditor.AddExperience | components/cv-builder/experience-step.tsx:29-41 | The list becomes `WithExperienceAdded`, and `editingId` is the new id. |
| ExperienceStep.ExperienceEditor.UpdateExperience | components/cv-builder/experience-step.tsx:43-45 | The list becomes `WithExperienceUpdated`, and `editingId` is unchanged. |
| ExperienceStep.ExperienceEditor.RemoveExperience | components/cv-builder/experience-step.tsx:47-49 | The list becomes `WithoutExperience`, and `editingId` is unchanged. |
| ExperienceStep.ExperienceEditor.Done | components/cv-builder/experience-step.tsx:127 | `editingId` becomes null, and the list is unchanged. |
| ExperienceStep.ExperienceEditor.Edit | components/cv-builder/experience-step.tsx:132 | `editingId` becomes the entry's id, and the list is unchanged. |
| ExperienceStep.ExperienceEditor.constructor | components/cv-builder/experience-step.tsx:27 | Nothing is being edited at first. |
| EducationStep.WithEducationAdded | components/cv-builder/education-step.tsx:28-37 | The list grows by one, with the old entries in front. The new entry has the given id and all fields empty. |
| EducationStep.WithEducationUpdated | components/cv-builder/education-step.tsx:41-42 | The length is unchanged. |
| EducationStep.UpdateEntries | components/cv-builder/education-step.tsx:41-42 | An entry with the id becomes the merge of the patch into it, at the same index. Every other entry is unchanged. |
| EducationStep.MergeFields | components/cv-builder/education-step.tsx:42 | Each of the six fields (id, school, degree, field, graduation date, description) comes from the patch when the patch carries it, and from the entry otherwise. An empty patch changes nothing. |
| EducationStep.MergeIdempotent | components/cv-builder/education-step.tsx:42 | Merging a patch twice is merging it once. |
| EducationStep.MergeMerge | components/cv-builder/education-step.tsx:42 | Two merges in a row equal one merge of the combined patch. |
| EducationStep.UpdateAbsent | components/cv-builder/education-step.tsx:42 | Updating an id that no entry has changes nothing. |
| EducationStep.UpdateIdempotent | components/cv-builder/education-step.tsx:42 | The same update applied twice equals it applied once, for every patch, including one that changes the id. |
| EducationStep.WithoutEducation | components/cv-builder/education-step.tsx:45-46 | Removal never lengthens the list. |
| EducationStep.RemoveEntries | components/cv-builder/education-step.tsx:45-46 | No entry with the id remains, and every other entry occurs as often as before. |
| EducationStep.RemoveConcat | components/cv-builder/education-step.tsx:45-46 | Removal from `a + b` is removal from `a` followed by removal from `b`, so the remaining entries keep their order. |
| EducationStep.RemoveAbsent | components/cv-builder/education-step.tsx:46 | Removing an id that no entry has changes nothing. |
| EducationStep.AddThenRemove | components/cv-builder/education-step.tsx:28-46 | Adding an entry under an unused id and then removing that id gives back the list. |
| EducationStep.EducationEditor.AddEducation | components/cv-builder/education-step.tsx:28-39 | The list becomes `WithEducationAdded`, and `editingId` is the new id. |
| EducationStep.EducationEditor.UpdateEducation | components/cv-builder/education-step.tsx:41-43 | The list becomes `WithEducationUpdated`, and `editingId` is unchanged. |
| EducationStep.EducationEditor.RemoveEducation | components/cv-builder/education-step.tsx:45-47 | The list becomes `WithoutEducation`, and `editingId` is unchanged. |
| EducationStep.EducationEditor.Done | components/cv-builder/education-step.tsx:114 | `editingId` becomes null. |
| EducationStep.EducationEditor.Edit | components/cv-builder/education-step.tsx:119 | `editingId` becomes the entry's id. |
| EducationStep.EducationEditor.constructor | components/cv-builder/education-step.tsx:26 | Nothing is being edited at first. |
| PersonalInfoStep.HandleChange | components/cv-builder/personal-info-step.tsx:20-22 | The changed field holds the new value, and every other field keeps its value. |
| PersonalInfoStep.SameFields | components/cv-builder/personal-info-step.tsx:8-15 | Two records that agree on all six fields are equal. |
| PersonalInfoStep.ChangeToSame | components/cv-builder/personal-info-step.tsx:21 | Setting a field to its current value changes nothing. |
| PersonalInfoStep.ChangeIdempotent | components/cv-builder/personal-info-step.tsx:21 | Applying the same change twice equals applying it once. |
| PersonalInfoStep.ChangesCommute | components/cv-builder/personal-info-step.tsx:21 | Changes to two different fields commute. |
| PersonalInfoStep.LastWriteWins | components/cv-builder/personal-info-step.tsx:21 | Of two changes to one field, the later one wins. |
| CvBuilder.IndexOf | app/dashboard/cv-builder/page.tsx:45-67 | Every step is in `STEPS`, at an index within [0, 4]. |
| CvBuilder.IndexOfSteps | app/dashboard/cv-builder/page.tsx:45-67 | `indexOf` gives back each position of `STEPS`, so no step is listed twice. |
| CvBuilder.NextStep | app/dashboard/cv-builder/page.tsx:69-73 | Next moves exactly one index forward, except at "review", where it stays. |
| CvBuilder.PreviousStep | app/dashboard/cv-builder/page.tsx:75-79 | Previous moves exactly one index back, except at "personal", where it stays. |
| CvBuilder.PreviousAfterNext | app/dashboard/cv-builder/page.tsx:69-79 | From any step but "review", Next then Previous returns to the step. |
| CvBuilder.NextAfterPrevious | app/dashboard/cv-builder/page.tsx:69-79 | From any step but "personal", Previous then Next returns to the step. |
| CvBuilder.NextReachesReview | app/dashboard/cv-builder/page.tsx:69-79 | Four presses of Next reach "review" from any step; four of Previous reach "personal". |
| CvBuilder.CvBuilderPage.constructor | app/dashboard/cv-builder/page.tsx:49-63 | The page starts on "personal", the first step, with title "My CV", all six personal fields empty and no experience, education or skills. |
| CvBuilder.Segments | app/dashboard/cv-builder/page.tsx:121-128 | Segment `i` is coloured exactly when `i` is at most the current index. |
| CvBuilder.CountSegments | app/dashboard/cv-builder/page.tsx:121-128 | The number of coloured segments is `min(n, current + 1)`. |
| CvBuilder.ProgressMatchesLabel | app/dashboard/cv-builder/page.tsx:113-128 | The bar colours as many segments as the label's step number, which is between 1 and 5 of 5. Coloured segments come before grey ones. |
| CvBuilder.MergeFields | app/dashboard/cv-builder/page.tsx:103-105 | The merged record takes exactly the fields present in the update and keeps the rest. An empty update changes nothing. |
| CvBuilder.StepUpdatesAreLocal | app/dashboard/cv-builder/page.tsx:151-161 | The update from each of the four editors (personal, experience, education, skills) replaces only that step's part of the record. |
| CvBuilder.MergeTwice | app/dashboard/cv-builder/page.tsx:104 | Merging the same update twice equals merging it once. |
| CvBuilder.CvBuilderPage.HandleNext | app/dashboard/cv-builder/page.tsx:69-73 | The step becomes `NextStep` of the old step, and the CV is unchanged. |
| CvBuilder.CvBuilderPage.HandlePrevious | app/dashboard/cv-builder/page.tsx:75-79 | The step becomes `PreviousStep` of the old step, and the CV is unchanged. |
| CvBuilder.CvBuilderPage.UpdateCvData | app/dashboard/cv-builder/page.tsx:103-105 | The CV becomes the merge of the update into the old CV, and the step is unchanged. |
| SessionMiddleware.UpdateSession | lib/supabase/middleware.ts:29-42 | A signed-out request under "/dashboard" redirects to the same URL with pathname "/login". A signed-in request for exactly "/login" or "/signup" redirects to pathname "/dashboard". Every other request passes through. Each of these conditions holds exactly when its outcome happens. |
| SessionMiddleware.RedirectsExclusive | lib/supabase/middleware.ts:29-36 | At most one of the two redirects applies to a request. |
| SessionMiddleware.RedirectOnlyPathname | lib/supabase/middleware.ts:30-38 | A redirect keeps the origin and the query string, and always changes the pathname. |
| SessionMiddleware.RedirectSettles | lib/supabase/middleware.ts:29-42 | Following a redirect with the same session passes through, so no request is redirected twice in a row. |
| SessionMiddleware.PrefixGuarded | lib/supabase/middleware.ts:29 | Every path beginning with "/dashboard", such as "/dashboardX", is guarded. |
| SessionMiddleware.AuthPagesPassThrough | lib/supabase/middleware.ts:36 | "/auth/login" and "/auth/signup" pass through for a signed-in user. |
| SessionMiddleware.RedirectTargets | lib/supabase/middleware.ts:29-40 | A signed-out visitor is never sent to the dashboard, and a signed-in one never to the login page. |
| Bookmarks.Toggle | app/api/bookmarks/toggle/route.ts:5-35 | The answer is 401 exactly when there is no user. It is 500 exactly when there is a user but the body is unreadable or the store reports an error. Success happens exactly when there is a user, a parsed body and no store error. Without success the table is unchanged. With success, `isBookmarked` true deletes the pair and false inserts it. |
| Bookmarks.Deleted | app/api/bookmarks/toggle/route.ts:17 | Deletion never lengthens the table. |
| Bookmarks.Inserted | app/api/bookmarks/toggle/route.ts:22-25 | Insertion appends exactly the pair `(user, applicantId)` and keeps the existing rows. |
| Bookmarks.DeleteRemovesPair | app/api/bookmarks/toggle/route.ts:17 | The delete removes every copy of the pair and keeps every other row as often as it occurred. |
| Bookmarks.OtherUsersUntouched | app/api/bookmarks/toggle/route.ts:15-27 | Every other user's rows are the same, in the same order, after any toggle. |
| Bookmarks.InsertThenDelete | app/api/bookmarks/toggle/route.ts:15-27 | Starting from a table without the pair, an insert followed by a delete gives back the table. |
| Bookmarks.DeleteIdempotent | app/api/bookmarks/toggle/route.ts:17 | Deleting twice is deleting once. |
| Bookmarks.ToggleErrors | app/api/bookmarks/toggle/route.ts:7-33 | A missing session gives 401 "Unauthorized". An unreadable body or a store error gives 500 "Failed to toggle bookmark". Otherwise the answer is 200. |
| Bookmarks.ToggleMembership | app/api/bookmarks/toggle/route.ts:15-30 | After a successful toggle, the pair is in the table exactly when `isBookmarked` was false. |
| Bookmarks.Click | app/directory/page.tsx:59-73 | A click runs the route on the table. The page flips its shown state exactly when the caller is signed in and the store reports no error. On a 401 or a 500 the table and the shown state both stay as they were. |
| Bookmarks.ClientFlagAsWrittenDrifts | app/directory/page.tsx:64 | With the flag as sent, a first click on an unbookmarked applicant shows it as bookmarked, but the table does not hold the pair. |
| Bookmarks.ClientFlagKeepsAgreement | app/api/bookmarks/toggle/route.ts:15-27 | With the flag the route expects, a page that agreed with the table still agrees after a click, whether the store succeeds or fails. |
| Bookmarks.BookmarkTable.HandleToggle | app/api/bookmarks/toggle/route.ts:5-35 | The response and the new rows are those of `Toggle` on the old rows. |
| SignupRoute.Plan | app/api/auth/signup/route.ts:15-49 | A signup writes the auth user first and its `users` row second, with id, email, full name and role, then at most one profile row. |
| SignupRoute.Signup | app/api/auth/signup/route.ts:4-56 | The answer is 400, with nothing written, exactly when the parsed body lacks a required field. A `createUser` error gives 500 with its message and nothing written. Success happens exactly when user creation returns a user and no insert fails. The writes made are always a prefix of the plan, and all of it on success. |
| SignupRoute.MissingFieldsWriteNothing | app/api/auth/signup/route.ts:8-10 | A missing or empty email, password or full name gives 400 and writes nothing. |
| SignupRoute.RoleDispatch | app/api/auth/signup/route.ts:38-49 | "applicant" adds an applicant profile holding only the user id, and "company" a company profile with the company name. Any other role adds nothing. |
| SignupRoute.UsersFailureKeepsAuthUser | app/api/auth/signup/route.ts:28-35 | A failed `users` insert stops before any profile row and returns its message. The auth user is not removed. |
| SignupRoute.ProfileFailureKeepsRows | app/api/auth/signup/route.ts:38-48 | A failed profile insert returns 500 with that insert's message and leaves the auth user and the `users` row. |
| SignupRoute.NoUserCreated | app/api/auth/signup/route.ts:23-25 | A creation that returns no user fails with "Failed to create user" and writes nothing. |
| SignupRoute.CompanyNameUnchecked | app/api/auth/signup/route.ts:43-48 | A company signup with an empty or missing name succeeds and stores that name. |
| SignupRoute.OtherRoleStoredAsSent | app/api/auth/signup/route.ts:28-49 | Any other role, "admin" included, is stored as sent on the `users` row, with no profile row, and the signup succeeds. |
| SignupRoute.Backend.HandleSignup | app/api/auth/signup/route.ts:4-56 | The log grows by exactly the writes of `Signup`, in order, and the response is that of `Signup`. |
| SignupPage.InitialRole | app/auth/signup/page.tsx:21 | A missing or empty parameter gives "applicant". Any other value is kept unchecked. |
| SignupPage.Validate | app/auth/signup/page.tsx:35-41 | The form passes exactly when email, password and full name are non-empty and, for a company, the company name is non-empty too. |
| SignupPage.RequiredFieldsFirst | app/auth/signup/page.tsx:35-37 | A missing required field gives "Please fill in all required fields", whatever the role and the company name. |
| SignupPage.CompanyNameRequired | app/auth/signup/page.tsx:39-41 | With the required fields present and no company name, a company gets "Company name is required" and any other role passes. |
| SignupPage.CompanyNameOnlyForCompany | app/auth/signup/page.tsx:46-52 | The body carries a company name exactly for the role "company", and then the typed one. |
| SignupPage.PageBodyPassesRoute | app/auth/signup/page.tsx:35-52 | A form the page lets through passes the route's required-field check, so the route never answers 400 to it. A company's name arrives non-empty. |
| SignupPage.RejectionMessage | app/auth/signup/page.tsx:57 | The shown message is never empty. |
| SignupPage.RouteErrorShown | app/auth/signup/page.tsx:55-63 | For a refusal, the page shows the route's error if non-empty, else "Failed to sign up". A 400 shows "Missing required fields". |
| SignupPage.Submit | app/auth/signup/page.tsx:29-67 | A request is sent exactly when validation passes, and it carries `RequestBody`. The page moves on exactly when the request was sent and accepted, which is exactly when no error is shown. The error shown is the validation message, `error \|\| "Failed to sign up"` for a rejected request, or the thrown message. |
| SignupPage.SignupForm.HandleSignup | app/auth/signup/page.tsx:29-67 | The body sent, the navigation and the shown error are those of `Submit`. Loading is off at the end, and the role and form are unchanged. |
| SignupPage.SignupForm.SetRole | app/auth/signup/page.tsx:86 | The role takes the chosen value, and nothing else changes. |
| SignupPage.SignupForm.SetForm | app/auth/signup/page.tsx:112 | The form takes the typed values, and nothing else changes. |
| SignupPage.SignupForm.constructor | app/auth/signup/page.tsx:19-27 | The page starts with the initial role, an empty form, no error and not loading. |

## Left out

- `toLowerCase` is ASCII only. Characters outside A–Z are kept as they are, whereas JavaScript also lowercases letters beyond ASCII.
- `trim` works on UTF-16 code units in JavaScript. The model works on Dafny characters over the ECMAScript white-space set.
- AdsList.SumImpressions and AdsList.SumClicks: they add over unbounded integers. The source's `reduce` adds JavaScript numbers, which are doubles, so sums past 2^53 lose precision there and not here.
- `parseInt` uses unbounded integers, with no loss of precision for very long digit strings. A non-string parameter value cannot occur, because query parameters are strings.
- DirectorySearch.Search: the JSON body is not modelled. `yearsExperience: profile?.years_experience || 0` is modelled as null giving 0, which is the same value. `id` stays an option, as the code's optional lookup has it, even though only CVs with a profile reach the projection.
- JavaScript truthiness on non-string JSON values (a number or boolean as email, or a non-boolean `isBookmarked`) is not modelled. The string fields are `Option<string>`, and `isBookmarked` is a boolean.
- A `handleChange` key outside the six personal fields is not modelled. In JavaScript it would add a seventh property, but the page only passes the six field names.
- React's asynchronous state updates and re-renders are not modelled, including a stale `data` prop between two quick updates. Each handler is modelled as acting on the current state at once.
- `Date.now()` ids are parameters, so two entries created in the same millisecond, which would share an id, are not modelled. AddThenRemove requires that the id is unused.
- The store's guarantees are not modelled: uniqueness constraints on bookmarks, and the atomicity of the signup writes. A failed write is modelled as changing nothing.
- Cookie handling in the middleware (`setAll`) is not modelled, nor are the session lookups and `getUserProfile`. Whether a user is signed in and the user's role are inputs, and a failed session lookup is not modelled.
- Rendering is not modelled (titles, descriptions, badges, the disabled End Date input), nor is navigation beyond the "/auth/verify-email" flag. `handleSaveCV` (the save request on the review step) is not modelled.
- The loading flag of the signup page is observed only at the end of `handleSignup`. The intermediate `true` while the request is in flight is not observable in this model.
- The directory page's 300 ms debounce and its other fetches are not modelled. Only `handleBookmark`'s flag and its update of the shown state are modelled.

## Findings

| source | as written | input that shows it | evidently intended | confidence | as-written member | corrected member |
|---|---|---|---|---|---|---|
| app/directory/page.tsx:64 | The page sends `isBookmarked: !isBookmarked`, the state after the click. The route deletes when `isBookmarked` is true (app/api/bookmarks/toggle/route.ts:15-19). | A first click on an applicant that is shown unbookmarked and absent from the table. The route deletes nothing, while the page shows the applicant as bookmarked. | The page sends the current state, so the route removes a bookmark that exists and adds one that does not. | not executed | Bookmarks.ClientFlagAsWrittenDrifts | Bookmarks.ClientFlagKeepsAgreement |

Other behaviour of the code that differs from what a reader might expect, stated as proved properties rather than findings:

- The route does not require a company name (SignupRoute.CompanyNameUnchecked); only the page does.
- Any role, "admin" included, is accepted by the route (SignupRoute.OtherRoleStoredAsSent). The signup page also keeps any `role` query parameter as it is (SignupPage.InitialRole).
- The value stored as `cv_id` in a bookmark is the applicant's profile id, taken from the directory result's `id`.
