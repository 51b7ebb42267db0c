# Portfolio site: a verified model of its logic

This project models the behaviour of a Next.js portfolio site in Dafny. It covers four areas:

- the public pages' filtering and grouping logic;
- the interactive widgets: the testimonial carousel, the navigation bar, the GitHub activity card and the contact form;
- the API routes over the Prisma tables, and the bearer-token authentication in front of the admin routes;
- the database seed script and the IndexNow submission client.

Each source file has one module. The shared vocabulary lives in its own modules:

- `Wrappers`: `Option` and `Result`.
- `Collections`: filter, count, deduplication, a stable insertion sort, and `MapOption`.
- `Text`: ASCII case mapping, substring search, decimal digits and string order.
- `Json`: the string-array and metric-array texts that `JSON.stringify` writes and `JSON.parse` reads.
- `Http`: a JSON response, as a status and a body.
- `Store`: the four Prisma tables as a `Database` class.

What the outside world decides becomes a parameter. That covers:

- what a `fetch` answered, or that it threw;
- whether EmailJS accepted a message;
- the bcrypt and jsonwebtoken libraries;
- the clock, a table that failed to load, and a request body that could not be read.

Components that keep React state become classes, and their handlers become methods with `modifies` clauses. The loops of the source become methods with loop invariants:

- the seed inserts;
- the GitHub contribution map and its day list;
- the in-place skill sort.

Pure decisions and filters become functions with lemmas.

The project filter exists twice, in `app/projects/page.tsx` and `components/sections/Projects.tsx`. Both copies hold the same code (page.tsx 50-97, Projects.tsx 53-100). The `Catalogue` module models that one filter once, and its rows cite the projects page.

## Model

| member | source | states |
|---|---|---|
| PortfolioTypes.ParseStatus | types/index.ts:10 | a status text is accepted exactly when it is one of the four listed values, and then names that value |
| PortfolioTypes.StatusRoundTrip | types/index.ts:10 | every status is written as one of the four values and reads back as itself |
| PortfolioTypes.ParseDifficulty | types/index.ts:11 | a difficulty text is accepted exactly when it is one of the four listed values |
| PortfolioTypes.DifficultyRoundTrip | types/index.ts:11 | every difficulty is written as one of the four values and reads back as itself |
| PortfolioTypes.ParseProjectCategory | types/index.ts:12 | a project category text is accepted exactly when it is one of the six listed values |
| PortfolioTypes.ProjectCategoryRoundTrip | types/index.ts:12 | every project category is written as one of the six values and reads back as itself |
| PortfolioTypes.ParseSkillCategory | types/index.ts:33 | a skill category text is accepted exactly when it is one of the seven listed values |
| PortfolioTypes.SkillCategoryRoundTrip | types/index.ts:33 | every skill category is written as one of the seven values and reads back as itself |
| PortfolioTypes.ParseTechCategory | types/index.ts:43 | a tech category text is accepted exactly when it is one of the six listed values |
| PortfolioTypes.TechCategoryRoundTrip | types/index.ts:43 | every tech category is written as one of the six values and reads back as itself |
| PortfolioTypes.NoFiltersUnconstrained | types/index.ts:65-72 | the cleared filter state (two empty lists, four empty selections) is the only state with no constraint at all |
| Catalogue.FilteredProjects | app/projects/page.tsx:50-69 | a project is shown iff it matches the search and every filter kind; never more projects than given |
| Catalogue.ProjectMatches | app/projects/page.tsx:50-69 | specified by `FilteredProjects`, `SearchIgnoresCase`, `ChoosingOptionNarrows`, `FirstValueNarrows` and `FurtherValueWidens` |
| Catalogue.UnfilteredKeepsAll | app/projects/page.tsx:50-69 | with no filter and an empty search every project is shown, in order |
| Catalogue.FilteredProjectsInOrder | app/projects/page.tsx:50-69 | the shown projects keep their relative order |
| Catalogue.SearchIgnoresCase | app/projects/page.tsx:52-53 | upper- or lower-casing the search term changes nothing that is shown |
| Catalogue.WithList | app/projects/page.tsx:71-85 | writing a multi-select list sets that list and leaves the other five fields alone |
| Catalogue.WithOption | app/projects/page.tsx:71-85 | writing a single selection sets it and leaves the other five fields alone |
| Catalogue.ToggleValue | app/projects/page.tsx:72-78 | a selected value is removed, every other value kept in its order; an unselected one is appended |
| Catalogue.ToggleTwiceRestores | app/projects/page.tsx:72-78 | toggling an unselected value twice restores the list |
| Catalogue.ChooseOption | app/projects/page.tsx:79-83 | choosing the current value clears the selection; any other value replaces it |
| Catalogue.ApplyFilterChange | app/projects/page.tsx:71-85 | a change toggles the list or chooses the option of its own kind and leaves every other kind unchanged |
| Catalogue.FilterChangeTwiceRestores | app/projects/page.tsx:71-85 | the same change applied twice to an unselected value restores the filter state |
| Catalogue.ChoosingOptionNarrows | app/projects/page.tsx:50-85 | choosing a single-valued filter can only hide projects |
| Catalogue.FirstValueNarrows | app/projects/page.tsx:50-85 | the first value in a multi-select can only hide projects |
| Catalogue.FurtherValueWidens | app/projects/page.tsx:50-85 | a further value in a non-empty multi-select can only show more projects |
| Catalogue.ProjectBrowser.constructor | app/projects/page.tsx:39-48 | the page starts with an empty search, filters closed and no filter, showing every project |
| Catalogue.ProjectBrowser.Visible | app/projects/page.tsx:50-69 | the visible projects are exactly those matching the current search and filters |
| Catalogue.ProjectBrowser.SetSearchTerm | app/projects/page.tsx:196 | typing replaces the search term and nothing else |
| Catalogue.ProjectBrowser.ToggleShowFilters | app/projects/page.tsx:205 | the filter panel button flips the panel and nothing else |
| Catalogue.ProjectBrowser.HandleFilterChange | app/projects/page.tsx:71-85 | the filter state becomes the applied change; search and panel are unchanged |
| Catalogue.ProjectBrowser.ClearFilters | app/projects/page.tsx:87-97 | filters and search are reset and every project is visible again |
| ProjectsPage.AllTech | app/projects/page.tsx:172 | the flattened tech list holds exactly the technologies of some project |
| ProjectsPage.Stats | app/projects/page.tsx:155-172 | the total is the number of projects; completed and featured are the sizes of the completed and featured selections; technologies counts distinct names |
| ProjectsPage.StatsAppend | app/projects/page.tsx:155-167 | one more project adds one to the total, one to completed exactly when its status is completed, one to featured exactly when it is featured |
| ProjectsPage.TechnologiesZeroIff | app/projects/page.tsx:172 | the technology count is zero iff no project lists a technology |
| ProjectsSection.TechBadges | components/sections/Projects.tsx:429-442 | at most four badges, taken from the front; an overflow count appears iff there are more than four, and shown plus overflow is the total |
| ProjectsSection.OverflowLabel | components/sections/Projects.tsx:438-442 | the overflow badge is a `+` followed by decimal digits that read back as the hidden count |
| Proficiency.BandOf | components/sections/Skills.tsx:85-90 | Expert iff at least 90, Advanced iff 80..89, Intermediate iff 70..79, Beginner below 70 |
| Proficiency.BandMonotone | components/sections/Skills.tsx:85-90 | a higher score never falls in a lower band |
| Proficiency.BandLabel | components/sections/Skills.tsx:85-90 | every band has a non-empty label |
| Proficiency.BandPresentationInjective | components/sections/Skills.tsx:85-90 | different bands have different labels and different colours |
| CategoryTabs.NamesMembers | components/sections/Skills.tsx:51 | a name is in `items.map(name)` exactly when some item has it |
| CategoryTabs.DedupNamesCommute | components/sections/Skills.tsx:51 | under a one-to-one naming, deduplicating the names equals naming the deduplicated items |
| CategoryTabs.Tabs | components/sections/Skills.tsx:51 | `all` first, then each category present exactly once, and no other |
| CategoryTabs.TabsInFirstAppearanceOrder | components/sections/Skills.tsx:51 | the tabs after `all` follow the order in which categories first appear |
| CategoryTabs.Selected | components/sections/Skills.tsx:53-55 | the `all` tab shows every item; another tab exactly the items of that category |
| CategoryTabs.SelectedInOrder | components/sections/Skills.tsx:53-55 | the items of a tab keep their order |
| SkillsSection.Categories | components/sections/Skills.tsx:51 | the skill tabs: `all`, then each present category once, no duplicates |
| SkillsSection.FilteredSkills | components/sections/Skills.tsx:53-55 | the skills shown under a tab are exactly those of its category, all of them under `all` |
| SkillsSection.GroupByCategory | components/sections/Skills.tsx:57-63 | a bucket exists exactly for each category present and holds that category's skills in order; the keys come in creation order, which names the same categories in the same order as the tabs after `all` |
| SkillsSection.GroupOrderIsTabOrder | components/sections/Skills.tsx:51-63 | the categories in first-appearance order, by name, are the tabs after `all` |
| SkillsSection.GroupStep | components/sections/Skills.tsx:57-63 | one reduction step keeps the key order, the keys and the bucket contents in step with the skills seen |
| SkillsSection.OrderGrows | components/sections/Skills.tsx:57-63 | a category joins the key order exactly at its first skill |
| SkillsSection.BucketNonEmptyIff | components/sections/Skills.tsx:57-63 | a category's bucket is non-empty exactly when some skill has that category |
| SkillsSection.BucketsGrow | components/sections/Skills.tsx:57-63 | one more skill extends its own category's bucket by that skill and leaves every other bucket as it was |
| SkillsSection.OneBucketPerSkill | components/sections/Skills.tsx:57-63 | each skill lands in its own category's bucket and in no other |
| SkillsSection.BucketSizesCountMembers | components/sections/Skills.tsx:57-63 | the bucket sizes over distinct categories add up to the skills in those categories |
| SkillsSection.AllSkillCategoriesListed | types/index.ts:33 | the seven categories are listed once each |
| SkillsSection.BucketSizesSum | components/sections/Skills.tsx:57-63 | the buckets together hold every skill exactly once |
| SkillsSection.LevelCountsAreBandCounts | components/sections/Skills.tsx:264-276 | the expert, advanced and intermediate counts are the counts of those bands |
| SkillsSection.LevelCountsDisjoint | components/sections/Skills.tsx:264-276 | the three counts add up to the skills at level 70 or above |
| SkillsSection.SortByLevel | components/sections/Skills.tsx:317-318 | the array becomes, in place, the stable sort of its old contents by level: highest first, a permutation, skills of equal level in their original order |
| SkillsSection.SortedByLevel | components/sections/Skills.tsx:317-318 | specified by `SortedByLevelOrdered` and `SortedByLevelStable`: ordered by level, the same skills, each level in data order |
| SkillsSection.InsertByLevelAddsOne | components/sections/Skills.tsx:317-318 | one insertion adds exactly the inserted skill |
| SkillsSection.InsertByLevelOrdered | components/sections/Skills.tsx:317-318 | one insertion keeps a list ordered by level |
| SkillsSection.InsertByLevelKeepsLevelOrder | components/sections/Skills.tsx:317-318 | the inserted skill goes after the skills of its own level; every other level is untouched |
| SkillsSection.InsertByLevelAt | components/sections/Skills.tsx:317-318 | the insertion puts the skill right after the last skill of level at least its own |
| SkillsSection.SortedByLevelOrdered | components/sections/Skills.tsx:317-318 | the sorted list is ordered by level, highest first, and holds the same skills |
| SkillsSection.SortedByLevelStable | components/sections/Skills.tsx:317-318 | the sorted list has each level's skills in their data order (stability) |
| SkillsSection.AtLevelSnoc | components/sections/Skills.tsx:317-318 | one more skill at the end joins the end of its own level's skills |
| SkillsSection.SortStep | components/sections/Skills.tsx:317-318 | inserting the next skill into the sorted prefix is one more step of the sort |
| SkillsSection.SiftStart | components/sections/Skills.tsx:317-318 | before any exchange the skill being inserted sits at its own position |
| SkillsSection.SiftAdvance | components/sections/Skills.tsx:317-318 | moving the skill past a lower-level neighbour keeps every skill it passed below it |
| SkillsSection.SiftShift | components/sections/Skills.tsx:317-318 | one exchange moves the skill being inserted one place left and the passed skill one place right |
| SkillsSection.SiftDone | components/sections/Skills.tsx:317-318 | once the neighbour outranks or ties the skill, the prefix is the insertion |
| SkillsSection.SiftLeft | components/sections/Skills.tsx:317-318 | one insertion step makes the prefix the old prefix with the new skill inserted after every skill it does not outrank, the rest unchanged |
| SkillsSection.SwapAdjacent | components/sections/Skills.tsx:317-318 | one exchange of neighbours swaps exactly those two skills, nothing else changes |
| SkillsSection.SwappedPermutes | components/sections/Skills.tsx:317-318 | exchanging two neighbours keeps the same skills |
| SkillsSection.TopSkills | components/sections/Skills.tsx:317-319 | the first ten (or fewer) of the stable sort by level, so ties at the cut are settled by data order; none below a skill left out; the array sorted in place |
| SkillsSection.HeadOutranksTail | components/sections/Skills.tsx:317-319 | in a list ordered by level, the first ten rank at least as high as every skill after them |
| TechStackSection.Categories | components/sections/TechStack.tsx:50 | `all`, then each tech category present once |
| TechStackSection.FilteredTechStack | components/sections/TechStack.tsx:52-54 | the technologies shown under a tab are exactly those of its category |
| TechStackSection.ExpertBadgeIffExpertLabel | components/sections/TechStack.tsx:214 | the expert badge shows exactly when the proficiency label says Expert |
| TechStackSection.LanguageAndFrameworkCountsDisjoint | components/sections/TechStack.tsx:242-255 | the language and framework/library counts count different items and together at most all |
| TestimonialsSection.NextIndex | components/sections/Testimonials.tsx:60-63 | the next index stays in range and wraps from the last to the first |
| TestimonialsSection.PrevIndex | components/sections/Testimonials.tsx:65-68 | the previous index stays in range and wraps from the first to the last |
| TestimonialsSection.PrevUndoesNext | components/sections/Testimonials.tsx:60-68 | previous after next returns to the same testimonial |
| TestimonialsSection.NextUndoesPrev | components/sections/Testimonials.tsx:60-68 | next after previous returns to the same testimonial |
| TestimonialsSection.Advance | components/sections/Testimonials.tsx:50-58 | any number of autoplay steps keeps the index in range |
| TestimonialsSection.AdvanceWraps | components/sections/Testimonials.tsx:50-58 | k steps move k places forward, modulo the number of testimonials |
| TestimonialsSection.FullCircle | components/sections/Testimonials.tsx:50-58 | as many steps as testimonials come back to the start |
| TestimonialsSection.Carousel.constructor | components/sections/Testimonials.tsx:47-48 | the carousel starts at the first testimonial with autoplay on |
| TestimonialsSection.Carousel.Next | components/sections/Testimonials.tsx:60-63 | moves to the next index and stops autoplay |
| TestimonialsSection.Carousel.Prev | components/sections/Testimonials.tsx:65-68 | moves to the previous index and stops autoplay |
| TestimonialsSection.Carousel.GoTo | components/sections/Testimonials.tsx:70-73 | jumps to the chosen dot and stops autoplay |
| TestimonialsSection.Carousel.AutoPlayTick | components/sections/Testimonials.tsx:50-58 | a tick advances only while autoplay is on |
| TestimonialsSection.RenderStars | components/sections/Testimonials.tsx:95-104 | five stars, the i-th filled iff i is below the rating |
| TestimonialsSection.FilledStars | components/sections/Testimonials.tsx:95-104 | the number of filled stars is the rating clamped to 0..5 |
| NavigationBar.ToggleTheme | components/shared/Navigation.tsx:51-59 | dark goes to light, light to system, anything else to dark |
| NavigationBar.ThreeTogglesCycle | components/shared/Navigation.tsx:51-59 | three toggles bring each of the three themes back |
| NavigationBar.ToggleEntersCycle | components/shared/Navigation.tsx:51-59 | one toggle always lands on one of the three themes |
| NavigationBar.ThemeIcon | components/shared/Navigation.tsx:61-70 | moon iff dark, sun iff light, the monitor otherwise |
| NavigationBar.AtMostOneActive | components/shared/Navigation.tsx:108 | at most one navigation link is highlighted |
| NavigationBar.Header.constructor | components/shared/Navigation.tsx:29-31 | not mounted, menu closed, not scrolled |
| NavigationBar.Header.Mount | components/shared/Navigation.tsx:35-37 | mounting makes the bar render (it renders nothing before) |
| NavigationBar.Header.HandleScroll | components/shared/Navigation.tsx:39-49 | scrolled iff the page is scrolled past the threshold |
| NavigationBar.Header.ToggleThemeClicked | components/shared/Navigation.tsx:51-59 | the theme becomes its toggle |
| NavigationBar.Header.ToggleMenu | components/shared/Navigation.tsx:145 | the mobile menu flips |
| NavigationBar.Header.CloseMenu | components/shared/Navigation.tsx:185 | following a mobile link closes the menu |
| GitHubActivity.ContributionLevel | components/shared/GitHubActivityCard.tsx:116 | a level from 0 to 4, zero exactly for no contributions |
| GitHubActivity.LevelClosedForm | components/shared/GitHubActivityCard.tsx:116 | the level is 4 from seven contributions on, half the count rounded up below that |
| GitHubActivity.LevelMonotone | components/shared/GitHubActivityCard.tsx:116 | more contributions never give a lower level |
| GitHubActivity.LevelColor | components/shared/GitHubActivityCard.tsx:157-166 | the no-activity colour is used exactly outside levels 1..4 |
| GitHubActivity.LevelColorsDistinct | components/shared/GitHubActivityCard.tsx:157-166 | the five levels have five different colours |
| GitHubActivity.RecentContributions | components/shared/GitHubActivityCard.tsx:84-96 | the 30-day contribution count is at most the number of events |
| GitHubActivity.RecentContributionsStep | components/shared/GitHubActivityCard.tsx:84-96 | one more event adds one exactly when it is a contribution type of the last 30 days |
| GitHubActivity.CountOnDayStep | components/shared/GitHubActivityCard.tsx:99-108 | one more event adds one to its own day exactly when it lies in the last week |
| GitHubActivity.BuildContributionMap | components/shared/GitHubActivityCard.tsx:99-108 | the map holds, for each day with events in the last week, their number, and no other day |
| GitHubActivity.BuildDays | components/shared/GitHubActivityCard.tsx:110-123 | seven days, six days ago first, each with its count (0 when absent) and the level of that count |
| GitHubActivity.DayShift | components/shared/GitHubActivityCard.tsx:110-123 | going back i whole days lowers the day number by i |
| GitHubActivity.ShownDaysInsideWindow | components/shared/GitHubActivityCard.tsx:99-123 | every shown day lies inside the week window, so its count is all events of that day |
| GitHubActivity.DayStart | components/shared/GitHubActivityCard.tsx:110-123 | a time lies in the day its day number names |
| GitHubActivity.MockDays | components/shared/GitHubActivityCard.tsx:22-40 | the fallback: seven days with the given counts and their levels |
| GitHubActivity.ErrorMessage | components/shared/GitHubActivityCard.tsx:64-78 | `GitHub API error: ` or `GitHub Events API error: ` followed by the failed status, a thrown Error's own message, or the generic text for anything else thrown |
| GitHubActivity.ErrorMessageNamesStatus | components/shared/GitHubActivityCard.tsx:64-78 | equal status messages come from the same request failing with the same status |
| GitHubActivity.ActivityCard.constructor | components/shared/GitHubActivityCard.tsx:43-49 | zero stats, loading, no error, no days |
| GitHubActivity.ActivityCard.Refresh | components/shared/GitHubActivityCard.tsx:52-155 | no username: nothing changes; a failure: an error, mock days, stats kept; success: the fetched stats and the built days |
| ContactSection.Utf8 | components/sections/Contact.tsx:201-206 | one to four bytes, each below 256, and a single byte exactly for ASCII |
| ContactSection.UpperHexValue | components/sections/Contact.tsx:201-206 | each hex digit written reads back as its value |
| ContactSection.PercentBytesRoundTrip | components/sections/Contact.tsx:201-206 | percent-escaped bytes decode back to those bytes |
| ContactSection.EncodeURIComponentRoundTrip | components/sections/Contact.tsx:201-206 | percent-decoding the encoded text gives its UTF-8 bytes (section 2.1 of RFC 3986) |
| ContactSection.Utf8Decodes | components/sections/Contact.tsx:201-206 | the bytes of an encoded character decode back to its scalar value (section 3 of RFC 3629) |
| ContactSection.Utf8LeadLength | components/sections/Contact.tsx:201-206 | the first byte of an encoded character tells how many bytes it has |
| ContactSection.Utf8StringInjective | components/sections/Contact.tsx:201-206 | different texts have different UTF-8 encodings, so `encodeURIComponent` is one-to-one |
| ContactSection.EncodeURIComponent | components/sections/Contact.tsx:201-206 | specified by `EncodeURIComponentRoundTrip`, `Utf8StringInjective` and `EncodedIsQuerySafe` |
| ContactSection.EncodedIsQuerySafe | components/sections/Contact.tsx:201-206 | the encoded text never holds `&`, `=`, `#`, `?` or a space, so it stays one query value |
| ContactSection.WithField | components/sections/Contact.tsx:145-151 | the named field takes the value and the other three are unchanged |
| ContactSection.WithFieldRestores | components/sections/Contact.tsx:145-151 | writing back the old value restores the form |
| ContactSection.EmailJsTriedWhenMounted | components/sections/Contact.tsx:33-35 | the placeholder keys are non-empty, so EmailJS is tried exactly when the form element exists |
| ContactSection.Attempts | components/sections/Contact.tsx:165-210 | EmailJS first when configured, the API route unless EmailJS succeeded, the mailto link last and only when both failed |
| ContactSection.AttemptsDistinct | components/sections/Contact.tsx:165-210 | no channel is tried twice |
| ContactSection.MailSubject | components/sections/Contact.tsx:202-203 | the given subject, or the default one; never empty |
| ContactSection.MailBodyQuotesFields | components/sections/Contact.tsx:204-205 | the mail body contains the name, the e-mail address and the message |
| ContactSection.MailtoLink | components/sections/Contact.tsx:201-207 | specified by `MailSubject`, `EncodedSubjectIsEncoding` and `MailBodyQuotesFields`: the encoded subject and the encoded body as its two query values |
| ContactSection.EncodedSubject | components/sections/Contact.tsx:203-205 | specified by `EncodedSubjectIsEncoding` |
| ContactSection.EncodedSubjectIsEncoding | components/sections/Contact.tsx:203-205 | the subject query value is the encoding of the subject, or of `Contact Form Submission` when the subject is empty |
| ContactSection.EncodedDefaultSubjectIsEncoding | components/sections/Contact.tsx:203-205 | the default subject encodes to `Contact%20Form%20Submission` |
| ContactSection.EncodeConcat | components/sections/Contact.tsx:201-206 | encoding distributes over concatenation |
| ContactSection.EncodeUnreserved | components/sections/Contact.tsx:201-206 | a text of unreserved characters encodes to itself |
| ContactSection.EncodeSpace | components/sections/Contact.tsx:201-206 | a space is written `%20` |
| ContactSection.EncodeJoined | components/sections/Contact.tsx:201-206 | unreserved words joined by a separator encode as the words joined by the separator's encoding |
| ContactSection.ContactPage.constructor | components/sections/Contact.tsx:135-143 | an empty form, not submitting, not submitted |
| ContactSection.ContactPage.HandleInputChange | components/sections/Contact.tsx:145-151 | the form takes the typed field and nothing else changes |
| ContactSection.ContactPage.HandleSubmit | components/sections/Contact.tsx:153-230 | missing required fields: an error toast and the form kept; otherwise the channels in order, the mailto page when all fail, the form reset, the success toast; never left submitting |
| ContactSection.ContactPage.Deliver | components/sections/Contact.tsx:163-215 | with the required fields present: the channels in the order `Attempts` gives, the mailto page exactly when both others failed, then the form cleared, `isSubmitted` set and the success toast |
| Auth.HashedPasswordVerifies | lib/auth.ts:4-10 | a stored hash verifies against the password it was made from |
| Auth.HashPassword | lib/auth.ts:4-6 | specified by `HashedPasswordVerifies` |
| Auth.VerifyToken | lib/auth.ts:16-22 | a token is accepted iff it decodes with the secret and the current whole second is before its expiry, and then gives its payload |
| Auth.TokenValidFor24Hours | lib/auth.ts:12-22 | an issued token verifies exactly until the second 24 hours after its second of issue, for the user it was issued to: still 23:59:59 after issue, never from 24 hours after |
| Auth.GenerateToken | lib/auth.ts:12-14 | specified by `TokenValidFor24Hours` and `LoginTokenAuthenticates` |
| Auth.SecondsMonotone | lib/auth.ts:12-22 | the library's whole-second clock never runs backwards |
| Auth.SecondsShift | lib/auth.ts:12-22 | `k` seconds later on the millisecond clock is `k` more whole seconds |
| Auth.GetAuthFromRequest | lib/auth.ts:24-39 | authenticated iff the header starts with `Bearer ` and the rest verifies, and then with that payload |
| Auth.BearerRoundTrip | lib/auth.ts:24-39 | a `Bearer ` header carries exactly the token's verification result |
| Auth.LowerCaseSchemeRejected | lib/auth.ts:27 | a lower-case `bearer` scheme is never accepted |
| Auth.LoginTokenAuthenticates | lib/auth.ts:12-39 | a freshly issued token, sent as a bearer header, authenticates its user |
| Store.FindUserByEmail | prisma/seed.ts:11-13 | nothing exactly when no user has the address; otherwise a user of the table with it |
| Store.Database.constructor | prisma/seed.ts:4 | every table is empty |
| Store.Database.CreateProject | app/api/admin/projects/route.ts:63-65 | appends the row with a fresh id and the creation time; other tables unchanged |
| Store.Database.CreateSkill | app/api/admin/skills/route.ts:37-43 | appends the row with a fresh id; other tables unchanged |
| Store.Database.CreateMessage | app/api/contact/route.ts:16-23 | appends an unread message with a fresh id and the creation time; other tables unchanged |
| Store.Database.CreateUser | prisma/seed.ts:15-25 | appends the user with a fresh id; other tables unchanged |
| VerifyRoute.Get | app/api/admin/verify/route.ts:6-17 | 200 with the token's user iff the request authenticates, 401 `Unauthorized` otherwise |
| VerifyRoute.FreshTokenVerifies | app/api/admin/verify/route.ts:6-17 | a token is answered 200 with its user before the whole second 24 hours after its second of issue |
| VerifyRoute.ExpiredTokenRefused | app/api/admin/verify/route.ts:6-17 | a token 24 hours (in milliseconds) old or older is answered 401 |
| AdminLayout.AnsweredUser | app/admin/layout.tsx:71-81 | a user comes back exactly from an answer with a JSON user body |
| AdminLayout.LoginError | app/admin/layout.tsx:48-51 | the thrown message is the server's error when given, the default otherwise, and never empty |
| AdminLayout.UseAuth | app/admin/layout.tsx:24-30 | the context when inside the provider, the provider error otherwise |
| AdminLayout.Session.constructor | app/admin/layout.tsx:37-38 | no user, loading |
| AdminLayout.Session.Render | app/admin/layout.tsx:90-119 | a spinner iff loading, then the login screen iff nobody is signed in |
| AdminLayout.Session.Login | app/admin/layout.tsx:41-56 | success stores the token and signs the user in; failure throws and changes nothing |
| AdminLayout.Session.Logout | app/admin/layout.tsx:58-62 | forgets token and user and routes to the admin page, which then shows the login screen |
| AdminLayout.Session.Mount | app/admin/layout.tsx:64-88 | no token: nothing but loading ends; a token: signed in when the check answers a user, else the token is dropped |
| AdminLayout.MountAgreesWithVerifyRoute | app/admin/layout.tsx:64-88 | the mount check signs in exactly when the verify route accepts the stored token, as its user |
| ProjectRecords.PublishedIsMeaning | app/api/admin/projects/route.ts:11 | no parameter selects all rows, `true` the published ones, any other value the unpublished ones |
| ProjectRecords.ProjectOrderTotal | app/api/admin/projects/route.ts:12 | the order (ascending `order`, then newest first) compares every two rows and is transitive |
| ProjectRecords.ProjectOrder | app/api/admin/projects/route.ts:12 | specified by `ProjectOrderTotal` and `ListingOrdered` |
| ProjectRecords.Listing | app/api/admin/projects/route.ts:10-13 | the listing is a permutation of the selected rows |
| ProjectRecords.ListingOrdered | app/api/admin/projects/route.ts:10-13 | the listing holds exactly the selected rows, sorted by `order` and then newest first |
| ProjectRecords.EmptyColumnDecodes | app/api/admin/projects/route.ts:16-26 | a missing or empty column reads as the empty array |
| ProjectRecords.ColumnRoundTrip | app/api/admin/projects/route.ts:51-61 | a written column reads back as the written array, or as empty when the field was absent |
| ProjectRecords.DecodeArrays | app/api/admin/projects/route.ts:16-26 | the row decodes iff all eight columns do |
| ProjectRecords.DecodeIgnoresBookkeeping | app/api/admin/projects/route.ts:16-26 | decoding reads only the array columns, never the id or the creation time |
| AdminProjectsRoute.DecodeRow | app/api/admin/projects/route.ts:16-26 | a listed project keeps the row and carries its decoded arrays |
| AdminProjectsRoute.Get | app/api/admin/projects/route.ts:5-36 | 500 iff the table fails or some listed row does not decode; otherwise the listing in order, decoded |
| AdminProjectsRoute.ToRowRoundTrip | app/api/admin/projects/route.ts:51-65 | a stored row decodes to exactly the arrays that were posted |
| AdminProjectsRoute.ToRowKeepsScalars | app/api/admin/projects/route.ts:51-61 | the body's scalar fields pass into the row unchanged |
| AdminProjectsRoute.ToRow | app/api/admin/projects/route.ts:51-61 | specified by `ToRowRoundTrip` and `ToRowKeepsScalars` |
| AdminProjectsRoute.Post | app/api/admin/projects/route.ts:38-75 | 401 and no write without a valid token; 500 and no write for an unreadable body; otherwise one new row built from the body |
| AdminProjectsRoute.GetOkIff | app/api/admin/projects/route.ts:5-36 | the listing succeeds exactly when every selected row decodes |
| AdminProjectsRoute.GetListsRow | app/api/admin/projects/route.ts:5-36 | a successful listing contains every selected row, decoded |
| AdminProjectsRoute.PostThenGet | app/api/admin/projects/route.ts:5-75 | a posted project is listed afterwards with exactly the posted arrays |
| ProjectsRoute.PublishHidesBookkeeping | app/api/projects/route.ts:12-36 | the public shape does not depend on `published`, `order` or `createdAt` |
| ProjectsRoute.PublishKeepsFields | app/api/projects/route.ts:12-36 | every other field of the row shows in the public shape |
| ProjectsRoute.Publish | app/api/projects/route.ts:12-36 | specified by `PublishHidesBookkeeping` and `PublishKeepsFields` |
| ProjectsRoute.PublishRow | app/api/projects/route.ts:12-36 | a row is published iff its columns decode |
| ProjectsRoute.Get | app/api/projects/route.ts:4-46 | only published rows, in listing order, projected; 500 when the table or a column fails |
| ProjectsRoute.PublicIsProjectedAdminListing | app/api/projects/route.ts:4-46 | the public list is the admin list for `published=true`, projected, failing together with it |
| ContactRoute.SubjectOrEmpty | app/api/contact/route.ts:20 | the given subject, or the empty one |
| ContactRoute.Post | app/api/contact/route.ts:4-33 | 500 for an unreadable body, 400 and no write when name, e-mail or message is missing, otherwise one unread message is stored |
| ContactRoute.Get | app/api/contact/route.ts:35-53 | 500 iff the table fails; otherwise the selected messages, newest first |
| ContactRoute.GetListsSelectedNewestFirst | app/api/contact/route.ts:35-53 | the listing holds exactly the selected messages, newest first |
| ContactRoute.PostedMessageListedUnread | app/api/contact/route.ts:4-53 | a posted message is listed under `read=false` |
| AdminSkillsRoute.SkillOrderTotal | app/api/admin/skills/route.ts:14 | the order (ascending `order`, then by name in code-point order) compares every two skills and is transitive |
| AdminSkillsRoute.SkillOrder | app/api/admin/skills/route.ts:14 | specified by `SkillOrderTotal` and `SkillListingOrdered` |
| AdminSkillsRoute.SkillListing | app/api/admin/skills/route.ts:12-15 | the listing is a permutation of the selected skills |
| AdminSkillsRoute.SkillListingOrdered | app/api/admin/skills/route.ts:12-15 | the listing holds exactly the selected skills, by `order` and then by name in code-point order |
| AdminSkillsRoute.Get | app/api/admin/skills/route.ts:7-25 | 500 iff the table fails; otherwise the listing |
| AdminSkillsRoute.Post | app/api/admin/skills/route.ts:27-51 | 401 and no write without a valid token; 500 for an unreadable body; otherwise the skill is stored |
| AdminSkillsRoute.PostedSkillListed | app/api/admin/skills/route.ts:7-51 | a posted skill appears in the unfiltered listing |
| SkillsRoute.Get | app/api/skills/route.ts:4-19 | 500 iff the table fails; otherwise the published skills |
| SkillsRoute.PublishedSkillsInOrder | app/api/skills/route.ts:4-19 | the public list is the admin list for `published=true`: exactly the published skills, ordered by `order` then by name in code-point order |
| Seed.OrDefault | prisma/seed.ts:8-9 | a set, non-empty variable is used, the fallback otherwise |
| Seed.SeedAdmin | prisma/seed.ts:11-30 | the admin is created with the hashed password only when no user has the address; afterwards one has |
| Seed.SeedProjects | prisma/seed.ts:32-105 | into an empty table, the demo projects in order with fresh ids and the run's time; a non-empty table is untouched |
| Seed.SeedSkills | prisma/seed.ts:107-166 | into an empty table, the demo skills in order with fresh ids; a non-empty table is untouched |
| Seed.RunSeed | prisma/seed.ts:6-167 | one run: the three steps, leaving the admin present and both demo tables non-empty |
| Seed.RunSeedTwice | prisma/seed.ts:6-167 | a second run leaves every table exactly as the first left it |
| Seed.AdminPasswordVerifies | prisma/seed.ts:15-25 | the seeded admin can log in with the configured password |
| Seed.EcommerceDemoDecodes | prisma/seed.ts:37-77 | the first demo project's stored columns decode to the listed arrays, the missing gallery to an empty one |
| Seed.AnalyticsDemoDecodes | prisma/seed.ts:78-95 | the second demo project's columns decode, its NULL case-study columns to empty arrays |
| Seed.SeededProjectsDecode | prisma/seed.ts:98-102 | every seeded project row is readable by the project routes, whatever id and time it was given |
| IndexNow.SubmissionSucceedsIff | lib/indexnow.ts:23-36 | single and bulk submission succeed exactly on 200 or 202, never on an exception |
| IndexNow.SubmitUrl | lib/indexnow.ts:14-37 | specified by `SubmissionSucceedsIff`, `QueryNamesUrl` and `SingleRequestNamesUrl` |
| IndexNow.SubmitBulk | lib/indexnow.ts:44-73 | specified by `SubmissionSucceedsIff` and `BulkRequestBody` |
| IndexNow.BulkRequestBody | lib/indexnow.ts:46-51 | the bulk body carries the host, the key, the key location under the host and exactly the given URLs |
| IndexNow.QueryNamesUrl | lib/indexnow.ts:16 | whatever the endpoint and key, equal query requests carry the same URL: the submitted URL is determined by the request |
| IndexNow.SingleRequestNamesUrl | lib/indexnow.ts:16 | different URLs never give the same IndexNow request |
| IndexNow.PortfolioUrls | lib/indexnow.ts:79-93 | nine distinct URLs, the home page first, all on `https://` and the site's host |
| IndexNow.SubmitAllSendsPortfolio | lib/indexnow.ts:99-102 | the bulk submission of all pages lists exactly the nine portfolio URLs |
| IndexNow.TrackAndSubmit | lib/indexnow.ts:109-113 | a request is sent exactly for `update` and `create`, and it is the single-URL request |
| IndexNow.DefaultActionNeverSubmits | lib/indexnow.ts:109-113 | the default action `view` never submits |
| IndexNow.SpacedApart | lib/indexnow.ts:126-143 | accepted submissions k apart in the history are at least k seconds apart |
| IndexNow.RateLimiter.constructor | lib/indexnow.ts:126 | no submission yet, the last time is 0 |
| IndexNow.RateLimiter.RateLimitedSubmit | lib/indexnow.ts:134-143 | refused with no request less than 1000 ms after the last accepted call; otherwise the time is recorded before the request, whatever it comes to |
| Json.StringArrayRoundTrip | app/api/admin/projects/route.ts:16-61 | `JSON.parse` reads back the string array `JSON.stringify` wrote |
| Json.MetricArrayRoundTrip | app/api/admin/projects/route.ts:16-61 | `JSON.parse` reads back the metric array `JSON.stringify` wrote |
| Text.LowerIdempotent | app/projects/page.tsx:52-53 | lower-casing twice is lower-casing once |
| Text.LowerOfUpper | app/projects/page.tsx:52-53 | lower-casing an upper-cased text is lower-casing the text |
| Text.NatToStringRoundTrip | components/sections/Projects.tsx:438-442 | a count written in decimal reads back as the count |
| Text.StringLeTotal | app/api/admin/skills/route.ts:14 | any two names compare one way or the other |
| Text.StringLeTransitive | app/api/admin/skills/route.ts:14 | the name order is transitive |
| Collections.SortBySorted | app/api/admin/projects/route.ts:12 | sorting by a total preorder gives a sorted sequence |
| Collections.SortBy | app/api/admin/projects/route.ts:12 | sorting permutes its input |
| Collections.MapOption | app/api/admin/projects/route.ts:16-26 | the map succeeds iff every element does, and then holds each element's result in place |
| Collections.MapOptionMembers | app/api/admin/projects/route.ts:16-35 | the map fails exactly when some member fails, which is when the route answers 500 |
| Collections.DedupCountsDistinct | app/projects/page.tsx:172 | `Array.from(new Set(...))` has as many entries as there are distinct values |
| Collections.DedupFirstAppearanceOrder | components/sections/Skills.tsx:51 | a deduplicated list keeps first appearances in order |

## Left out

- Unicode case mapping: `toLowerCase` is modelled on ASCII letters only; other characters are left as they are.
- JSON: only the two shapes the routes store are read: arrays of strings, and arrays of `{label, value}` objects in that key order. A column holding other valid JSON is treated as unreadable, so the route answers 500 where the source might not. This includes a string written with `\u` escapes in the surrogate range `\uD800`–`\uDFFF`, which `Json.Unescape` rejects and `JSON.parse` reads as UTF-16 code units (a high and low pair as one character, a lone escape as one lone code unit). `JSON.stringify` writes such escapes only for lone surrogates, which a JavaScript string can hold and a Dafny string cannot, so the round trips cover every string the model can express.
- Lone surrogates: strings are modelled as sequences of Unicode scalar values (Dafny's `char`), so inputs holding a lone UTF-16 surrogate are outside the model. A request body such as `{"tags":["\ud800"]}` is stored by the source and read back with 200, where the model's reader would answer 500. `encodeURIComponent` throwing `URIError` on such strings (components/sections/Contact.tsx:201-206, lib/indexnow.ts:16) is not modelled either.
- The IndexNow bulk body is modelled as its four fields; its JSON text is not.
- Dates: every clock parameter is `Date.now()`, a millisecond integer, and days are `t / 86400000` in UTC. The JWT claims `iat` and `exp` are whole seconds, `Auth.Seconds(now)`, as jsonwebtoken computes them. Local time zones and ISO date strings are not modelled. Date formatting and `toLocaleDateString` are left out.
- AdminSkillsRoute.SkillOrder: names are compared by code point (`Text.StringLe`). The database compares them by its collation, which may order skills of equal `order` differently (a locale collation lists "jQuery" before "React"); `AdminSkillsRoute.SkillListingOrdered` and `SkillsRoute.PublishedSkillsInOrder` state the code-point order.
- AdminSkillsRoute.SkillListingOrdered: the name tie-break is stated in code-point order, not the database's collation (see the line above).
- SkillsRoute.PublishedSkillsInOrder: the same code-point name tie-break.
- AdminProjectsRoute.Post and AdminSkillsRoute.Post: the request body is taken to carry every non-null column (`featured`, `published`, `order`, `status`, `year`, `level` and the rest). The source passes whatever JSON arrived to `create`, so a body that leaves a column out and relies on the schema default is not modelled.
- Ties in Prisma's `orderBy`: the model sorts stably by the given keys. The database may break ties between equal keys in another order.
- Colour and icon switches that only style markup are left out. The exceptions are the band and contribution-level colours, which are modelled.
- Averages, `Math.round` and other floating point are left out, as are non-integer ratings and scroll offsets.
- Library internals become parameters: `fetch`, EmailJS, bcrypt and jsonwebtoken. For bcrypt and jsonwebtoken, only the one property each relies on is assumed, as a precondition of the lemmas that use it.
- Auth.VerifyPassword: bcrypt's comparison is the library's; only "a hash of p verifies p" is assumed.
- The JWT claims: the decoded payload is taken to be the user, the issue time and the expiry. jsonwebtoken's other checks (`nbf`, algorithms) are not modelled.
- Prisma `cuid()` ids are natural numbers from a counter. The database schema is not part of this model, so the defaults for columns a write leaves out are assumed: an optional column left out is NULL (`images` of both demo projects; `longDescription`, `liveUrl`, `githubUrl`, `challenges`, `solutions`, `results` and `metrics` of the second; `icon` of every seeded skill); a contact message is stored with `read` false and the request time as `createdAt`; a project's `createdAt` is the time of the write.
- Store.Database: writes always succeed. Reads are given as `Option` tables, where `None` means the query threw.
- `request.json()` failing is a `None` body. `console` logging, toast rendering and the `gtag` call are left out.
- GitHubActivity.ActivityCard.Refresh: one call of the fetch effect. The 10-minute refresh interval and the unmount clean-up are not modelled.
- ContactSection.EncodeURIComponentRoundTrip: decoding is proved back to UTF-8 bytes, not back to characters; `ContactSection.Utf8StringInjective` shows the bytes determine the text, but no UTF-8 decoder for whole texts is written.
- AdminLayout.Session.Mount: the user kept is the payload's user fields; the token's `iat` and `exp` are dropped.
- Skill level and tech proficiency are documented as 1..100 (`PortfolioTypes.InPercentRange`), but nothing in the source enforces that range, so no operation requires it.
- TestimonialsSection.Carousel.constructor: requires at least one testimonial. The site's list is a non-empty constant; with none, the source's modulo arithmetic would give `NaN`.
- Animation, parallax, cursor and background components are not part of this model. They are visual only.
- The admin pages that only fetch and render are not part of this model, and neither are the SEO helpers or the scripts.
