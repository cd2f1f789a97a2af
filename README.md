# CareerConnect, modelled in Dafny

CareerConnect is a job board. Its back end is an ASP.NET Core application over an Entity
Framework Core database. The database holds companies, categories, jobs, tags, the job–tag
links, users and applications. The back end has repositories over that database, a unit of
work that saves changes, services that map entities to DTOs, an authentication controller,
an exception-handling middleware and a demo-data seeder. Its front end is a React
application. This project models the front end's HTTP client (`api.ts`), its job-search
page (`Jobs.tsx`) and its sign-in context (`AuthContext.tsx`).

The model has one Dafny module per source component:

| module | file | models |
|---|---|---|
| `Wrappers`, `Text`, `Seqs` | `wrappers.dfy`, `text.dfy`, `seqs.dfy` | `Option`/`Result`; ASCII lower-casing, substring search and integer formatting; filter, skip/take paging and a stable sort proved against its specification |
| `Entities` | `entities.dfy` | the entity records of the domain |
| `DbContext` | `db_context.dfy` | the database as a value (`Store`): keys, foreign keys, unique indexes and column lengths as `Valid`; the cascade, set-null and restrict delete rules; `SaveChanges` as the commit that accepts a valid store or raises a database-update error; the `UnitOfWork` class holding the store |
| `JobRepository`, `CompanyRepository`, `CategoryRepository`, `TagRepository`, `ApplicationRepository` | `*_repository.dfy` | the repositories' queries as functions of the store, including their includes, filters, orderings and paging |
| `JobService`, `CompanyService`, `CategoryService`, `StatisticsService`, `AuthService` | `*_service.dfy` | the services: DTO mapping, the "time ago" phrase, create/update/delete as an outcome (result and new store), and `UnitOfWork` methods that perform them |
| `AuthController`, `Exceptions`, `ExceptionMiddleware` | `auth_controller.dfy`, `exceptions.dfy`, `exception_middleware.dfy` | the HTTP status of each authentication answer, the token's user id, and the mapping of each exception to its status and message |
| `DbSeeder` | `db_seeder.dfy` | the seeder, over any seed data, with stage-by-stage saves; its idempotence; facts about the demo data |
| `Api` | `api.dfy` | `URLSearchParams` as a list of pairs; the jobs and companies query strings; the authentication calls and how each one turns a fetch into an answer |
| `JobsPage` | `jobs_page.dfy` | the filter toggles, the filter count, the page window and the page buttons of the job-search page, as a `Page` class |
| `AuthContext` | `auth_context.dfy` | the sign-in provider as a `Provider` class over the browser's storage |

Changes of state are modelled where the source makes them:

- The unit of work (`DbContext.UnitOfWork`) holds the store. The service methods change it only through `SaveChanges`.
- The React state of the jobs page and of the provider are class fields. Each method is one settled step.

Every such method is specified by a function of the old state, or it states the new state
outright. The lemmas beside the functions prove what the source promises:

- the round trips of create and update;
- the job search's filters, order and paging;
- the delete rules preserving validity;
- registration followed by login succeeding, provided the repository's e-mail match treats the lower-cased address as the address given;
- the seeder being idempotent;
- the query strings carrying each filter;
- the page window staying within range.

## Model

| member | source | states |
|---|---|---|
| TagRepository.TagByNameProps | CareerConnectAPI/CareerConnect.Infrastructure/Repositories/TagRepository.cs:14-17 | a tag found by `GetByNameAsync` is stored and equals the argument once both are lower-cased; nothing is found exactly when no stored tag matches that way |
| TagRepository.TagByOwnName | CareerConnectAPI/CareerConnect.Infrastructure/Repositories/TagRepository.cs:14-17 | a stored tag's own name always finds a tag, one whose name differs from it at most in case |
| TagRepository.PopularTagsProps | CareerConnectAPI/CareerConnect.Infrastructure/Repositories/TagRepository.cs:19-26 | exactly `count` tags, or all of them when fewer are stored (none for a count of 0 or less), each a stored tag with exactly its job links, in non-increasing number of links; no tag left out has more links than one kept |
| TagRepository.PopularTagsLoaded | CareerConnectAPI/CareerConnect.Infrastructure/Repositories/TagRepository.cs:19-26 | each popular tag is a stored tag loaded with exactly its job links |
| CategoryRepository.ByNameTotal | CareerConnectAPI/src/CareerConnect.Infrastructure/Repositories/CategoryRepository.cs:18 | ordering categories by name is a total preorder, so the sort is well defined |
| CategoryRepository.CategoriesWithJobCountProps | CareerConnectAPI/src/CareerConnect.Infrastructure/Repositories/CategoryRepository.cs:14-20 | every stored category comes back once per row, sorted by name, each holding exactly its active jobs, whose number is its active-job count |
| ApplicationRepository.ApplicationsForJobProps | CareerConnectAPI/CareerConnect.Infrastructure/Repositories/ApplicationRepository.cs:14-21 | exactly the applications for the job (a permutation of them), latest first, each with its applicant loaded |
| ApplicationRepository.ApplicationsOfUserProps | CareerConnectAPI/CareerConnect.Infrastructure/Repositories/ApplicationRepository.cs:23-31 | exactly the user's applications (a permutation of them), latest first, each with its job loaded |
| ApplicationRepository.ApplicationOfUserForJobProps | CareerConnectAPI/CareerConnect.Infrastructure/Repositories/ApplicationRepository.cs:33-41 | the lookup returns a stored application with both ids or nothing; it returns one iff `HasUserAppliedAsync` is true; in a valid store it is the only such application |
| StatisticsService.StatisticsProps | CareerConnectAPI/src/CareerConnect.Application/Services/StatisticsService.cs:16-30 | active jobs and companies are counted as stored; job seekers and verified companies are counted when there is at least one and are 15000 and 50 otherwise, so both are always positive |
| StatisticsService.NoActiveJobs | CareerConnectAPI/src/CareerConnect.Application/Services/StatisticsService.cs:18 | a store without active jobs reports zero active jobs |
| JobRepository.TagsOfLinks | CareerConnectAPI/CareerConnect.Infrastructure/Repositories/JobRepository.cs:19-20 | the tags behind a job's links are stored tags, each named by some link, and every link whose tag exists contributes its tag |
| JobRepository.JobsOfLoaded | CareerConnectAPI/CareerConnect.Infrastructure/Repositories/JobRepository.cs:54-56 | loading a job's company and tags keeps the job rows themselves unchanged and in order |
| JobRepository.OrdersTotal | CareerConnectAPI/CareerConnect.Infrastructure/Repositories/JobRepository.cs:35-113 | newest-first, featured-then-newest and child `Order` are total preorders, so each sort is well defined |
| JobRepository.BuiltIsStage | CareerConnectAPI/CareerConnect.Infrastructure/Repositories/JobRepository.cs:57-107 | the chain of conditional `Where` calls after the active filter keeps exactly the jobs meeting the conjunction of the steps applied so far |
| JobRepository.BuiltUnfold | CareerConnectAPI/CareerConnect.Infrastructure/Repositories/JobRepository.cs:60-107 | each step of the chain adds its `Where` only when its parameter is given |
| JobRepository.StageUnfold | CareerConnectAPI/CareerConnect.Infrastructure/Repositories/JobRepository.cs:60-107 | each step's condition is the previous steps' condition and, when the step applies, its own |
| JobRepository.StagesAreMatches | CareerConnectAPI/CareerConnect.Infrastructure/Repositories/JobRepository.cs:57-107 | all seven steps together are the search criteria as one conjunction |
| JobRepository.FilteredIsConjunction | CareerConnectAPI/CareerConnect.Infrastructure/Repositories/JobRepository.cs:57-107 | the query keeps, in table order, exactly the active jobs matching every given criterion: a non-blank lower-cased query in title, description, company name or some tag name; the single location or any array location; job type equality; membership in the type and level arrays; category and company equality |
| JobRepository.SearchHits | CareerConnectAPI/CareerConnect.Infrastructure/Repositories/JobRepository.cs:57-107 | a job is a hit iff it is stored and matches every given criterion |
| JobRepository.SearchReturnsActive | CareerConnectAPI/CareerConnect.Infrastructure/Repositories/JobRepository.cs:57-116 | every job returned by a search is active and is a hit |
| JobRepository.UnsetFiltersFilterNothing | CareerConnectAPI/CareerConnect.Infrastructure/Repositories/JobRepository.cs:60-74 | a null or white-space query, and the absence of both location filters, filter nothing |
| JobRepository.SearchCounts | CareerConnectAPI/CareerConnect.Infrastructure/Repositories/JobRepository.cs:109-116 | `totalCount` is the number of hits before paging; the page holds at most `pageSize` jobs and no more than `totalCount` |
| JobRepository.SearchPage | CareerConnectAPI/CareerConnect.Infrastructure/Repositories/JobRepository.cs:111-116 | the page is the run at the offset (`Offset`) of the hits sorted featured first then newest, a permutation of the hits; at an offset inside the hits it holds `pageSize` jobs or the rest of the hits (`Seqs.PageLength`); past the end it is empty with the total unchanged; the page is itself sorted |
| JobRepository.OffsetUnwrapped | CareerConnectAPI/CareerConnect.Infrastructure/Repositories/JobRepository.cs:114 | the offset is `(page - 1) * pageSize` in 32-bit arithmetic: the product itself when it fits, otherwise the product wrapped into the `int` range |
| JobRepository.SearchLoadsCompanyAndTags | CareerConnectAPI/CareerConnect.Infrastructure/Repositories/JobRepository.cs:53-56 | every returned job carries its own company and exactly its tags |
| JobRepository.FeaturedJobsProps | CareerConnectAPI/CareerConnect.Infrastructure/Repositories/JobRepository.cs:28-38 | exactly `count` jobs, or all featured active jobs when fewer exist, each stored, featured and active, newest first, drawn from the featured active jobs; no featured active job left out is newer than one kept |
| JobRepository.JobsByCompanyProps | CareerConnectAPI/CareerConnect.Infrastructure/Repositories/JobRepository.cs:121-130 | exactly the active jobs of the company, as a permutation, newest first |
| JobRepository.JobsByCategoryProps | CareerConnectAPI/CareerConnect.Infrastructure/Repositories/JobRepository.cs:132-141 | exactly the active jobs of the category, as a permutation, newest first |
| JobRepository.ChildrenOfProps | CareerConnectAPI/CareerConnect.Infrastructure/Repositories/JobRepository.cs:21-23 | each loaded child list holds exactly the job's rows of that table, sorted by `Order` |
| JobRepository.JobWithDetailsProps | CareerConnectAPI/CareerConnect.Infrastructure/Repositories/JobRepository.cs:14-26 | a job is found iff its id is stored, it is the job with that id, and in a valid store it comes with its company and category |
| CompanyRepository.WithActiveJobsProps | CareerConnectAPI/src/CareerConnect.Infrastructure/Repositories/CompanyRepository.cs:17-70 | a company's loaded jobs are exactly its active jobs in table order, each pointing back to the company |
| CompanyRepository.CompaniesOfLoaded | CareerConnectAPI/src/CareerConnect.Infrastructure/Repositories/CompanyRepository.cs:31-33 | loading the jobs keeps the company rows unchanged and in order |
| CompanyRepository.OrdersTotal | CareerConnectAPI/src/CareerConnect.Infrastructure/Repositories/CompanyRepository.cs:58-73 | verified-then-rating and the top-companies order are total preorders |
| CompanyRepository.FilteredIsConjunction | CareerConnectAPI/src/CareerConnect.Infrastructure/Repositories/CompanyRepository.cs:35-53 | the query keeps, in table order, exactly the companies matching every given filter: the lower-cased query in name, description or industry; exact case-sensitive industry; lower-cased location substring |
| CompanyRepository.SearchCompaniesPage | CareerConnectAPI/src/CareerConnect.Infrastructure/Repositories/CompanyRepository.cs:55-64 | `totalCount` is the number of hits before paging; the page is the run at offset `(page-1)*pageSize` of the hits sorted verified first then by rating (a permutation of the hits); at an offset inside the hits it holds `pageSize` companies or the rest (`Seqs.PageLength`); empty past the end |
| CompanyRepository.SearchCompaniesHits | CareerConnectAPI/src/CareerConnect.Infrastructure/Repositories/CompanyRepository.cs:31-53 | every returned company is stored, matches the filters and carries only its own active jobs |
| CompanyRepository.TopCompaniesProps | CareerConnectAPI/src/CareerConnect.Infrastructure/Repositories/CompanyRepository.cs:67-76 | exactly `count` companies, or all of them when fewer are stored, sorted by verified, rating and active-job count, all descending, each a stored company with exactly its active jobs; no company left out ranks above one kept |
| CompanyRepository.CompanyWithJobsProps | CareerConnectAPI/src/CareerConnect.Infrastructure/Repositories/CompanyRepository.cs:14-21 | a company is found iff its id is stored; it comes with exactly its active jobs, each with its tags |
| DbContext.EmptyValid | CareerConnectAPI/CareerConnect.Infrastructure/Data/ApplicationDbContext.cs:24-171 | the empty database meets every key, index, foreign-key and length constraint |
| DbContext.Commit | CareerConnectAPI/CareerConnect.Infrastructure/Data/ApplicationDbContext.cs:31-169 | saving succeeds and stores the pending state iff it meets the unique keys and indexes (category, tag and user e-mail names, (JobId, TagId), (JobId, UserId)), the foreign keys and the length bounds; otherwise it fails with a database-update error |
| DbContext.DeleteJobs | CareerConnectAPI/CareerConnect.Infrastructure/Data/ApplicationDbContext.cs:88-162 | deleting jobs removes exactly those jobs; a tag link, responsibility, requirement, benefit or application stays exactly when its job is not deleted; every other table is unchanged |
| DbContext.DeleteJob | CareerConnectAPI/CareerConnect.Infrastructure/Data/ApplicationDbContext.cs:88-162 | deleting one job removes it and every row that references it, and keeps every other job |
| DbContext.DeleteCompany | CareerConnectAPI/CareerConnect.Infrastructure/Data/ApplicationDbContext.cs:39-150 | deleting a company removes exactly that company row and cascades to its jobs (every other job stays); every user stays, one for one, and only that company's users get `CompanyId` set to null; categories and tags are unchanged |
| DbContext.DeleteTag | CareerConnectAPI/CareerConnect.Infrastructure/Data/ApplicationDbContext.cs:93-96 | deleting a tag removes exactly that tag row and its job links (every other link stays); no other table changes |
| DbContext.DeleteUser | CareerConnectAPI/CareerConnect.Infrastructure/Data/ApplicationDbContext.cs:164-167 | deleting a user removes exactly that user row and that user's applications (every other application stays); no other table changes |
| DbContext.DeleteCategory | CareerConnectAPI/CareerConnect.Infrastructure/Data/ApplicationDbContext.cs:44-47 | deleting a category removes exactly that category row (the others stay) and changes no other table; nothing cascades |
| DbContext.ItemsAfterDelete | CareerConnectAPI/CareerConnect.Infrastructure/Data/ApplicationDbContext.cs:105-132 | after a cascade, the surviving child rows still reference surviving jobs |
| DbContext.DeleteJobsKeys | CareerConnectAPI/CareerConnect.Infrastructure/Data/ApplicationDbContext.cs:31-169 | deleting jobs keeps every key and unique index unique |
| DbContext.DeleteJobsForeignKeys | CareerConnectAPI/CareerConnect.Infrastructure/Data/ApplicationDbContext.cs:88-167 | deleting jobs with their cascades leaves no dangling reference |
| DbContext.DeleteJobsValid | CareerConnectAPI/CareerConnect.Infrastructure/Data/ApplicationDbContext.cs:39-167 | deleting jobs from a valid database leaves it valid |
| DbContext.DeleteJobValid | CareerConnectAPI/CareerConnect.Infrastructure/Data/ApplicationDbContext.cs:88-162 | deleting one job from a valid database leaves it valid |
| DbContext.DeleteCompanyKeys | CareerConnectAPI/CareerConnect.Infrastructure/Data/ApplicationDbContext.cs:31-170 | deleting a company keeps every key and unique index unique |
| DbContext.DeleteCompanyForeignKeys | CareerConnectAPI/CareerConnect.Infrastructure/Data/ApplicationDbContext.cs:39-150 | the cascade and the set-null leave no dangling company reference |
| DbContext.DeleteCompanyLengths | CareerConnectAPI/CareerConnect.Infrastructure/Data/ApplicationDbContext.cs:136-151 | detaching users keeps every length bound |
| DbContext.DeleteCompanyValid | CareerConnectAPI/CareerConnect.Infrastructure/Data/ApplicationDbContext.cs:39-150 | deleting a company from a valid database leaves it valid |
| DbContext.DeleteCompanyKeepsOtherJobs | CareerConnectAPI/CareerConnect.Infrastructure/Data/ApplicationDbContext.cs:39-42 | with unique job ids, a job survives a company delete iff it belongs to another company |
| DbContext.DeleteTagValid | CareerConnectAPI/CareerConnect.Infrastructure/Data/ApplicationDbContext.cs:93-96 | deleting a tag from a valid database leaves it valid |
| DbContext.DeleteUserValid | CareerConnectAPI/CareerConnect.Infrastructure/Data/ApplicationDbContext.cs:164-167 | deleting a user from a valid database leaves it valid |
| DbContext.DeleteCategoryRestricted | CareerConnectAPI/CareerConnect.Infrastructure/Data/ApplicationDbContext.cs:44-47 | with the Restrict rule, deleting a stored category can be saved iff no job references it |
| DbContext.UnitOfWork.constructor | CareerConnectAPI/CareerConnect.Infrastructure/Repositories/UnitOfWork.cs:19-22 | a unit of work starts on the given database state |
| DbContext.UnitOfWork.SaveChanges | CareerConnectAPI/CareerConnect.Infrastructure/Repositories/UnitOfWork.cs:31-34 | saving commits the pending state when it is valid and otherwise keeps the previous state and reports the failure |
| JobService.TimeAgoJustNow | CareerConnectAPI/src/CareerConnect.Application/Services/JobService.cs:202-215 | "Just now" exactly when less than an hour has elapsed, which includes every date in the future |
| JobService.PhraseNotJustNow | CareerConnectAPI/src/CareerConnect.Application/Services/JobService.cs:206-213 | no bucket's phrase is "Just now", so the buckets and the fallback never collide |
| JobService.TimeAgoUnit | CareerConnectAPI/src/CareerConnect.Application/Services/JobService.cs:206-213 | when the largest unit that fits is months, weeks, days or hours, the phrase counts the elapsed time truncated to whole units of it: at least one, and `n*unit <= elapsed < (n+1)*unit` |
| JobService.PhrasePlural | CareerConnectAPI/src/CareerConnect.Application/Services/JobService.cs:207-213 | the unit takes its plural "s" exactly when the count is greater than 1 |
| JobService.SearchEnvelopeProps | CareerConnectAPI/src/CareerConnect.Application/Services/JobService.cs:40-46 | the envelope echoes page and page size, passes the total through and maps the items one to one, in order |
| JobService.FeaturedProps | CareerConnectAPI/src/CareerConnect.Application/Services/JobService.cs:49-53 | one DTO per featured job the repository returns, in its order: exactly `count` of them or all featured active jobs, each featured, newest first; no featured active job left out is newer than one shown |
| JobService.ByCompanyProps | CareerConnectAPI/src/CareerConnect.Application/Services/JobService.cs:55-59 | one DTO per active job of the company, in the repository's newest-first order, each with the company's id; every active job of the company is shown |
| JobService.ByCompanyJobs | CareerConnectAPI/src/CareerConnect.Application/Services/JobService.cs:55-59 | the company list holds as many jobs as the company has active ones, all of that company, and each of its active jobs is in it |
| JobService.ChildRows | CareerConnectAPI/src/CareerConnect.Application/Services/JobService.cs:85-100 | one child row per input line, in input order, with `Order` equal to its index and the given job id |
| JobService.ResolveTags | CareerConnectAPI/src/CareerConnect.Application/Services/JobService.cs:103-111 | one tag per input name; the tags it must add get consecutive new ids |
| JobService.ResolveFound | CareerConnectAPI/src/CareerConnect.Application/Services/JobService.cs:105 | a name `GetByNameAsync` finds reuses the found tag |
| JobService.ResolveNew | CareerConnectAPI/src/CareerConnect.Application/Services/JobService.cs:106-109 | a name it does not find gets a new tag with that exact name and a fresh id |
| JobService.ResolveNewDistinct | CareerConnectAPI/src/CareerConnect.Application/Services/JobService.cs:106-109 | two names that are both new get distinct tags, with increasing ids |
| JobService.ResolveAddedNamed | CareerConnectAPI/src/CareerConnect.Application/Services/JobService.cs:106-109 | every added tag carries one of the names that were not found |
| JobService.OnlyNewRows | CareerConnectAPI/src/CareerConnect.Application/Services/JobService.cs:85-100 | after adding the new job's rows, the new job's rows are exactly those |
| JobService.CreatedChildren | CareerConnectAPI/src/CareerConnect.Application/Services/JobService.cs:85-198 | the new job's loaded child list is exactly the rows built for it |
| JobService.DescriptionsOfRows | CareerConnectAPI/src/CareerConnect.Application/Services/JobService.cs:85-198 | reading the rows back by `Order` gives the input lines |
| JobService.TagsOfLinksExact | CareerConnectAPI/src/CareerConnect.Application/Services/JobService.cs:167-195 | links that each resolve to a given tag show exactly those tags in link order |
| JobService.LinkedTagsStored | CareerConnectAPI/src/CareerConnect.Application/Services/JobService.cs:103-111 | every resolved tag is a stored tag or one of the added ones |
| JobService.TagsOfNewLinks | CareerConnectAPI/src/CareerConnect.Application/Services/JobService.cs:110-167 | the new job's links show its resolved tags in input order |
| JobService.OnlyNewLinks | CareerConnectAPI/src/CareerConnect.Application/Services/JobService.cs:110 | the new job's links are exactly the links added for it |
| JobService.CreatedJobFound | CareerConnectAPI/src/CareerConnect.Application/Services/JobService.cs:69-113 | the new job is stored under the next id with the DTO's fields and the current time |
| JobService.CreatedJobTags | CareerConnectAPI/src/CareerConnect.Application/Services/JobService.cs:103-111 | the stored job's tags are the resolved tags in input order |
| JobService.CreatedJobChildren | CareerConnectAPI/src/CareerConnect.Application/Services/JobService.cs:85-100 | the stored job's child lists are the built rows, and it has no applications |
| JobService.CreateSaved | CareerConnectAPI/src/CareerConnect.Application/Services/JobService.cs:113-116 | a successful create stores the pending state, which is valid, and returns the DTO of the new job without its company loaded |
| JobService.CreateRoundTrip | CareerConnectAPI/src/CareerConnect.Application/Services/JobService.cs:67-199 | after a successful create, the detail DTO of the new job shows the input title, description, company, closing date, responsibilities, requirements and benefits, the returned tags and no applicants |
| JobService.CreatedDto | CareerConnectAPI/src/CareerConnect.Application/Services/JobService.cs:116-169 | the returned DTO has the new id, the input's fields, "Just now", an empty company name and no logo, and one tag per input name equal to it ignoring case |
| JobService.CreateFailureKeepsStore | CareerConnectAPI/src/CareerConnect.Application/Services/JobService.cs:113-114 | a failed create leaves the database unchanged |
| JobService.DuplicateTagNamesFail | CareerConnectAPI/src/CareerConnect.Application/Services/JobService.cs:103-114 | a tag name given twice makes the save fail and leaves the database unchanged |
| JobService.UpdateNotFound | CareerConnectAPI/src/CareerConnect.Application/Services/JobService.cs:121-122 | an unknown id fails with "Job with ID {id} not found" and changes nothing; not-found is the only way to fail with that kind |
| JobService.ReplaceKeepsIds | CareerConnectAPI/src/CareerConnect.Application/Services/JobService.cs:136 | updating a job keeps the set of job ids |
| JobService.ReplaceRows | CareerConnectAPI/src/CareerConnect.Application/Services/JobService.cs:136 | after the update the edited job is stored and every other row is an unchanged job with another id |
| JobService.UpdateKeys | CareerConnectAPI/src/CareerConnect.Application/Services/JobService.cs:136-137 | the update keeps every key and index unique |
| JobService.UpdateForeignKeys | CareerConnectAPI/src/CareerConnect.Application/Services/JobService.cs:130-137 | with the company unchanged, the update keeps foreign keys iff the new category exists |
| JobService.UpdateLengths | CareerConnectAPI/src/CareerConnect.Application/Services/JobService.cs:124-137 | the update keeps the length bounds iff the edited job fits them |
| JobService.UpdateValid | CareerConnectAPI/src/CareerConnect.Application/Services/JobService.cs:124-137 | the update can be saved iff the category exists and the edited fields fit |
| JobService.UpdateSucceeds | CareerConnectAPI/src/CareerConnect.Application/Services/JobService.cs:119-139 | on a valid database, an update succeeds iff the id exists, the category exists and the edited job fits the length bounds |
| JobService.TagsOfLinksSameTags | CareerConnectAPI/src/CareerConnect.Application/Services/JobService.cs:167 | the tags of links depend only on the tag table |
| JobService.EditedJobLoads | CareerConnectAPI/src/CareerConnect.Application/Services/JobService.cs:121-136 | the reloaded job is the edited row with the same company, tags, children and applications, and its new category |
| JobService.UpdateSaved | CareerConnectAPI/src/CareerConnect.Application/Services/JobService.cs:136-139 | a successful update stores the edited job and returns its DTO |
| JobService.EditedDetail | CareerConnectAPI/src/CareerConnect.Application/Services/JobService.cs:124-199 | the edited detail DTO shows the input title, description, location, salary, type, level, featured flag, closing date and category; id, company, posted time, tags, applicants and child lists are unchanged |
| JobService.UpdateRoundTrip | CareerConnectAPI/src/CareerConnect.Application/Services/JobService.cs:119-140 | after a successful update, the stored job's detail DTO shows the edited fields and keeps its company, posted time, tags, applicants and child lists |
| JobService.DeleteOutcome | CareerConnectAPI/src/CareerConnect.Application/Services/JobService.cs:142-149 | a delete succeeds iff the id exists; the job is then gone, every other job stays and the database stays valid; otherwise it fails with not found and changes nothing |
| JobService.BuildChildren | CareerConnectAPI/src/CareerConnect.Application/Services/JobService.cs:85-100 | the loop builds exactly the child rows |
| JobService.ResolveTagNames | CareerConnectAPI/src/CareerConnect.Application/Services/JobService.cs:103-111 | the find-or-create loop computes exactly the tag resolution |
| JobService.CreateAsync | CareerConnectAPI/src/CareerConnect.Application/Services/JobService.cs:67-117 | the method's result and new database state are those of the create specification |
| JobService.UpdateAsync | CareerConnectAPI/src/CareerConnect.Application/Services/JobService.cs:119-140 | the method's result and new database state are those of the update specification |
| JobService.DeleteAsync | CareerConnectAPI/src/CareerConnect.Application/Services/JobService.cs:142-149 | the method's result and new database state are those of the delete specification |
| CompanyService.RecentSourceProps | CareerConnectAPI/src/CareerConnect.Application/Services/CompanyService.cs:137-140 | the recent jobs are the newest active jobs of the loaded list: as many as `min(5, OpenJobsCount)`, newest first, drawn from the active ones, and no active job left out is newer than one kept |
| CompanyService.RecentJobsProps | CareerConnectAPI/src/CareerConnect.Application/Services/CompanyService.cs:137-154 | the detail DTO's recent jobs are at most 5 and at most `OpenJobsCount`, one per selected job in order, each with the company's own name, logo and id and its relative posted time |
| CompanyService.OpenJobsOfLoaded | CareerConnectAPI/src/CareerConnect.Application/Services/CompanyService.cs:115-135 | with the active jobs loaded, `OpenJobsCount` is the number of the company's active jobs in the database |
| CompanyService.GetByIdCounts | CareerConnectAPI/src/CareerConnect.Application/Services/CompanyService.cs:19-25 | a detail DTO comes back iff the company exists, with its id and its active-job count |
| CompanyService.SearchEnvelopeProps | CareerConnectAPI/src/CareerConnect.Application/Services/CompanyService.cs:37-43 | the envelope echoes page and page size, passes the total through and maps the companies one to one, in order |
| CompanyService.SearchCounts | CareerConnectAPI/src/CareerConnect.Application/Services/CompanyService.cs:27-115 | every company DTO of a search carries its own active-job count |
| CompanyService.TopCounts | CareerConnectAPI/src/CareerConnect.Application/Services/CompanyService.cs:46-50 | one DTO per company the repository ranks first, in its order: exactly `count` or all stored companies, each a stored company with its active-job count |
| CompanyService.TopCountsEach | CareerConnectAPI/src/CareerConnect.Application/Services/CompanyService.cs:46-50 | the DTO of a stored company loaded with its active jobs carries its id and verified flag and counts exactly its active jobs in the store |
| CompanyService.CreateOutcome | CareerConnectAPI/src/CareerConnect.Application/Services/CompanyService.cs:52-70 | a create succeeds iff the new company fits the length bounds; it gets the next id, the DTO's name, no open jobs, no rating, no reviews and is not verified; a failure changes nothing |
| CompanyService.CreateValid | CareerConnectAPI/src/CareerConnect.Application/Services/CompanyService.cs:52-70 | the database accepts the new company exactly when its name, industry and location fit their columns (a new company has no rating); its id is new |
| CompanyService.UpdateNotFound | CareerConnectAPI/src/CareerConnect.Application/Services/CompanyService.cs:74-75 | an unknown id fails with "Company with ID {id} not found" and changes nothing |
| CompanyService.ReplaceCompanyRows | CareerConnectAPI/src/CareerConnect.Application/Services/CompanyService.cs:87 | after the update the edited company is stored, every other row is unchanged and the ids are the same |
| CompanyService.UpdateValid | CareerConnectAPI/src/CareerConnect.Application/Services/CompanyService.cs:77-88 | the update can be saved iff the edited company fits the length bounds |
| CompanyService.UpdateSucceeds | CareerConnectAPI/src/CareerConnect.Application/Services/CompanyService.cs:72-91 | on a valid database, an update succeeds iff the id exists and the edited company fits |
| CompanyService.UpdateRoundTrip | CareerConnectAPI/src/CareerConnect.Application/Services/CompanyService.cs:77-91 | after a successful update the company's detail shows the eight DTO fields, keeps rating, review count and verification, and counts its active jobs; the returned DTO has no jobs loaded, so its count is 0 |
| CompanyService.DeleteOutcome | CareerConnectAPI/src/CareerConnect.Application/Services/CompanyService.cs:93-100 | a delete succeeds iff the id exists; the company and all its jobs are then gone and the database stays valid; otherwise it fails with not found and changes nothing |
| CompanyService.CreateAsync | CareerConnectAPI/src/CareerConnect.Application/Services/CompanyService.cs:52-70 | the method's result and new database state are those of the create specification |
| CompanyService.UpdateAsync | CareerConnectAPI/src/CareerConnect.Application/Services/CompanyService.cs:72-91 | the method's result and new database state are those of the update specification |
| CompanyService.DeleteAsync | CareerConnectAPI/src/CareerConnect.Application/Services/CompanyService.cs:93-100 | the method's result and new database state are those of the delete specification |
| CategoryService.ActiveJobCountZero | CareerConnectAPI/src/CareerConnect.Application/Services/CategoryService.cs:22-110 | a category's active-job count is 0 exactly when no active job references it |
| CategoryService.GetByIdProps | CareerConnectAPI/src/CareerConnect.Application/Services/CategoryService.cs:17-33 | a DTO comes back iff the category exists, with its id, its name as title and its active-job count |
| CategoryService.GetAllProps | CareerConnectAPI/src/CareerConnect.Application/Services/CategoryService.cs:35-55 | one DTO per stored category, in repository order, each with its own id, name and active-job count |
| CategoryService.GetAllAsync | CareerConnectAPI/src/CareerConnect.Application/Services/CategoryService.cs:35-55 | the loop builds exactly that list |
| CategoryService.GetWithJobCountProps | CareerConnectAPI/src/CareerConnect.Application/Services/CategoryService.cs:57-70 | one DTO per stored category, made from a permutation of the stored categories, ordered by title, each counting exactly its active jobs |
| CategoryService.CreateOutcome | CareerConnectAPI/src/CareerConnect.Application/Services/CategoryService.cs:72-94 | a create succeeds iff the name is not taken and has at most 100 characters; it gets the next id, the name as title and count 0, and can be read back; a failure changes nothing |
| CategoryService.CreateValid | CareerConnectAPI/src/CareerConnect.Application/Services/CategoryService.cs:72-94 | the database accepts the new category exactly when no other category has its name and the name fits 100 characters; its id is new |
| CategoryService.CreatedFound | CareerConnectAPI/src/CareerConnect.Application/Services/CategoryService.cs:72-94 | once saved, the new category is found by its id, with no active jobs |
| CategoryService.UpdateNotFound | CareerConnectAPI/src/CareerConnect.Application/Services/CategoryService.cs:98-99 | an unknown id fails with "Category with ID {id} not found" and changes nothing |
| CategoryService.ReplaceCategoryRows | CareerConnectAPI/src/CareerConnect.Application/Services/CategoryService.cs:107 | after the update the edited category is stored, every other category is kept unchanged and the ids are the same |
| CategoryService.UpdateNamesUnique | CareerConnectAPI/src/CareerConnect.Application/Services/CategoryService.cs:101-108 | the edited names stay unique iff no other category has the new name |
| CategoryService.UpdateValid | CareerConnectAPI/src/CareerConnect.Application/Services/CategoryService.cs:101-108 | the update can be saved iff the new name is free and fits |
| CategoryService.UpdateOutcome | CareerConnectAPI/src/CareerConnect.Application/Services/CategoryService.cs:96-121 | on a valid database, an update succeeds iff the id exists and the new name is free and fits; the DTO then has the id, the new name as title and the category's active-job count, and reads back the same |
| CategoryService.DeleteOutcome | CareerConnectAPI/src/CareerConnect.Application/Services/CategoryService.cs:123-130 | a delete succeeds iff the category exists and no job references it; an unknown id is not found, a referenced one fails on save, and a failure changes nothing |
| CategoryService.CreateAsync | CareerConnectAPI/src/CareerConnect.Application/Services/CategoryService.cs:72-94 | the method's result and new database state are those of the create specification |
| CategoryService.UpdateAsync | CareerConnectAPI/src/CareerConnect.Application/Services/CategoryService.cs:96-121 | the method's result and new database state are those of the update specification |
| CategoryService.DeleteAsync | CareerConnectAPI/src/CareerConnect.Application/Services/CategoryService.cs:123-130 | the method's result and new database state are those of the delete specification |
| AuthService.VerifyHashed | CareerConnectAPI/CareerConnect.Application/Services/AuthService.cs:175-186 | a password always verifies against its own hash, because the salted hash is deterministic |
| AuthService.ClaimsCarryId | CareerConnectAPI/CareerConnect.Application/Services/AuthService.cs:152-160 | the token's first `userId` and `sub` claims carry the user's id as text, which parses back to the id, and the e-mail and role claims are present |
| AuthService.WithUserRows | CareerConnectAPI/CareerConnect.Application/Services/AuthService.cs:102-202 | writing a user back keeps every other user and the set of ids |
| AuthService.WithUserUnique | CareerConnectAPI/CareerConnect.Application/Services/AuthService.cs:102-202 | with id and e-mail unchanged, user keys and e-mails stay unique |
| AuthService.WithUserForeignKeys | CareerConnectAPI/CareerConnect.Application/Services/AuthService.cs:102-202 | with the company unchanged, foreign keys still hold |
| AuthService.WithUserLengths | CareerConnectAPI/CareerConnect.Application/Services/AuthService.cs:102-202 | the write keeps the length bounds iff the edited user fits them |
| AuthService.WithUserValid | CareerConnectAPI/CareerConnect.Application/Services/AuthService.cs:101-203 | writing back a user with the same id, e-mail and company keeps the database valid iff the user fits the length bounds |
| AuthService.RegisterDuplicate | CareerConnectAPI/CareerConnect.Application/Services/AuthService.cs:27-35 | an e-mail that already exists gives `Success = false` with "An account with this email already exists", no token, and no change |
| AuthService.RegisterOutcome | CareerConnectAPI/CareerConnect.Application/Services/AuthService.cs:25-64 | on a valid database registration succeeds iff the e-mail is new both as given and lower-cased, the user fits and the company exists; it then appends exactly the new user, with the lower-cased e-mail, active, "Employer" iff a company is given, and returns a token expiring at now + `ExpirationInMinutes`; otherwise nothing changes |
| AuthService.AddUserValid | CareerConnectAPI/CareerConnect.Application/Services/AuthService.cs:51-52 | appending a user with a fresh id keeps the database valid iff its e-mail is new, it fits and its company exists |
| AuthService.LoginFailures | CareerConnectAPI/CareerConnect.Application/Services/AuthService.cs:69-98 | an unknown e-mail and a wrong password give the same "Invalid email or password"; "Your account has been deactivated" comes exactly when the password is right and the user inactive; a failure changes nothing |
| AuthService.LoginOutcome | CareerConnectAPI/CareerConnect.Application/Services/AuthService.cs:66-115 | login succeeds iff the user is found, the password verifies and the user is active; only then is `LastLoginAt` written (and every other user kept) and a token for that user returned; a failure changes nothing |
| AuthService.RegisterThenLogin | CareerConnectAPI/CareerConnect.Application/Services/AuthService.cs:25-115 | after a successful registration, logging in with the same e-mail and password succeeds, as the new user, provided the repository's e-mail match treats the lower-cased address as the one given (a case-insensitive match, or an address already in lower case) |
| AuthService.RefreshProps | CareerConnectAPI/CareerConnect.Application/Services/AuthService.cs:123-145 | a refresh fails, with "User not found or inactive", iff the user is missing or inactive; otherwise it returns that user and a token |
| AuthService.UpdateProfileNull | CareerConnectAPI/CareerConnect.Application/Services/AuthService.cs:188-195 | the profile update returns null exactly when a refresh would fail, and then changes nothing |
| AuthService.UpdateProfileOutcome | CareerConnectAPI/CareerConnect.Application/Services/AuthService.cs:188-206 | for an active user the update succeeds iff the names fit; it writes the first name, last name, phone and `UpdatedAt` and keeps e-mail, role, company, active flag and password hash, and returns the stored user |
| AuthService.RegisterAsync | CareerConnectAPI/CareerConnect.Application/Services/AuthService.cs:25-64 | the method's result and new database state are those of the registration specification |
| AuthService.LoginAsync | CareerConnectAPI/CareerConnect.Application/Services/AuthService.cs:66-115 | the method's result and new database state are those of the login specification |
| AuthService.UpdateProfileAsync | CareerConnectAPI/CareerConnect.Application/Services/AuthService.cs:188-206 | the method's result and new database state are those of the profile-update specification |
| AuthController.UserIdFallback | CareerConnectAPI/CareerConnect.API/Controllers/AuthController.cs:60-65 | the id text is the first `userId` claim when there is one, even an empty one, which is then rejected; only without it is `NameIdentifier` used; no text gives no id |
| AuthController.IssuedTokenNamesUser | CareerConnectAPI/CareerConnect.API/Controllers/AuthController.cs:60-65 | the claims of a token this service issues always yield that user's id |
| AuthController.RegisterStatus | CareerConnectAPI/CareerConnect.API/Controllers/AuthController.cs:21-36 | an invalid model is 400 before the service runs; then a failure is 400 with `{error}` and a success is 200 with the service's answer |
| AuthController.LoginStatus | CareerConnectAPI/CareerConnect.API/Controllers/AuthController.cs:39-54 | an invalid model is 400 before the service runs; a failed login is 401 with `{error}`, so an unknown e-mail is 401 "Invalid email or password" |
| AuthController.TokenActions | CareerConnectAPI/CareerConnect.API/Controllers/AuthController.cs:58-117 | without a usable id claim, "me", refresh and profile all give 401 "Invalid token" and change nothing; otherwise "me" is 404 iff the user is missing, and refresh (401) and profile (404 "User not found") fail iff the user is missing or inactive |
| AuthController.MeShowsTokenUser | CareerConnectAPI/CareerConnect.API/Controllers/AuthController.cs:58-75 | "me" with a token issued to a stored user returns 200 with that user's info |
| ExceptionMiddleware.ErrorFor | CareerConnectAPI/CareerConnect.API/Middleware/ExceptionHandlingMiddleware.cs:30-70 | 404 exactly for not-found, 400 exactly for argument exceptions and their subclasses, both with the exception's message; 401 exactly for unauthorized access, with "Unauthorized"; 500 with the generic message for anything else; `Details` is never set |
| ExceptionMiddleware.InternalErrorsLeakNothing | CareerConnectAPI/CareerConnect.API/Middleware/ExceptionHandlingMiddleware.cs:53-57 | any two exceptions that map to 500 give the same body, so no exception text is exposed |
| ExceptionMiddleware.NotFoundIs404 | CareerConnectAPI/CareerConnect.API/Middleware/ExceptionHandlingMiddleware.cs:38-42 | a service's not-found error becomes 404 with its own message |
| ExceptionMiddleware.HandleException | CareerConnectAPI/CareerConnect.API/Middleware/ExceptionHandlingMiddleware.cs:30-62 | on a response not yet started: the JSON content type, the mapped status and the serialized error body, whose status equals the response status; on a started response the content-type assignment throws and the response is unchanged |
| ExceptionMiddleware.Invoke | CareerConnectAPI/CareerConnect.API/Middleware/ExceptionHandlingMiddleware.cs:17-28 | when the rest of the pipeline does not throw, the response is what it wrote and nothing else; when it throws before writing, the handler's status, content type and body follow; when it throws after writing, the handler's exception escapes and no error body is added |
| Exceptions.NotFound | CareerConnectAPI/src/CareerConnect.Application/Services/JobService.cs:122-145 | the services' not-found exception has the not-found kind and the message "{Entity} with ID {id} not found" |
| DbSeeder.ToDictionary | CareerConnectAPI/CareerConnect.Infrastructure/DbSeeder.cs:78 | building the tag dictionary succeeds iff tag names are unique (otherwise it throws), and then maps each name to exactly its tag |
| DbSeeder.TagIds | CareerConnectAPI/CareerConnect.Infrastructure/DbSeeder.cs:291 | a job links only the tags whose names are in the dictionary, dropping unknown names; when all are known, one link per name in order |
| DbSeeder.TagIdsAppend | CareerConnectAPI/CareerConnect.Infrastructure/DbSeeder.cs:291 | the ids of two name lists put together are the ids of each list, in order: unknown names drop out without disturbing the order of the rest |
| DbSeeder.TagIdsOne | CareerConnectAPI/CareerConnect.Infrastructure/DbSeeder.cs:291 | one name gives its tag id when the dictionary knows it, and nothing otherwise |
| DbSeeder.Items | CareerConnectAPI/CareerConnect.Infrastructure/DbSeeder.cs:292-294 | each child list keeps the input lines in order with `Order` equal to the index |
| DbSeeder.CreateJob | CareerConnectAPI/CareerConnect.Infrastructure/DbSeeder.cs:271-297 | the job is posted `daysAgo` days after now, belongs to the given company and category, and has no closing date |
| DbSeeder.CategoriesFrom | CareerConnectAPI/CareerConnect.Infrastructure/DbSeeder.cs:27-28 | the saved categories are the rows in order with consecutive new ids |
| DbSeeder.TagsFrom | CareerConnectAPI/CareerConnect.Infrastructure/DbSeeder.cs:45-46 | the saved tags are the rows in order with consecutive new ids |
| DbSeeder.CompaniesFrom | CareerConnectAPI/CareerConnect.Infrastructure/DbSeeder.cs:65-66 | the saved companies are the rows in order with consecutive new ids |
| DbSeeder.UsersFrom | CareerConnectAPI/CareerConnect.Infrastructure/DbSeeder.cs:267-268 | the saved users are the rows in order with consecutive new ids |
| DbSeeder.ItemsFrom | CareerConnectAPI/CareerConnect.Infrastructure/DbSeeder.cs:292-294 | saving a child list keeps one row per item |
| DbSeeder.SaveJob | CareerConnectAPI/CareerConnect.Infrastructure/DbSeeder.cs:257 | saving one job graph appends its job row and touches no other table than its links and children |
| DbSeeder.SaveJobs | CareerConnectAPI/CareerConnect.Infrastructure/DbSeeder.cs:257-258 | saving the job graphs appends one job per graph, in order, after the existing jobs |
| DbSeeder.UserSeeds | CareerConnectAPI/CareerConnect.Infrastructure/DbSeeder.cs:261-266 | three users, all active with the placeholder hash; a user has a company iff it is the employer, and the employer's company is the given one |
| DbSeeder.CategoryIdOf | CareerConnectAPI/CareerConnect.Infrastructure/DbSeeder.cs:69-76 | each category lookup finds the category of that name |
| DbSeeder.BuildJobs | CareerConnectAPI/CareerConnect.Infrastructure/DbSeeder.cs:80-255 | the job list builds iff every seed's company index is in range (otherwise it throws an index error), and then is one `CreateJob` per seed, in order |
| DbSeeder.CreatedJobOf | CareerConnectAPI/CareerConnect.Infrastructure/DbSeeder.cs:278-295 | the row `CreateJob` builds carries every field of its seed |
| DbSeeder.SeededFromCompaniesFrame | CareerConnectAPI/CareerConnect.Infrastructure/DbSeeder.cs:49-268 | the seeded state after the companies depends only on the company, job and user tables |
| DbSeeder.RestSeededFrame | CareerConnectAPI/CareerConnect.Infrastructure/DbSeeder.cs:30-268 | the seeded state after the categories depends only on the tag, company, job and user tables |
| DbSeeder.SeedUsers | CareerConnectAPI/CareerConnect.Infrastructure/DbSeeder.cs:260-268 | seeding users appends the three users, the employer pointing at the first company, or fails without a first company; validity is kept |
| DbSeeder.SeedGraphs | CareerConnectAPI/CareerConnect.Infrastructure/DbSeeder.cs:257-268 | seeding jobs appends one row per graph in order, then the users; validity is kept |
| DbSeeder.SeedJobsAndUsers | CareerConnectAPI/CareerConnect.Infrastructure/DbSeeder.cs:78-268 | the jobs stored are the seeds' jobs in order, each with its company, then the users; validity is kept |
| DbSeeder.SeedCompanies | CareerConnectAPI/CareerConnect.Infrastructure/DbSeeder.cs:49-268 | from the companies on, a successful seed reaches the seeded state; validity is kept |
| DbSeeder.SeedAfterCategories | CareerConnectAPI/CareerConnect.Infrastructure/DbSeeder.cs:30-268 | from the tags on, a successful seed reaches the seeded state; validity is kept |
| DbSeeder.Seed | CareerConnectAPI/CareerConnect.Infrastructure/DbSeeder.cs:8-269 | with any job present the seed does nothing; otherwise a successful seed appends the seeded rows to every table; a valid database stays valid |
| DbSeeder.SeedIdempotent | CareerConnectAPI/CareerConnect.Infrastructure/DbSeeder.cs:10-11 | seeding twice leaves the same database as seeding once |
| DbSeeder.SeedCounts | CareerConnectAPI/CareerConnect.Infrastructure/DbSeeder.cs:14-268 | a seed of an empty job table adds as many categories, tags, companies and jobs as the data has, and 3 users |
| DbSeeder.SeededUsers | CareerConnectAPI/CareerConnect.Infrastructure/DbSeeder.cs:261-266 | the three added users follow the existing ones; only the employer has a company, the first seeded company |
| DbSeeder.SeededJobs | CareerConnectAPI/CareerConnect.Infrastructure/DbSeeder.cs:80-288 | the seeded jobs follow the data in order, each posted `daysAgo` days from now (in the past when negative) and owned by the seeded company it names |
| DbSeeder.DemoSizes | CareerConnectAPI/CareerConnect.Infrastructure/DbSeeder.cs:14-266 | the demo data has 10 categories, 36 tags and 3 users |
| DbSeeder.DemoCompanies | CareerConnectAPI/CareerConnect.Infrastructure/DbSeeder.cs:50-64 | the demo data has 12 companies |
| DbSeeder.DemoCategoriesFound | CareerConnectAPI/CareerConnect.Infrastructure/DbSeeder.cs:69-76 | every category the jobs look up by name is among the seeded categories |
| DbSeeder.TechnologyJobsPastAndKnown | CareerConnectAPI/CareerConnect.Infrastructure/DbSeeder.cs:82-132 | the technology jobs all have a negative `daysAgo` and name one of the 12 companies |
| DbSeeder.DesignMarketingJobsPastAndKnown | CareerConnectAPI/CareerConnect.Infrastructure/DbSeeder.cs:133-169 | the design and marketing jobs all have a negative `daysAgo` and name one of the 12 companies |
| DbSeeder.ServiceJobsPastAndKnown | CareerConnectAPI/CareerConnect.Infrastructure/DbSeeder.cs:170-224 | the finance, sales, healthcare, education and HR jobs all have a negative `daysAgo` and name one of the 12 companies |
| DbSeeder.MoreTechJobsPastAndKnown | CareerConnectAPI/CareerConnect.Infrastructure/DbSeeder.cs:225-255 | the remaining technology jobs all have a negative `daysAgo` and name one of the 12 companies |
| DbSeeder.SeedAsync | CareerConnectAPI/CareerConnect.Infrastructure/DbSeeder.cs:8-269 | the method's result and new database state are those of the seed specification |
| Api.Values | Frontend/src/services/api.ts:160 | `getAll(name)` returns no more values than there are pairs |
| Api.ValuesAppend | Frontend/src/services/api.ts:160-179 | the values under a name of two lists appended are the values of the first followed by those of the second |
| Api.ValuesOfNamed | Frontend/src/services/api.ts:172-178 | a run of pairs all under one name yields its values in order under that name and nothing under any other |
| Api.StringPair | Frontend/src/services/api.ts:162-164 | a text parameter appends at most one pair, under its own name |
| Api.NumberPair | Frontend/src/services/api.ts:165-168 | a number parameter appends at most one pair, under its own name |
| Api.ArrayPairs | Frontend/src/services/api.ts:171-179 | an array parameter appends only pairs under its own name |
| Api.StringValue | Frontend/src/services/api.ts:162-164 | a text parameter is sent iff it is truthy, so an absent or empty string is omitted |
| Api.NumberValue | Frontend/src/services/api.ts:165-168 | a number parameter is sent iff it is truthy, so an absent value or 0 is omitted |
| Api.ValuesOfStringPair | Frontend/src/services/api.ts:162-164 | the pairs a text parameter appends read back as its value under its name only |
| Api.ValuesOfNumberPair | Frontend/src/services/api.ts:165-168 | the pairs a number parameter appends read back as its decimal text under its name only |
| Api.ValuesOfArrayPairs | Frontend/src/services/api.ts:171-179 | the pairs an array parameter appends read back as the array, element for element, under its name only, and as nothing when absent or empty |
| Api.InOrderAppend | Frontend/src/services/api.ts:162-179 | appending pairs of a name ranked no earlier than everything so far keeps the list in parameter order |
| Api.SearchParams.constructor | Frontend/src/services/api.ts:160 | `new URLSearchParams()` is empty |
| Api.SearchParams.Append | Frontend/src/services/api.ts:162 | `append` adds one pair at the end |
| Api.AppendEach | Frontend/src/services/api.ts:172-178 | the `forEach` appends one pair per element, in element order |
| Api.AppendString | Frontend/src/services/api.ts:162-164 | the `if` and `append` of a text parameter append exactly its pairs |
| Api.AppendNumber | Frontend/src/services/api.ts:165-168 | the `if` and `append` of a number parameter append exactly its pairs |
| Api.AppendArray | Frontend/src/services/api.ts:171-179 | the guarded `forEach` of an array parameter appends exactly its pairs |
| Api.JobsSearch | Frontend/src/services/api.ts:159-182 | the method builds exactly the job query list |
| Api.JobsValueByParts | Frontend/src/services/api.ts:162-179 | the per-parameter reading is the same as the named reference reading |
| Api.JobsQueryValues | Frontend/src/services/api.ts:162-179 | for every name, the job query carries exactly: the truthy query, location and job type; the truthy category, company, page and page size as decimal text; each element of the type, level and location arrays in order; and nothing for anything else |
| Api.JobsQueryInOrder | Frontend/src/services/api.ts:162-179 | the pairs come in the order query, location, jobType, categoryId, companyId, page, pageSize, jobTypes, experienceLevels, locations |
| Api.CompaniesSearch | Frontend/src/services/api.ts:189-199 | the method builds exactly the company query list |
| Api.CompaniesQueryValues | Frontend/src/services/api.ts:192-196 | for every name, the company query carries exactly the truthy query, industry and location and the truthy page and page size as decimal text, and nothing else |
| Api.CompaniesQueryInOrder | Frontend/src/services/api.ts:192-196 | the pairs come in the order query, industry, location, page, pageSize |
| Api.AuthCall | Frontend/src/services/api.ts:227-265 | an ok JSON answer is returned as sent; a non-ok answer gives `success: false` with its `error` when truthy and the fallback otherwise; a thrown `fetch` or a body that is not JSON gives "Network error. Please try again."; every failure has no token and no user |
| Api.FailedAuthIsReported | Frontend/src/services/api.ts:237-264 | login and register fall back to "Login failed" and "Registration failed", keep a server's error, and report a network failure the same way |
| Api.CurrentUser | Frontend/src/services/api.ts:267-280 | the user is returned iff the answer is ok JSON; a non-ok answer throws "Failed to get current user" |
| Api.UpdateProfile | Frontend/src/services/api.ts:298-314 | the user is returned iff the answer is ok JSON; a non-ok answer throws the server's truthy `error`, or "Failed to update profile" |
| JobsPage.ToggleFilter | Frontend/src/pages/Jobs.tsx:58-64 | a selected value is removed, with every copy of it and nothing else; an unselected value is appended at the end |
| JobsPage.ToggleTwice | Frontend/src/pages/Jobs.tsx:58-64 | toggling an unselected value twice restores the original list |
| JobsPage.ToggleDistinct | Frontend/src/pages/Jobs.tsx:58-64 | toggling keeps a selection free of duplicates and changes its length by exactly one |
| JobsPage.RemoveOne | Frontend/src/pages/Jobs.tsx:60 | removing a value from a duplicate-free list that holds it shortens it by one |
| JobsPage.PageWindow | Frontend/src/pages/Jobs.tsx:340-350 | the window has `min(5, totalPages)` buttons, the i-th showing the page the branch chain picks |
| JobsPage.PageWindowSmall | Frontend/src/pages/Jobs.tsx:342-343 | with at most 5 pages the window is exactly 1..totalPages |
| JobsPage.PageWindowLarge | Frontend/src/pages/Jobs.tsx:344-350 | with more than 5 pages the window is 5 consecutive pages; it always lies within [1, totalPages] and strictly increases |
| JobsPage.PageWindowHasCurrent | Frontend/src/pages/Jobs.tsx:340-350 | the window shows the current page iff it lies within [1, totalPages] |
| JobsPage.RequestCarriesSelection | Frontend/src/pages/Jobs.tsx:41-49 | the request sends each selection in full, and nothing for an empty one; query and location only when non-empty; the current page and the page size 10; never a single job type or a category |
| JobsPage.Page.constructor | Frontend/src/pages/Jobs.tsx:31-38 | the page starts with no selections, on page 1 |
| JobsPage.Page.ActiveFiltersCount | Frontend/src/pages/Jobs.tsx:72 | the count is the sum of the three selection lengths, and it is 0 iff all three are empty |
| JobsPage.Page.Toggle | Frontend/src/pages/Jobs.tsx:54-64 | toggling changes only that selection, as `toggleFilter` does, moves the count by one and returns to page 1 |
| JobsPage.Page.ClearFilters | Frontend/src/pages/Jobs.tsx:54-70 | clearing empties all three selections, so the count is 0, and returns to page 1 |
| JobsPage.Page.Navigate | Frontend/src/pages/Jobs.tsx:37-56 | a new URL search changes the query and location; the page returns to 1 iff either text changed |
| JobsPage.Page.Previous | Frontend/src/pages/Jobs.tsx:333 | Previous goes to `max(1, page - 1)`, never below 1 |
| JobsPage.Page.Next | Frontend/src/pages/Jobs.tsx:328-367 | Next goes to `min(totalPages, page + 1)`, never above the last page |
| JobsPage.Page.GoTo | Frontend/src/pages/Jobs.tsx:328-356 | a window button goes to its page, which lies within [1, totalPages] |
| AuthContext.OnlyDeliveredAnswersSignIn | Frontend/src/contexts/AuthContext.tsx:64-82 | only an ok JSON answer can sign in: network failures, non-JSON bodies and non-ok statuses never carry a token and a user |
| AuthContext.Provider.constructor | Frontend/src/contexts/AuthContext.tsx:30-32 | the provider starts loading, with no user and no token, over the browser's storage |
| AuthContext.Provider.IsAuthenticated | Frontend/src/contexts/AuthContext.tsx:110 | true iff a non-empty token and a user are both present |
| AuthContext.Provider.Adopt | Frontend/src/contexts/AuthContext.tsx:64-82 | an answer with success, a token and a user sets both and stores them under the two keys; any other answer changes nothing |
| AuthContext.Provider.Login | Frontend/src/contexts/AuthContext.tsx:61-72 | login returns the mapped answer and adopts it only when it carries success, a token and a user, storing the token and the serialized user; otherwise nothing changes |
| AuthContext.Provider.Register | Frontend/src/contexts/AuthContext.tsx:74-85 | register behaves the same with the registration answer |
| AuthContext.Provider.Logout | Frontend/src/contexts/AuthContext.tsx:87-92 | token and user become null and both storage keys are removed, nothing else |
| AuthContext.Provider.UpdateProfile | Frontend/src/contexts/AuthContext.tsx:94-103 | without a token it throws "Not authenticated" and changes nothing; otherwise a returned user replaces the user in state and in storage, keeping the token, and a failure changes nothing |
| AuthContext.Provider.LoadStored | Frontend/src/contexts/AuthContext.tsx:34-58 | if either entry is missing or empty, nothing is loaded and loading ends; with both, the token is restored; a stored user that parses is restored too and the check with the server starts, one that does not throws and leaves the provider loading |
| AuthContext.Provider.VerifyStored | Frontend/src/contexts/AuthContext.tsx:44-55 | a fresh user from the server replaces the stored one; any failure is a logout; loading ends either way |

## Left out

- Time is a parameter `now`, in whole seconds. `TimeSpan` arithmetic on doubles is modelled as integer division on the non-negative branches.
- `ToLower` is modelled on ASCII letters. `IsNullOrWhiteSpace` is modelled on the ASCII white space characters (space, tab to carriage return), NEL (U+0085) and the no-break space (U+00A0) (`Text.IsWhiteSpace`); the other Unicode space separators and culture rules are not modelled.
- The database is PostgreSQL. Its unique indexes are modelled as case-sensitive and its `varchar(n)` limits as enforced.
- A failed `SaveChanges` is one error kind (`DbUpdate`). The middleware's default branch turns it into a 500.
- A new identity value is modelled as one more than the largest id in its table (`Seqs.NextId`). Rows saved together get consecutive ids.
- The order among rows that tie on the sort key, and the position of a missing rating in a descending sort, are the database's. The model fixes one such order. The contracts state only sortedness and membership where the source promises no more.
- JobRepository.FeaturedJobsProps: a negative `count` takes no jobs in the model. PostgreSQL rejects a negative `LIMIT`, so the source answers 500 there.
- JobRepository.SearchPage: a page below 1 or a negative page size is clamped in the model (an offset below 0 skips nothing, a size below 0 takes nothing). PostgreSQL rejects a negative `OFFSET` or `LIMIT`, so the source answers 500 there.
- CompanyRepository.TopCompaniesProps: a negative `count` takes no companies in the model, where the source's query fails with a 500.
- CompanyRepository.SearchCompaniesPage: a page below 1 or a negative page size is clamped as in `JobRepository.SearchPage`, where the source's query fails with a 500.
- TagRepository.PopularTagsProps: a negative `count` takes no tags in the model, where the source's query fails with a 500.
- CategoryRepository.CategoriesWithJobCountProps: category names are ordered by code point (`Text.LexLe`). In the source `OrderBy(c => c.Name)` runs in PostgreSQL under the database's default collation, which nothing in the source configures; under a linguistic collation such as en_US the order can differ (for example "apple" before "Banana").
- CategoryService.GetWithJobCountProps: the DTOs are ordered by title by code point, for the same reason; the database's collation is not modelled.
- Ratings are whole hundredths. Floating point is not modelled.
- Password hashing, the HMAC signing of tokens, the random token id (`jti`), the clock and the JWT settings are uninterpreted parameters (`AuthService.Crypto`, `AuthService.Env`).
- The mapping of inbound JWT claims by the ASP.NET authentication handler is not modelled. The controller sees the claim values it is given.
- Email comparison is a key function supplied as a parameter.
- Model-state validation in the controller is modelled as a boolean input.
- Logging is left out; it has no effect on results.
- JSON serialization is a parameter. On the client, `JSON.stringify` and `JSON.parse` of a user are a pair of functions assumed to round-trip (`AuthContext.RoundTrips`).
- JobService.SearchAsync: modelled as the envelope it builds around the repository's answer (`JobService.SearchEnvelope`). Its call to `SearchJobsAsync` passes its arguments by position, and they do not line up with the repository's parameters (`JobType` lands on `locations`, `MinSalary` and `MaxSalary` have no parameter). So the link from a `JobSearchParams` to a repository query is not modelled. The repository's search itself is modelled in full (`JobRepository.SearchJobs`).
- JobService.CreateAsync: the returned DTO has an empty company name and no logo, because the job's `Company` navigation is not loaded after the save. The model follows the code.
- JobService.CreateAsync: tag lookups by name see only rows already saved. A tag name given twice in one request therefore creates two tags, and the save fails. The model follows the code.
- AuthService.RegisterThenLogin: holds only when the repository's e-mail match treats the lower-cased address as the address given. Registration stores the lower-cased e-mail, but login looks the address up as typed, so under a case-sensitive match a mixed-case address cannot log in after registering.
- CompanyService's `GetTimeAgo` is textually the same as JobService's. Both are modelled by `JobService.TimeAgo`.
- DbSeeder: the `ToDictionary` duplicate-key error is modelled without the key in its message.
- DbSeeder.SeedIdempotent: requires at least one category. With none, a failing category lookup after the companies are saved would repeat that save on a second run.
- DbSeeder: the demo data's 33 jobs are proved past-dated and attached to known companies one source group at a time (the four group lemmas). The whole list is their concatenation in source order.
- The React effects are modelled as settled steps. Re-rendering, the order of state updates inside one render and concurrent requests are not modelled.
- AuthContext.Provider.VerifyStored: other steps may run between `LoadStored` and this continuation. A late success after a logout writes the user entry again, as the source does.
- AuthContext.Provider.LoadStored: a stored user that is not valid JSON makes `JSON.parse` throw. The effect then stops, and the provider stays loading.
- AuthContext.Provider.LoadStored: stored text that is valid JSON but not a user object (such as `null`) is outside the model. The source sets the user to that value and still calls `getCurrentUser`; the model treats such text like text that does not parse.
- `URLSearchParams` percent-encoding is not modelled. The query is the list of name/value pairs, and `Api.Values` is `getAll`. JavaScript numbers are integers here.
- The bodies and headers of the requests `fetch` sends are not modelled.
- `refreshToken` in `api.ts` is not modelled. Nothing in the modelled front end calls it.
- The generic `fetchApi` helper's error handling for the other endpoints is not modelled. The other endpoints are not part of this model.
- JobsPage.Page.Next: requires more than one page, because the pagination buttons are rendered only then.
- JobsPage.Page.GoTo: requires more than one page, for the same reason, and a page shown in the window, because only those pages have a button.
- JobsPage.Page.Previous: the disabled state of the button is not modelled, because the result never drops below 1 anyway.
- The other controllers, the presentational React components, `hooks.ts` and the EF Core machinery are not modelled: change tracking, migrations and the dependency-injection setup.
