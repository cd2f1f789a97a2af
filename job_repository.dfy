/**
 * `JobRepository`: the job queries. Each query `Include`s some navigations;
 * a `LoadedJob` holds the job row with what was loaded, and the collections
 * that were not loaded stay empty, as the entity's initialisers leave them.
 *
 * Ordering ties are the database's to break; the model sorts with a stable
 * sort, and what is stated about an ordered result is only that it is
 * sorted by the query's key and a permutation of what was filtered.
 */
module JobRepository {
  import opened Wrappers
  import opened Text
  import opened Seqs
  import opened Entities
  import opened DbContext

  datatype LoadedJob = LoadedJob(
    job: Job,
    company: Option<Company>,
    category: Option<Category>,
    tags: seq<Tag>,
    responsibilities: seq<JobItem>,
    requirements: seq<JobItem>,
    benefits: seq<JobItem>,
    applications: seq<Application>)

  // ------------------------------------------------------------- loading

  /** The tag behind each link, in link order (`ThenInclude(jt => jt.Tag)`). */
  function TagsOfLinks(s: Store, links: seq<JobTag>): (r: seq<Tag>)
    ensures |r| <= |links|
    ensures forall t | t in r :: t in s.tags && exists jt | jt in links :: jt.tagId == t.id
    ensures forall jt | jt in links && FindTag(s, jt.tagId).Some? :: FindTag(s, jt.tagId).value in r
  {
    if links == [] then []
    else
      assert forall jt | jt in links :: jt == links[0] || jt in links[1..];
      var head := match FindTag(s, links[0].tagId) case Some(t) => [t] case None => [];
      head + TagsOfLinks(s, links[1..])
  }

  function LinkOfJob(jobId: int): JobTag -> bool { (jt: JobTag) => jt.jobId == jobId }

  function LinksOf(s: Store, jobId: int): seq<JobTag> {
    Filter(s.jobTags, LinkOfJob(jobId))
  }

  /** The tags of a job, through its `JobTags`. */
  function TagsOf(s: Store, jobId: int): seq<Tag> {
    TagsOfLinks(s, LinksOf(s, jobId))
  }

  /** `Include(j => j.Company).Include(j => j.JobTags).ThenInclude(jt => jt.Tag)`. */
  function WithCompanyAndTags(s: Store): Job -> LoadedJob {
    (j: Job) => LoadedJob(j, FindCompany(s, j.companyId), None, TagsOf(s, j.id), [], [], [], [])
  }

  function JobOf(v: LoadedJob): Job { v.job }

  /** The job rows of a query result. */
  function JobsOf(r: seq<LoadedJob>): seq<Job> {
    Map(r, JobOf)
  }

  lemma JobsOfLoaded(s: Store, jobs: seq<Job>)
    ensures JobsOf(Map(jobs, WithCompanyAndTags(s))) == jobs
  {
    MapInverse(jobs, WithCompanyAndTags(s), JobOf);
  }

  // ------------------------------------------------------------ ordering

  /** `OrderByDescending(j => j.PostedDate)`. */
  function Newest(a: Job, b: Job): bool {
    a.postedDate >= b.postedDate
  }

  /** `OrderByDescending(j => j.IsFeatured).ThenByDescending(j => j.PostedDate)`. */
  function FeaturedThenNewest(a: Job, b: Job): bool {
    (a.isFeatured && !b.isFeatured) || (a.isFeatured == b.isFeatured && a.postedDate >= b.postedDate)
  }

  /** `OrderBy(r => r.Order)` on a child list. */
  function ByOrder(a: JobItem, b: JobItem): bool {
    a.order <= b.order
  }

  lemma OrdersTotal()
    ensures TotalPreorder(Newest) && TotalPreorder(FeaturedThenNewest) && TotalPreorder(ByOrder)
  {
  }

  // -------------------------------------------------------------- search

  datatype JobQuery = JobQuery(
    query: Option<string>,
    location: Option<string>,
    locations: Option<seq<string>>,
    jobType: Option<string>,
    jobTypes: Option<seq<string>>,
    experienceLevels: Option<seq<string>>,
    categoryId: Option<int>,
    companyId: Option<int>,
    page: int,
    pageSize: int)

  /** A text parameter counts when it is not null, empty or white space. */
  predicate Given(o: Option<string>) { !IsNullOrWhiteSpace(o) }

  /** An array parameter counts when it is not null and not empty. */
  predicate GivenList(o: Option<seq<string>>) { o.Some? && |o.value| > 0 }

  /** The free-text match: title, description, company name or some tag name. */
  predicate Mentions(s: Store, j: Job, text: string) {
    || ContainsIgnoreCase(j.title, text)
    || ContainsIgnoreCase(j.description, text)
    || (FindCompany(s, j.companyId).Some? && ContainsIgnoreCase(FindCompany(s, j.companyId).value.name, text))
    || (exists t | t in TagsOf(s, j.id) :: ContainsIgnoreCase(t.name, text))
  }

  /** The single location and the locations array, combined with OR. */
  predicate AtLocation(q: JobQuery, j: Job) {
    || (Given(q.location) && ContainsIgnoreCase(j.location, q.location.value))
    || (GivenList(q.locations) && exists loc | loc in q.locations.value :: ContainsIgnoreCase(j.location, loc))
  }

  function TextFilter(s: Store, text: string): Job -> bool { (j: Job) => Mentions(s, j, text) }
  function LocationFilter(q: JobQuery): Job -> bool { (j: Job) => AtLocation(q, j) }
  function JobTypeIs(t: string): Job -> bool { (j: Job) => j.jobType == t }
  function JobTypeIn(ts: seq<string>): Job -> bool { (j: Job) => j.jobType in ts }
  function LevelIn(ls: seq<string>): Job -> bool { (j: Job) => j.experienceLevel in ls }
  function InCategory(id: int): Job -> bool { (j: Job) => j.categoryId == id }
  function OfCompany(id: int): Job -> bool { (j: Job) => j.companyId == id }
  function IsActive(j: Job): bool { j.isActive }

  /** Whether the `k`-th conditional `Where` of the search applies. */
  predicate Applies(q: JobQuery, k: nat) {
    if k == 1 then Given(q.query)
    else if k == 2 then Given(q.location) || GivenList(q.locations)
    else if k == 3 then Given(q.jobType)
    else if k == 4 then GivenList(q.jobTypes)
    else if k == 5 then GivenList(q.experienceLevels)
    else if k == 6 then q.categoryId.Some?
    else q.companyId.Some?
  }

  /** The condition of the `k`-th conditional `Where`. */
  function Step(s: Store, q: JobQuery, k: nat): Job -> bool {
    if k == 1 then TextFilter(s, q.query.GetOr(""))
    else if k == 2 then LocationFilter(q)
    else if k == 3 then JobTypeIs(q.jobType.GetOr(""))
    else if k == 4 then JobTypeIn(q.jobTypes.GetOr([]))
    else if k == 5 then LevelIn(q.experienceLevels.GetOr([]))
    else if k == 6 then InCategory(q.categoryId.GetOr(0))
    else OfCompany(q.companyId.GetOr(0))
  }

  /** The query after the active-job filter and the first `k` conditional `Where`s. */
  function Built(s: Store, q: JobQuery, k: nat): seq<Job>
    requires k <= 7
  {
    if k == 0 then Filter(s.jobs, IsActive) else Where(Built(s, q, k - 1), Applies(q, k), Step(s, q, k))
  }

  /** The query as the repository builds it: one conditional `Where` after another. */
  function Filtered(s: Store, q: JobQuery): seq<Job> {
    Built(s, q, 7)
  }

  /** The search criteria as one conjunction: each filter applies only when it is given. */
  predicate Matches(s: Store, q: JobQuery, j: Job) {
    && j.isActive
    && (Given(q.query) ==> Mentions(s, j, q.query.value))
    && (Given(q.location) || GivenList(q.locations) ==> AtLocation(q, j))
    && (Given(q.jobType) ==> j.jobType == q.jobType.value)
    && (GivenList(q.jobTypes) ==> j.jobType in q.jobTypes.value)
    && (GivenList(q.experienceLevels) ==> j.experienceLevel in q.experienceLevels.value)
    && (q.categoryId.Some? ==> j.categoryId == q.categoryId.value)
    && (q.companyId.Some? ==> j.companyId == q.companyId.value)
  }

  function MatchesQuery(s: Store, q: JobQuery): Job -> bool { (j: Job) => Matches(s, q, j) }

  /** The offset `(page - 1) * pageSize`, computed in 32-bit `int` arithmetic. */
  function Offset(page: int, pageSize: int): int {
    Wrap32((page - 1) * pageSize)
  }

  datatype JobPage = JobPage(jobs: seq<LoadedJob>, totalCount: int)

  /** `SearchJobsAsync`. */
  function SearchJobs(s: Store, q: JobQuery): JobPage {
    var hits := Filtered(s, q);
    var ordered := SortBy(hits, FeaturedThenNewest);
    JobPage(Map(Page(ordered, Offset(q.page, q.pageSize), q.pageSize), WithCompanyAndTags(s)), |hits|)
  }

  /** The conditions of the first `k` steps, as one predicate. */
  function Stage(s: Store, q: JobQuery, k: nat): Job -> bool {
    if k == 0 then IsActive else And(Stage(s, q, k - 1), Applies(q, k), Step(s, q, k))
  }

  lemma {:induction false} BuiltIsStage(s: Store, q: JobQuery, k: nat)
    requires k <= 7
    ensures Built(s, q, k) == Filter(s.jobs, Stage(s, q, k))
  {
    if k > 0 {
      var a, apply, p := Stage(s, q, k - 1), Applies(q, k), Step(s, q, k);
      calc {
        Built(s, q, k);
      == { BuiltUnfold(s, q, k); }
        Where(Built(s, q, k - 1), apply, p);
      == { BuiltIsStage(s, q, k - 1); }
        Where(Filter(s.jobs, a), apply, p);
      == { WhereStep(s.jobs, a, apply, p); }
        Filter(s.jobs, And(a, apply, p));
      == { StageUnfold(s, q, k); }
        Filter(s.jobs, Stage(s, q, k));
      }
    }
  }

  lemma BuiltUnfold(s: Store, q: JobQuery, k: nat)
    requires 0 < k <= 7
    ensures Built(s, q, k) == Where(Built(s, q, k - 1), Applies(q, k), Step(s, q, k))
  {
  }

  lemma StageUnfold(s: Store, q: JobQuery, k: nat)
    requires 0 < k
    ensures Stage(s, q, k) == And(Stage(s, q, k - 1), Applies(q, k), Step(s, q, k))
  {
  }

  lemma StagesAreMatches(s: Store, q: JobQuery, x: Job)
    ensures Stage(s, q, 7)(x) == Matches(s, q, x)
  {
    assert Stage(s, q, 1)(x) == (x.isActive && (Given(q.query) ==> Mentions(s, x, q.query.GetOr(""))));
    assert Stage(s, q, 2)(x) == (Stage(s, q, 1)(x) && (Given(q.location) || GivenList(q.locations) ==> AtLocation(q, x)));
    assert Stage(s, q, 3)(x) == (Stage(s, q, 2)(x) && (Given(q.jobType) ==> x.jobType == q.jobType.GetOr("")));
    assert Stage(s, q, 4)(x) == (Stage(s, q, 3)(x) && (GivenList(q.jobTypes) ==> x.jobType in q.jobTypes.GetOr([])));
    assert Stage(s, q, 5)(x) == (Stage(s, q, 4)(x) && (GivenList(q.experienceLevels) ==> x.experienceLevel in q.experienceLevels.GetOr([])));
    assert Stage(s, q, 6)(x) == (Stage(s, q, 5)(x) && (q.categoryId.Some? ==> x.categoryId == q.categoryId.GetOr(0)));
  }

  /** The chain of `Where`s keeps, in table order, exactly the jobs matching the conjunction. */
  lemma FilteredIsConjunction(s: Store, q: JobQuery)
    ensures Filtered(s, q) == Filter(s.jobs, MatchesQuery(s, q))
  {
    BuiltIsStage(s, q, 7);
    forall x | x in s.jobs ensures Stage(s, q, 7)(x) == MatchesQuery(s, q)(x) {
      StagesAreMatches(s, q, x);
    }
    FilterExt(s.jobs, Stage(s, q, 7), MatchesQuery(s, q));
  }

  /** A job is a hit iff it is stored and matches every given criterion. */
  lemma SearchHits(s: Store, q: JobQuery)
    ensures forall j :: j in Filtered(s, q) <==> j in s.jobs && Matches(s, q, j)
  {
    FilteredIsConjunction(s, q);
  }

  /** Every job a search returns is active, and is a hit. */
  lemma SearchReturnsActive(s: Store, q: JobQuery)
    ensures forall v | v in SearchJobs(s, q).jobs :: v.job.isActive && v.job in Filtered(s, q)
  {
    var hits := Filtered(s, q);
    SearchHits(s, q);
    var page := Page(SortBy(hits, FeaturedThenNewest), Offset(q.page, q.pageSize), q.pageSize);
    PageInSorted(hits, FeaturedThenNewest, Offset(q.page, q.pageSize), q.pageSize);
    forall v | v in SearchJobs(s, q).jobs ensures v.job in hits {
      var k :| 0 <= k < |page| && v == WithCompanyAndTags(s)(page[k]);
      assert page[k] in page;
    }
  }

  /** A blank query, or no location at all, filters nothing. */
  lemma UnsetFiltersFilterNothing(s: Store, q: JobQuery)
    ensures !Given(q.query) ==> Filtered(s, q) == Filtered(s, q.(query := None))
    ensures !Given(q.location) && !GivenList(q.locations) ==>
      Filtered(s, q) == Filtered(s, q.(location := None, locations := None))
  {
    FilteredIsConjunction(s, q);
    var q1 := q.(query := None);
    var q2 := q.(location := None, locations := None);
    FilteredIsConjunction(s, q1);
    FilteredIsConjunction(s, q2);
    if !Given(q.query) {
      FilterExt(s.jobs, MatchesQuery(s, q), MatchesQuery(s, q1));
    }
    if !Given(q.location) && !GivenList(q.locations) {
      FilterExt(s.jobs, MatchesQuery(s, q), MatchesQuery(s, q2));
    }
  }

  /**
   * `totalCount` counts the hits before paging; the page holds at most
   * `pageSize` of them and no more than there are.
   */
  lemma SearchCounts(s: Store, q: JobQuery)
    ensures SearchJobs(s, q).totalCount == |Filtered(s, q)|
    ensures |SearchJobs(s, q).jobs| <= SearchJobs(s, q).totalCount
    ensures |SearchJobs(s, q).jobs| <= if q.pageSize <= 0 then 0 else q.pageSize
  {
    PageShape(SortBy(Filtered(s, q), FeaturedThenNewest), Offset(q.page, q.pageSize), q.pageSize);
  }

  /**
   * The page is the run at the offset of the hits sorted featured first,
   * then newest first; past the end it is empty, with the total unchanged.
   */
  lemma SearchPage(s: Store, q: JobQuery)
    ensures var hits := Filtered(s, q);
      var ordered := SortBy(hits, FeaturedThenNewest);
      var off := Offset(q.page, q.pageSize);
      var r := SearchJobs(s, q);
      && SortedBy(ordered, FeaturedThenNewest)
      && multiset(ordered) == multiset(hits)
      && (0 <= off ==> forall k :: 0 <= k < |r.jobs| ==> off + k < |ordered| && r.jobs[k].job == ordered[off + k])
      && (off >= |hits| ==> r.jobs == [] && r.totalCount == |hits|)
      && (0 <= off <= |hits| ==> |r.jobs| == PageLength(|hits|, off, q.pageSize))
      && SortedBy(JobsOf(r.jobs), FeaturedThenNewest)
  {
    var hits := Filtered(s, q);
    var off := Offset(q.page, q.pageSize);
    var r := SearchJobs(s, q);
    assert r == JobPage(Map(Page(SortBy(hits, FeaturedThenNewest), off, q.pageSize), WithCompanyAndTags(s)), |hits|);
    OrdersTotal();
    LoadedPage(hits, FeaturedThenNewest, WithCompanyAndTags(s), off, q.pageSize, r);
  }

  /**
   * The facts of `SearchPage` for any offset, order and loading of the
   * rows, of a page loaded from the sorted hits.
   */
  lemma LoadedPage(hits: seq<Job>, le: (Job, Job) -> bool, load: Job -> LoadedJob, off: int, pageSize: int, r: JobPage)
    requires TotalPreorder(le)
    requires forall j :: load(j).job == j
    requires r == JobPage(Map(Page(SortBy(hits, le), off, pageSize), load), |hits|)
    ensures var ordered := SortBy(hits, le);
      && SortedBy(ordered, le)
      && multiset(ordered) == multiset(hits)
      && (0 <= off ==> forall k :: 0 <= k < |r.jobs| ==> off + k < |ordered| && r.jobs[k].job == ordered[off + k])
      && (off >= |hits| ==> r.jobs == [] && r.totalCount == |hits|)
      && (0 <= off <= |hits| ==> |r.jobs| == PageLength(|hits|, off, pageSize))
      && SortedBy(JobsOf(r.jobs), le)
  {
    var o := SortBy(hits, le);
    var pg := Page(o, off, pageSize);
    SortedPage(hits, le, off, pageSize);
    MapInverse(pg, load, JobOf);
    assert JobsOf(r.jobs) == pg && |r.jobs| == |pg|;
    if 0 <= off {
      forall k | 0 <= k < |r.jobs| ensures off + k < |o| && r.jobs[k].job == o[off + k] {
        assert r.jobs[k].job == pg[k];
      }
    }
  }

  /**
   * The offset `(page - 1) * pageSize` is computed in 32-bit arithmetic:
   * it is the product itself when that fits, and otherwise the product
   * wrapped into the `int` range.
   */
  lemma OffsetUnwrapped(page: int, pageSize: int)
    ensures Int32Min <= Offset(page, pageSize) <= Int32Max
    ensures Int32Min <= (page - 1) * pageSize <= Int32Max ==> Offset(page, pageSize) == (page - 1) * pageSize
    ensures (Offset(page, pageSize) - (page - 1) * pageSize) % 0x1_0000_0000 == 0
  {
  }

  /** The loaded page holds the page's jobs, one for one. */
  lemma PageJobs(s: Store, pg: seq<Job>)
    ensures var r := Map(pg, WithCompanyAndTags(s));
      && JobsOf(r) == pg
      && |r| == |pg|
      && forall k :: 0 <= k < |r| ==> r[k].job == pg[k]
  {
    JobsOfLoaded(s, pg);
  }

  /** Each returned job comes with its company and its tags. */
  lemma SearchLoadsCompanyAndTags(s: Store, q: JobQuery)
    ensures forall v | v in SearchJobs(s, q).jobs ::
      v.company == FindCompany(s, v.job.companyId) && v.tags == TagsOf(s, v.job.id)
  {
  }

  // ------------------------------------------------------- featured jobs

  function FeaturedAndActive(j: Job): bool { j.isFeatured && j.isActive }

  /** `GetFeaturedJobsAsync`. */
  function FeaturedJobs(s: Store, count: int): seq<LoadedJob> {
    Map(Take(SortBy(Filter(s.jobs, FeaturedAndActive), Newest), count), WithCompanyAndTags(s))
  }

  /**
   * At most `count` jobs, all stored, featured and active, newest first;
   * when `count` covers them all, every featured active job.
   */
  lemma FeaturedJobsProps(s: Store, count: int)
    ensures var r := JobsOf(FeaturedJobs(s, count));
      var pool := Filter(s.jobs, FeaturedAndActive);
      && |r| == (if count <= 0 then 0 else if count < |pool| then count else |pool|)
      && (forall j | j in r :: j in s.jobs && j.isFeatured && j.isActive)
      && SortedBy(r, Newest)
      && multiset(r) <= multiset(pool)
      && (count >= |pool| ==> multiset(r) == multiset(pool))
      && (forall x, y | x in multiset(pool) - multiset(r) && y in r :: Newest(y, x))
  {
    var pool := Filter(s.jobs, FeaturedAndActive);
    var ordered := SortBy(pool, Newest);
    OrdersTotal();
    TopOf(pool, Newest, count);
    JobsOfLoaded(s, Take(ordered, count));
    var r := Take(ordered, count);
    forall j | j in r ensures j in s.jobs && j.isFeatured && j.isActive {
      assert j in multiset(pool);
    }
  }

  // ------------------------------------------------ by company, category

  function ActiveOfCompany(id: int): Job -> bool { (j: Job) => j.companyId == id && j.isActive }
  function ActiveInCategory(id: int): Job -> bool { (j: Job) => j.categoryId == id && j.isActive }

  /** `GetJobsByCompanyAsync`. */
  function JobsByCompany(s: Store, companyId: int): seq<LoadedJob> {
    Map(SortBy(Filter(s.jobs, ActiveOfCompany(companyId)), Newest), WithCompanyAndTags(s))
  }

  /** `GetJobsByCategoryAsync`. */
  function JobsByCategory(s: Store, categoryId: int): seq<LoadedJob> {
    Map(SortBy(Filter(s.jobs, ActiveInCategory(categoryId)), Newest), WithCompanyAndTags(s))
  }

  /** Exactly the active jobs of the company, each as often as stored, newest first. */
  lemma JobsByCompanyProps(s: Store, companyId: int)
    ensures var r := JobsOf(JobsByCompany(s, companyId));
      && multiset(r) == multiset(Filter(s.jobs, ActiveOfCompany(companyId)))
      && (forall j :: j in r <==> j in s.jobs && j.companyId == companyId && j.isActive)
      && SortedBy(r, Newest)
  {
    var pool := Filter(s.jobs, ActiveOfCompany(companyId));
    OrdersTotal();
    SortBySorted(pool, Newest);
    JobsOfLoaded(s, SortBy(pool, Newest));
    var r := SortBy(pool, Newest);
    assert forall j :: j in r <==> j in multiset(pool);
  }

  /** Exactly the active jobs of the category, each as often as stored, newest first. */
  lemma JobsByCategoryProps(s: Store, categoryId: int)
    ensures var r := JobsOf(JobsByCategory(s, categoryId));
      && multiset(r) == multiset(Filter(s.jobs, ActiveInCategory(categoryId)))
      && (forall j :: j in r <==> j in s.jobs && j.categoryId == categoryId && j.isActive)
      && SortedBy(r, Newest)
  {
    var pool := Filter(s.jobs, ActiveInCategory(categoryId));
    OrdersTotal();
    SortBySorted(pool, Newest);
    JobsOfLoaded(s, SortBy(pool, Newest));
    var r := SortBy(pool, Newest);
    assert forall j :: j in r <==> j in multiset(pool);
  }

  // ------------------------------------------------------------- details

  function ItemOfJob(jobId: int): JobItem -> bool { (r: JobItem) => r.jobId == jobId }
  function ApplicationOfJob(jobId: int): Application -> bool { (a: Application) => a.jobId == jobId }

  /** A child list, `Include(j => j.Xs.OrderBy(x => x.Order))`. */
  function ChildrenOf(items: seq<JobItem>, jobId: int): seq<JobItem> {
    SortBy(Filter(items, ItemOfJob(jobId)), ByOrder)
  }

  /** `GetByIdWithDetailsAsync`: the job with every navigation loaded, or nothing. */
  function JobWithDetails(s: Store, id: int): Option<LoadedJob> {
    match FindJob(s, id)
    case None => None
    case Some(j) =>
      Some(LoadedJob(j, FindCompany(s, j.companyId), FindCategory(s, j.categoryId), TagsOf(s, j.id),
        ChildrenOf(s.responsibilities, j.id), ChildrenOf(s.requirements, j.id),
        ChildrenOf(s.benefits, j.id), Filter(s.applications, ApplicationOfJob(j.id))))
  }

  /** Each child list holds exactly the job's rows of that table, in `Order`. */
  lemma ChildrenOfProps(items: seq<JobItem>, jobId: int)
    ensures var r := ChildrenOf(items, jobId);
      && multiset(r) == multiset(Filter(items, ItemOfJob(jobId)))
      && (forall x :: x in r <==> x in items && x.jobId == jobId)
      && SortedBy(r, ByOrder)
  {
    OrdersTotal();
    SortBySorted(Filter(items, ItemOfJob(jobId)), ByOrder);
    var r := ChildrenOf(items, jobId);
    assert forall x :: x in r <==> x in multiset(Filter(items, ItemOfJob(jobId)));
  }

  /**
   * `GetByIdWithDetailsAsync` finds a job iff one has that id, and in a
   * valid store it is the job with that id, with its company and category.
   */
  lemma JobWithDetailsProps(s: Store, id: int)
    ensures JobWithDetails(s, id).Some? <==> id in JobIds(s)
    ensures JobWithDetails(s, id).Some? ==> JobWithDetails(s, id).value.job in s.jobs && JobWithDetails(s, id).value.job.id == id
    ensures Valid(s) && JobWithDetails(s, id).Some? ==>
      JobWithDetails(s, id).value.company.Some? && JobWithDetails(s, id).value.category.Some?
  {
    if id in JobIds(s) {
      var j :| j in s.jobs && j.id == id;
      assert JobKey(j) == id;
    }
    if Valid(s) && JobWithDetails(s, id).Some? {
      var j := JobWithDetails(s, id).value.job;
      var c :| c in s.companies && c.id == j.companyId;
      assert CompanyKey(c) == j.companyId;
      var g :| g in s.categories && g.id == j.categoryId;
      assert CategoryKey(g) == j.categoryId;
    }
  }
}
