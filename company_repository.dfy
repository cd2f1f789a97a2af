/**
 * `CompanyRepository`: company search, the top companies and a company
 * with its open jobs. Each of them loads `Jobs.Where(j => j.IsActive)`, so
 * a loaded company carries only its active jobs.
 *
 * `Rating` is nullable and PostgreSQL sorts nulls first in a descending
 * order, so an unrated company comes before the rated ones of the same
 * verification status.
 */
module CompanyRepository {
  import opened Wrappers
  import opened Text
  import opened Seqs
  import opened Entities
  import opened DbContext
  import opened JobRepository

  datatype LoadedCompany = LoadedCompany(company: Company, jobs: seq<LoadedJob>)

  /**
   * A job loaded through its company: the inverse navigation points back
   * at the company (relationship fix-up); tags are loaded when asked for.
   */
  function ThroughCompany(s: Store, c: Company, withTags: bool): Job -> LoadedJob {
    (j: Job) => LoadedJob(j, Some(c), None, if withTags then TagsOf(s, j.id) else [], [], [], [], [])
  }

  /** `Include(c => c.Jobs.Where(j => j.IsActive))`. */
  function WithActiveJobs(s: Store, withTags: bool): Company -> LoadedCompany {
    (c: Company) => LoadedCompany(c, Map(Filter(s.jobs, ActiveOfCompany(c.id)), ThroughCompany(s, c, withTags)))
  }

  /** The loaded jobs of a company are exactly its active jobs, each loaded with the company. */
  lemma WithActiveJobsProps(s: Store, withTags: bool, c: Company)
    ensures var r := WithActiveJobs(s, withTags)(c);
      && JobsOf(r.jobs) == Filter(s.jobs, ActiveOfCompany(c.id))
      && (forall v | v in r.jobs :: v.job in s.jobs && v.job.isActive && v.job.companyId == c.id && v.company == Some(c))
  {
    var pool := Filter(s.jobs, ActiveOfCompany(c.id));
    MapInverse(pool, ThroughCompany(s, c, withTags), JobOf);
  }

  function CompanyOf(v: LoadedCompany): Company { v.company }

  function CompaniesOf(r: seq<LoadedCompany>): seq<Company> { Map(r, CompanyOf) }

  lemma CompaniesOfLoaded(s: Store, withTags: bool, cs: seq<Company>)
    ensures CompaniesOf(Map(cs, WithActiveJobs(s, withTags))) == cs
  {
    MapInverse(cs, WithActiveJobs(s, withTags), CompanyOf);
  }

  // ------------------------------------------------------------ ordering

  /** `a` comes no later than `b` by descending rating, nulls first. */
  predicate RatedAbove(a: Option<int>, b: Option<int>) {
    a.None? || (b.Some? && a.value >= b.value)
  }

  /** `OrderByDescending(c => c.IsVerified).ThenByDescending(c => c.Rating)`. */
  function VerifiedThenRating(a: Company, b: Company): bool {
    (a.isVerified && !b.isVerified) || (a.isVerified == b.isVerified && RatedAbove(a.rating, b.rating))
  }

  /** The same, then `ThenByDescending(c => c.Jobs.Count(j => j.IsActive))`. */
  function TopOrder(a: LoadedCompany, b: LoadedCompany): bool {
    || (a.company.isVerified && !b.company.isVerified)
    || (a.company.isVerified == b.company.isVerified
        && (|| (RatedAbove(a.company.rating, b.company.rating) && !RatedAbove(b.company.rating, a.company.rating))
            || (a.company.rating == b.company.rating && |a.jobs| >= |b.jobs|)))
  }

  lemma OrdersTotal()
    ensures TotalPreorder(VerifiedThenRating) && TotalPreorder(TopOrder)
  {
  }

  // -------------------------------------------------------------- search

  datatype CompanyQuery = CompanyQuery(
    query: Option<string>,
    industry: Option<string>,
    location: Option<string>,
    page: int,
    pageSize: int)

  predicate MentionsText(c: Company, text: string) {
    ContainsIgnoreCase(c.name, text) || ContainsIgnoreCase(c.description, text) || ContainsIgnoreCase(c.industry, text)
  }

  function TextFilter(text: string): Company -> bool { (c: Company) => MentionsText(c, text) }
  function IndustryIs(industry: string): Company -> bool { (c: Company) => c.industry == industry }
  function LocatedIn(location: string): Company -> bool { (c: Company) => ContainsIgnoreCase(c.location, location) }

  /** The query as the repository builds it. */
  function Filtered(s: Store, q: CompanyQuery): seq<Company> {
    var r1 := Where(s.companies, Given(q.query), TextFilter(q.query.GetOr("")));
    var r2 := Where(r1, Given(q.industry), IndustryIs(q.industry.GetOr("")));
    Where(r2, Given(q.location), LocatedIn(q.location.GetOr("")))
  }

  /** The criteria as one conjunction: each applies only when given. */
  predicate Matches(q: CompanyQuery, c: Company) {
    && (Given(q.query) ==> MentionsText(c, q.query.value))
    && (Given(q.industry) ==> c.industry == q.industry.value)
    && (Given(q.location) ==> ContainsIgnoreCase(c.location, q.location.value))
  }

  function MatchesQuery(q: CompanyQuery): Company -> bool { (c: Company) => Matches(q, c) }

  function Everything(c: Company): bool { true }

  datatype CompanyPage = CompanyPage(companies: seq<LoadedCompany>, totalCount: int)

  /** `SearchCompaniesAsync`. */
  function SearchCompanies(s: Store, q: CompanyQuery): CompanyPage {
    var hits := Filtered(s, q);
    var ordered := SortBy(hits, VerifiedThenRating);
    CompanyPage(Map(Page(ordered, Offset(q.page, q.pageSize), q.pageSize), WithActiveJobs(s, false)), |hits|)
  }

  /** The chain of `Where`s keeps, in table order, exactly the companies matching the conjunction. */
  lemma FilteredIsConjunction(s: Store, q: CompanyQuery)
    ensures Filtered(s, q) == Filter(s.companies, MatchesQuery(q))
  {
    var a0: Company -> bool := Everything;
    FilterAll(s.companies, a0);
    WhereStep(s.companies, a0, Given(q.query), TextFilter(q.query.GetOr("")));
    var a1 := And(a0, Given(q.query), TextFilter(q.query.GetOr("")));
    WhereStep(s.companies, a1, Given(q.industry), IndustryIs(q.industry.GetOr("")));
    var a2 := And(a1, Given(q.industry), IndustryIs(q.industry.GetOr("")));
    WhereStep(s.companies, a2, Given(q.location), LocatedIn(q.location.GetOr("")));
    var a3 := And(a2, Given(q.location), LocatedIn(q.location.GetOr("")));
    forall c | c in s.companies ensures a3(c) == MatchesQuery(q)(c) {
      assert a1(c) == (Given(q.query) ==> MentionsText(c, q.query.GetOr("")));
      assert a2(c) == (a1(c) && (Given(q.industry) ==> c.industry == q.industry.GetOr("")));
    }
    FilterExt(s.companies, a3, MatchesQuery(q));
  }

  /**
   * `totalCount` counts the hits before paging; the page is the run at the
   * offset of the hits sorted verified first, then by rating, at most
   * `pageSize` long.
   */
  lemma SearchCompaniesPage(s: Store, q: CompanyQuery)
    ensures var hits := Filtered(s, q);
      var ordered := SortBy(hits, VerifiedThenRating);
      var off := Offset(q.page, q.pageSize);
      var r := SearchCompanies(s, q);
      && r.totalCount == |hits|
      && |r.companies| <= r.totalCount
      && |r.companies| <= (if q.pageSize <= 0 then 0 else q.pageSize)
      && SortedBy(ordered, VerifiedThenRating)
      && multiset(ordered) == multiset(hits)
      && (0 <= off ==> forall k :: 0 <= k < |r.companies| ==> off + k < |ordered| && r.companies[k].company == ordered[off + k])
      && (off >= |hits| ==> r.companies == [])
      && (0 <= off <= |hits| ==> |r.companies| == PageLength(|hits|, off, q.pageSize))
      && SortedBy(CompaniesOf(r.companies), VerifiedThenRating)
  {
    var hits := Filtered(s, q);
    var off := Offset(q.page, q.pageSize);
    OrdersTotal();
    SortedPage(hits, VerifiedThenRating, off, q.pageSize);
    CompaniesOfLoaded(s, false, Page(SortBy(hits, VerifiedThenRating), off, q.pageSize));
  }

  /** Every company a search returns is a hit and carries only its active jobs. */
  lemma SearchCompaniesHits(s: Store, q: CompanyQuery)
    ensures forall v | v in SearchCompanies(s, q).companies ::
      v.company in s.companies && Matches(q, v.company)
      && forall w | w in v.jobs :: w.job.isActive && w.job.companyId == v.company.id
  {
    var hits := Filtered(s, q);
    FilteredIsConjunction(s, q);
    var page := Page(SortBy(hits, VerifiedThenRating), Offset(q.page, q.pageSize), q.pageSize);
    PageInSorted(hits, VerifiedThenRating, Offset(q.page, q.pageSize), q.pageSize);
    forall v | v in SearchCompanies(s, q).companies
      ensures v.company in hits && forall w | w in v.jobs :: w.job.isActive && w.job.companyId == v.company.id
    {
      var k :| 0 <= k < |page| && v == WithActiveJobs(s, false)(page[k]);
      assert page[k] in page;
      WithActiveJobsProps(s, false, page[k]);
    }
  }

  // ------------------------------------------------------ top companies

  /** `GetTopCompaniesAsync`. */
  function TopCompanies(s: Store, count: int): seq<LoadedCompany> {
    Take(SortBy(Map(s.companies, WithActiveJobs(s, false)), TopOrder), count)
  }

  /**
   * At most `count` stored companies, verified first, then by rating,
   * then by number of active jobs; each loaded with exactly its active jobs.
   */
  lemma TopCompaniesProps(s: Store, count: int)
    ensures var r := TopCompanies(s, count);
      var loaded := Map(s.companies, WithActiveJobs(s, false));
      && |r| == (if count <= 0 then 0 else if count < |s.companies| then count else |s.companies|)
      && SortedBy(r, TopOrder)
      && multiset(r) <= multiset(loaded)
      && (forall x, y | x in multiset(loaded) - multiset(r) && y in r :: TopOrder(y, x))
      && (forall v | v in r :: v.company in s.companies && JobsOf(v.jobs) == Filter(s.jobs, ActiveOfCompany(v.company.id)))
  {
    var loaded := Map(s.companies, WithActiveJobs(s, false));
    var ordered := SortBy(loaded, TopOrder);
    OrdersTotal();
    TopOf(loaded, TopOrder, count);
    forall v | v in Take(ordered, count)
      ensures v.company in s.companies && JobsOf(v.jobs) == Filter(s.jobs, ActiveOfCompany(v.company.id))
    {
      assert v in multiset(loaded);
      var i :| 0 <= i < |loaded| && loaded[i] == v;
      WithActiveJobsProps(s, false, s.companies[i]);
    }
  }

  // ---------------------------------------------------- one with its jobs

  /** `GetByIdWithJobsAsync`: the company with its active jobs and their tags. */
  function CompanyWithJobs(s: Store, id: int): Option<LoadedCompany> {
    match FindCompany(s, id)
    case None => None
    case Some(c) => Some(WithActiveJobs(s, true)(c))
  }

  /** Found iff some company has the id; the loaded jobs are exactly its active jobs, with their tags. */
  lemma CompanyWithJobsProps(s: Store, id: int)
    ensures CompanyWithJobs(s, id).Some? <==> id in CompanyIds(s)
    ensures CompanyWithJobs(s, id).Some? ==>
      var v := CompanyWithJobs(s, id).value;
      && v.company in s.companies && v.company.id == id
      && JobsOf(v.jobs) == Filter(s.jobs, ActiveOfCompany(id))
      && forall w | w in v.jobs :: w.tags == TagsOf(s, w.job.id)
  {
    if id in CompanyIds(s) {
      var c :| c in s.companies && c.id == id;
      assert CompanyKey(c) == id;
    }
    if CompanyWithJobs(s, id).Some? {
      WithActiveJobsProps(s, true, FindCompany(s, id).value);
    }
  }
}
