/**
 * `CompanyService`: company DTOs with their derived job counts, the
 * company search envelope, and the company mutations.
 *
 * Only `GetByIdAsync`, the search and the top list load a company's jobs
 * (the active ones); `CreateAsync` and `UpdateAsync` answer from an entity
 * whose `Jobs` collection is empty, so their `OpenJobsCount` is 0.
 */
module CompanyService {
  import opened Wrappers
  import opened Seqs
  import opened Entities
  import opened Exceptions
  import opened DbContext
  import opened JobRepository
  import opened CompanyRepository
  import JobService

  datatype CompanyDto = CompanyDto(
    id: int,
    name: string,
    description: string,
    industry: string,
    location: string,
    logo: Option<string>,
    size: Option<string>,
    rating: Option<int>,
    reviewCount: int,
    openJobsCount: int,
    isVerified: bool)

  datatype CompanyDetailDto = CompanyDetailDto(
    id: int,
    name: string,
    description: string,
    industry: string,
    location: string,
    logo: Option<string>,
    website: Option<string>,
    size: Option<string>,
    foundedYear: Option<string>,
    rating: Option<int>,
    reviewCount: int,
    openJobsCount: int,
    isVerified: bool,
    recentJobs: seq<JobService.JobDto>)

  datatype CreateCompanyDto = CreateCompanyDto(
    name: string,
    description: string,
    industry: string,
    location: string,
    logo: Option<string>,
    website: Option<string>,
    size: Option<string>,
    foundedYear: Option<string>)

  // ------------------------------------------------------------- mapping

  predicate LoadedActive(w: LoadedJob) { w.job.isActive }

  /** `company.Jobs?.Count(j => j.IsActive) ?? 0`. */
  function OpenJobsCount(v: LoadedCompany): nat {
    Count(v.jobs, LoadedActive)
  }

  /** `OrderByDescending(j => j.PostedDate)` on loaded jobs. */
  predicate NewerLoaded(a: LoadedJob, b: LoadedJob) {
    a.job.postedDate >= b.job.postedDate
  }

  const RecentLimit: int := 5

  /** The jobs behind `RecentJobs`: active, newest first, at most five. */
  function RecentSource(v: LoadedCompany): seq<LoadedJob> {
    Take(SortBy(Filter(v.jobs, LoadedActive), NewerLoaded), RecentLimit)
  }

  /** A recent job as `MapToDetailDto` builds it, from the company rather than the job's navigation. */
  function RecentJob(c: Company, now: int): LoadedJob -> JobService.JobDto {
    (w: LoadedJob) => JobService.JobDto(w.job.id, w.job.title, c.name, c.logo, c.id, w.job.location,
      w.job.salary, w.job.jobType, JobService.TimeAgo(now - w.job.postedDate), w.job.isFeatured,
      Map(w.tags, TagName))
  }

  /** `MapToDto`. */
  function ToDto(v: LoadedCompany): CompanyDto {
    var c := v.company;
    CompanyDto(c.id, c.name, c.description, c.industry, c.location, c.logo, c.size, c.rating,
      c.reviewCount, OpenJobsCount(v), c.isVerified)
  }

  /** `MapToDetailDto`. */
  function ToDetailDto(v: LoadedCompany, now: int): CompanyDetailDto {
    var c := v.company;
    CompanyDetailDto(c.id, c.name, c.description, c.industry, c.location, c.logo, c.website, c.size,
      c.foundedYear, c.rating, c.reviewCount, OpenJobsCount(v), c.isVerified,
      Map(RecentSource(v), RecentJob(c, now)))
  }

  /**
   * The jobs behind `RecentJobs`: as many as `min(5, OpenJobsCount)` of
   * the company's active jobs, newest first, and none left out that is
   * newer than one kept.
   */
  lemma RecentSourceProps(v: LoadedCompany)
    ensures var ws := RecentSource(v);
      var open := Filter(v.jobs, LoadedActive);
      && |ws| == (if OpenJobsCount(v) < RecentLimit then OpenJobsCount(v) else RecentLimit)
      && SortedBy(ws, NewerLoaded)
      && multiset(ws) <= multiset(open)
      && (forall w | w in ws :: w in v.jobs && w.job.isActive)
      && (forall w | w in open && w !in ws :: forall x | x in ws :: NewerLoaded(x, w))
  {
    var open := Filter(v.jobs, LoadedActive);
    var ws := RecentSource(v);
    assert TotalPreorder(NewerLoaded);
    TopOf(open, NewerLoaded, RecentLimit);
    assert |open| == OpenJobsCount(v);
    forall w | w in ws ensures w in v.jobs && w.job.isActive {
      assert w in multiset(ws);
      assert w in multiset(open);
      assert w in open;
      assert LoadedActive(w);
    }
    forall w, x | w in open && w !in ws && x in ws ensures NewerLoaded(x, w) {
      assert multiset(ws)[w] == 0;
      assert w in multiset(open) - multiset(ws);
    }
  }

  /** `RecentJobs` shows those jobs in order, each with the company's own name, logo and id. */
  lemma RecentJobsProps(v: LoadedCompany, now: int)
    ensures var ws := RecentSource(v);
      var d := ToDetailDto(v, now);
      && |d.recentJobs| == |ws| && |d.recentJobs| <= RecentLimit && |d.recentJobs| <= d.openJobsCount
      && forall i :: 0 <= i < |ws| ==>
           && d.recentJobs[i].id == ws[i].job.id
           && d.recentJobs[i].company == v.company.name
           && d.recentJobs[i].companyLogo == v.company.logo
           && d.recentJobs[i].companyId == v.company.id
           && d.recentJobs[i].postedAt == JobService.TimeAgo(now - ws[i].job.postedDate)
  {
    RecentSourceProps(v);
  }

  // --------------------------------------------------------------- reads

  /** `GetByIdAsync`. */
  function GetById(s: Store, id: int, now: int): Option<CompanyDetailDto> {
    match CompanyWithJobs(s, id)
    case None => None
    case Some(v) => Some(ToDetailDto(v, now))
  }

  /** A company loaded with its active jobs counts exactly the active jobs the store has for it. */
  lemma OpenJobsOfLoaded(s: Store, v: LoadedCompany)
    requires JobsOf(v.jobs) == Filter(s.jobs, ActiveOfCompany(v.company.id))
    ensures OpenJobsCount(v) == Count(s.jobs, ActiveOfCompany(v.company.id))
  {
    forall w | w in v.jobs ensures LoadedActive(w) {
      var i :| 0 <= i < |v.jobs| && v.jobs[i] == w;
      assert JobsOf(v.jobs)[i] == w.job;
      assert w.job in Filter(s.jobs, ActiveOfCompany(v.company.id));
    }
    FilterAll(v.jobs, LoadedActive);
  }

  /** `GetByIdAsync` finds exactly the stored companies, and counts their active jobs in the store. */
  lemma GetByIdCounts(s: Store, id: int, now: int)
    ensures GetById(s, id, now).Some? <==> id in CompanyIds(s)
    ensures GetById(s, id, now).Some? ==>
      && GetById(s, id, now).value.id == id
      && GetById(s, id, now).value.openJobsCount == Count(s.jobs, ActiveOfCompany(id))
  {
    CompanyWithJobsProps(s, id);
    if id in CompanyIds(s) {
      OpenJobsOfLoaded(s, CompanyWithJobs(s, id).value);
    }
  }

  /** `SearchAsync`: the DTOs in order, the total passed through, the paging echoed. */
  function SearchEnvelope(found: CompanyPage, page: int, pageSize: int): JobService.PagedResult<CompanyDto> {
    JobService.PagedResult(Map(found.companies, ToDto), found.totalCount, page, pageSize)
  }

  lemma SearchEnvelopeProps(found: CompanyPage, page: int, pageSize: int)
    ensures var r := SearchEnvelope(found, page, pageSize);
      && r.page == page && r.pageSize == pageSize && r.totalCount == found.totalCount
      && |r.items| == |found.companies|
      && forall i :: 0 <= i < |r.items| ==> r.items[i].id == found.companies[i].company.id
  {
  }

  /** A searched company's `OpenJobsCount` is its number of active jobs in the store. */
  lemma SearchCounts(s: Store, q: CompanyQuery, page: int, pageSize: int)
    ensures var r := SearchEnvelope(SearchCompanies(s, q), page, pageSize);
      forall d | d in r.items :: d.openJobsCount == Count(s.jobs, ActiveOfCompany(d.id))
  {
    var found := SearchCompanies(s, q).companies;
    var rows := Page(SortBy(CompanyRepository.Filtered(s, q), VerifiedThenRating), Offset(q.page, q.pageSize), q.pageSize);
    assert found == Map(rows, WithActiveJobs(s, false));
    forall d | d in SearchEnvelope(SearchCompanies(s, q), page, pageSize).items
      ensures d.openJobsCount == Count(s.jobs, ActiveOfCompany(d.id))
    {
      var i :| 0 <= i < |found| && ToDto(found[i]) == d;
      assert found[i] == WithActiveJobs(s, false)(rows[i]);
      WithActiveJobsProps(s, false, rows[i]);
      OpenJobsOfLoaded(s, found[i]);
    }
  }

  /** `GetTopAsync`. */
  function Top(s: Store, count: int): seq<CompanyDto> {
    Map(TopCompanies(s, count), ToDto)
  }

  /**
   * The top list shows, in order, the companies `GetTopCompaniesAsync` ranks
   * first, `count` of them or all; each with its number of active jobs in the store.
   */
  lemma TopCounts(s: Store, count: int)
    ensures var top := TopCompanies(s, count);
      var r := Top(s, count);
      && |r| == (if count <= 0 then 0 else if count < |s.companies| then count else |s.companies|)
      && (forall i :: 0 <= i < |r| ==> r[i].id == top[i].company.id && r[i].isVerified == top[i].company.isVerified)
      && forall d | d in r :: d.id in CompanyIds(s) && d.openJobsCount == Count(s.jobs, ActiveOfCompany(d.id))
  {
    var top := TopCompanies(s, count);
    TopCompaniesProps(s, count);
    TopCountsEach(s, top);
  }

  /** The DTO of each stored company loaded with its active jobs counts exactly those jobs. */
  lemma TopCountsEach(s: Store, top: seq<LoadedCompany>)
    requires forall v | v in top ::
      v.company in s.companies && JobsOf(v.jobs) == Filter(s.jobs, ActiveOfCompany(v.company.id))
    ensures var r := Map(top, ToDto);
      && (forall i :: 0 <= i < |r| ==> r[i].id == top[i].company.id && r[i].isVerified == top[i].company.isVerified)
      && forall d | d in r :: d.id in CompanyIds(s) && d.openJobsCount == Count(s.jobs, ActiveOfCompany(d.id))
  {
    var r := Map(top, ToDto);
    forall d | d in r
      ensures d.id in CompanyIds(s) && d.openJobsCount == Count(s.jobs, ActiveOfCompany(d.id))
    {
      var i :| 0 <= i < |top| && r[i] == d;
      assert top[i] in top;
      OpenJobsOfLoaded(s, top[i]);
    }
  }

  // -------------------------------------------------------------- create

  /** The new company: unrated, unreviewed, unverified. */
  function NewCompany(dto: CreateCompanyDto, id: int): Company {
    Company(id, dto.name, dto.description, dto.industry, dto.location, dto.logo, dto.website,
      dto.size, dto.foundedYear, None, 0, false, None)
  }

  /** `CreateAsync`. */
  function Create(s: Store, dto: CreateCompanyDto): Outcome<CompanyDto> {
    var c := NewCompany(dto, NextId(s.companies, CompanyKey));
    match Commit(s.(companies := s.companies + [c]))
    case Ok(p) => Outcome(Ok(ToDto(LoadedCompany(c, []))), p)
    case Err(e) => Outcome(Err(e), s)
  }

  /**
   * On a consistent store `CreateAsync` succeeds exactly when the texts
   * fit their columns; it answers the new company with no open jobs, and
   * a failure keeps the store.
   */
  lemma CreateOutcome(s: Store, dto: CreateCompanyDto)
    requires Valid(s)
    ensures var id := NextId(s.companies, CompanyKey);
      var o := Create(s, dto);
      && (o.result.Ok? <==> CompanyFits(NewCompany(dto, id)))
      && (o.result.Ok? ==>
            && o.result.value.id == id && id !in CompanyIds(s)
            && o.result.value.name == dto.name && o.result.value.openJobsCount == 0
            && o.result.value.rating.None? && o.result.value.reviewCount == 0 && !o.result.value.isVerified
            && FindCompany(o.store, id) == Some(NewCompany(dto, id)))
      && (o.result.Err? ==> o.store == s)
  {
    var id := NextId(s.companies, CompanyKey);
    var c := NewCompany(dto, id);
    var p := s.(companies := s.companies + [c]);
    CreateValid(s, dto);
    if Valid(p) {
      FindByUnique(p.companies, CompanyKey, c);
    }
  }

  /** The store with the new company appended is consistent exactly when the company's texts fit. */
  lemma CreateValid(s: Store, dto: CreateCompanyDto)
    requires Valid(s)
    ensures var id := NextId(s.companies, CompanyKey);
      var p := s.(companies := s.companies + [NewCompany(dto, id)]);
      && id !in CompanyIds(s)
      && (Valid(p) <==> CompanyFits(NewCompany(dto, id)))
  {
    var id := NextId(s.companies, CompanyKey);
    var c := NewCompany(dto, id);
    var p := s.(companies := s.companies + [c]);
    assert KeysUnique(p) by {
      AppendUnique(s.companies, c, CompanyKey);
    }
    assert IndexesUnique(p);
    assert ForeignKeysHold(p) by {
      assert CompanyIds(s) <= CompanyIds(p);
    }
    assert LengthsFit(p) <==> CompanyFits(c) by {
      assert c in p.companies;
    }
  }

  // -------------------------------------------------------------- update

  /** The eight fields `UpdateAsync` assigns, and the time of the update. */
  function Edited(c: Company, dto: CreateCompanyDto, now: int): Company {
    c.(name := dto.name, description := dto.description, industry := dto.industry,
       location := dto.location, logo := dto.logo, website := dto.website, size := dto.size,
       foundedYear := dto.foundedYear, updatedAt := Some(now))
  }

  function ReplaceCompany(id: int, c: Company): Company -> Company {
    (x: Company) => if x.id == id then c else x
  }

  function UpdatePending(s: Store, id: int, c: Company): Store {
    s.(companies := Map(s.companies, ReplaceCompany(id, c)))
  }

  /** `UpdateAsync`. */
  function Update(s: Store, id: int, dto: CreateCompanyDto, now: int): Outcome<CompanyDto> {
    match FindCompany(s, id)
    case None => Outcome(Err(NotFound("Company", id)), s)
    case Some(c) =>
      var e := Edited(c, dto, now);
      match Commit(UpdatePending(s, id, e))
      case Ok(p) => Outcome(Ok(ToDto(LoadedCompany(e, []))), p)
      case Err(x) => Outcome(Err(x), s)
  }

  /** `UpdateAsync` answers "not found" exactly for an unknown id; any failure keeps the store. */
  lemma UpdateNotFound(s: Store, id: int, dto: CreateCompanyDto, now: int)
    ensures var o := Update(s, id, dto, now);
      && (o.result.Err? && o.result.error.kind == KeyNotFound <==> id !in CompanyIds(s))
      && (id !in CompanyIds(s) ==> o.result == Err(NotFound("Company", id)))
      && (o.result.Err? ==> o.store == s)
  {
    if id in CompanyIds(s) {
      var c :| c in s.companies && c.id == id;
      assert CompanyKey(c) == id;
    }
  }

  lemma ReplaceCompanyRows(s: Store, id: int, c: Company)
    requires id in CompanyIds(s) && c.id == id
    ensures var p := UpdatePending(s, id, c);
      && c in p.companies
      && (forall x | x in p.companies :: x == c || (x in s.companies && x.id != id))
      && CompanyIds(p) == CompanyIds(s)
  {
    var p := UpdatePending(s, id, c);
    var k :| 0 <= k < |s.companies| && s.companies[k].id == id;
    assert p.companies[k] == c;
    forall x | x in CompanyIds(s) ensures x in CompanyIds(p) {
      var m :| 0 <= m < |s.companies| && s.companies[m].id == x;
      assert p.companies[m].id == x;
    }
  }

  /** On a consistent store the edited company saves exactly when its texts fit. */
  lemma UpdateValid(s: Store, id: int, c: Company)
    requires Valid(s) && id in CompanyIds(s) && c.id == id
    ensures Valid(UpdatePending(s, id, c)) <==> CompanyFits(c)
  {
    ReplaceCompanyRows(s, id, c);
    MapUnique(s.companies, ReplaceCompany(id, c), CompanyKey);
  }

  /** `UpdateAsync` succeeds on a consistent store exactly when the company exists and the new texts fit. */
  lemma UpdateSucceeds(s: Store, id: int, dto: CreateCompanyDto, now: int)
    requires Valid(s)
    ensures Update(s, id, dto, now).result.Ok? <==>
      id in CompanyIds(s) && CompanyFits(Edited(FindCompany(s, id).value, dto, now))
  {
    UpdateNotFound(s, id, dto, now);
    if id in CompanyIds(s) {
      UpdateValid(s, id, Edited(FindCompany(s, id).value, dto, now));
    }
  }

  /**
   * After a successful `UpdateAsync` the company holds the eight given
   * fields and keeps its rating, review count and verification; its open
   * jobs are still counted by `GetByIdAsync`, while the answer itself
   * shows none.
   */
  lemma UpdateRoundTrip(s: Store, id: int, dto: CreateCompanyDto, now: int)
    requires Update(s, id, dto, now).result.Ok?
    ensures FindCompany(s, id).Some?
    ensures var o := Update(s, id, dto, now);
      var before := FindCompany(s, id).value;
      var d := GetById(o.store, id, now);
      && d.Some?
      && d.value.name == dto.name && d.value.description == dto.description
      && d.value.industry == dto.industry && d.value.location == dto.location
      && d.value.logo == dto.logo && d.value.website == dto.website
      && d.value.size == dto.size && d.value.foundedYear == dto.foundedYear
      && d.value.rating == before.rating && d.value.reviewCount == before.reviewCount
      && d.value.isVerified == before.isVerified
      && d.value.openJobsCount == Count(s.jobs, ActiveOfCompany(id))
      && o.result.value.id == id && o.result.value.openJobsCount == 0
  {
    var c := FindCompany(s, id).value;
    var e := Edited(c, dto, now);
    var p := UpdatePending(s, id, e);
    assert Valid(p);
    ReplaceCompanyRows(s, id, e);
    FindByUnique(p.companies, CompanyKey, e);
    GetByIdCounts(p, id, now);
  }

  // -------------------------------------------------------------- delete

  /** `DeleteAsync`: an unknown id is "not found"; otherwise the company goes, with its jobs. */
  function Delete(s: Store, id: int): Outcome<()> {
    match FindCompany(s, id)
    case None => Outcome(Err(NotFound("Company", id)), s)
    case Some(_) =>
      match Commit(DeleteCompany(s, id))
      case Ok(p) => Outcome(Ok(()), p)
      case Err(e) => Outcome(Err(e), s)
  }

  /**
   * On a consistent store `DeleteAsync` succeeds exactly for a known id;
   * afterwards neither the company nor any of its jobs is left; a failure
   * is "not found" with the store unchanged.
   */
  lemma DeleteOutcome(s: Store, id: int, now: int)
    requires Valid(s)
    ensures var o := Delete(s, id);
      && (o.result.Ok? <==> id in CompanyIds(s))
      && (o.result.Ok? ==>
            && Valid(o.store) && GetById(o.store, id, now).None?
            && forall j | j in o.store.jobs :: j.companyId != id)
      && (o.result.Err? ==> o.result.error == NotFound("Company", id) && o.store == s)
  {
    DeleteCompanyValid(s, id);
    UpdateNotFound(s, id, CreateCompanyDto("", "", "", "", None, None, None, None), now);
    GetByIdCounts(DeleteCompany(s, id), id, now);
  }

  // ------------------------------------------------ the service's methods

  /** `CreateAsync` against the unit of work. */
  method CreateAsync(uow: UnitOfWork, dto: CreateCompanyDto) returns (r: Result<CompanyDto, Exception>)
    modifies uow
    ensures r == Create(old(uow.store), dto).result
    ensures uow.store == Create(old(uow.store), dto).store
  {
    var s := uow.store;
    var company := NewCompany(dto, NextId(s.companies, CompanyKey));
    var saved := uow.SaveChanges(s.(companies := s.companies + [company]));
    if saved.Err? {
      return Err(saved.error);
    }
    r := Ok(ToDto(LoadedCompany(company, [])));
  }

  /** `UpdateAsync` against the unit of work. */
  method UpdateAsync(uow: UnitOfWork, id: int, dto: CreateCompanyDto, now: int) returns (r: Result<CompanyDto, Exception>)
    modifies uow
    ensures r == Update(old(uow.store), id, dto, now).result
    ensures uow.store == Update(old(uow.store), id, dto, now).store
  {
    var s := uow.store;
    var found := FindCompany(s, id);
    if found.None? {
      return Err(NotFound("Company", id));
    }
    var company := Edited(found.value, dto, now);
    var saved := uow.SaveChanges(UpdatePending(s, id, company));
    if saved.Err? {
      return Err(saved.error);
    }
    r := Ok(ToDto(LoadedCompany(company, [])));
  }

  /** `DeleteAsync` against the unit of work. */
  method DeleteAsync(uow: UnitOfWork, id: int) returns (r: Result<(), Exception>)
    modifies uow
    ensures r == Delete(old(uow.store), id).result
    ensures uow.store == Delete(old(uow.store), id).store
  {
    var s := uow.store;
    if FindCompany(s, id).None? {
      return Err(NotFound("Company", id));
    }
    var saved := uow.SaveChanges(DeleteCompany(s, id));
    if saved.Err? {
      return Err(saved.error);
    }
    r := Ok(());
  }
}
