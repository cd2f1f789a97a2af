/**
 * `JobService`: job DTOs, the relative posting time, and the create,
 * update and delete operations. The clock is a parameter `now`, in
 * seconds; the store after an operation is what `SaveChanges` committed.
 */
module JobService {
  import opened Wrappers
  import opened Text
  import opened Seqs
  import opened Entities
  import opened Exceptions
  import opened DbContext
  import opened JobRepository
  import opened TagRepository

  // ------------------------------------------------------ relative time

  datatype Unit = Hour | Day | Week | Month

  function Seconds(u: Unit): nat {
    match u
    case Hour => 3600
    case Day => 86400
    case Week => 7 * 86400
    case Month => 30 * 86400
  }

  function UnitName(u: Unit): string {
    match u
    case Hour => "hour"
    case Day => "day"
    case Week => "week"
    case Month => "month"
  }

  /** `$"{n} {unit}{(n > 1 ? "s" : "")} ago"`. */
  function Phrase(n: int, u: Unit): string {
    IntToString(n) + " " + UnitName(u) + (if n > 1 then "s" else "") + " ago"
  }

  /**
   * `GetTimeAgo`, given the elapsed time `now - date` in seconds: the first
   * unit, from months down to hours, of which at least one has passed,
   * with the whole number of them; under an hour, or in the future, "Just now".
   */
  function TimeAgo(elapsed: int): string {
    if elapsed >= Seconds(Month) then Phrase(elapsed / Seconds(Month), Month)
    else if elapsed >= Seconds(Week) then Phrase(elapsed / Seconds(Week), Week)
    else if elapsed >= Seconds(Day) then Phrase(elapsed / Seconds(Day), Day)
    else if elapsed >= Seconds(Hour) then Phrase(elapsed / Seconds(Hour), Hour)
    else "Just now"
  }

  /** Under an hour, including a date in the future, is "Just now"; anything longer is not. */
  lemma TimeAgoJustNow(elapsed: int)
    ensures TimeAgo(elapsed) == "Just now" <==> elapsed < Seconds(Hour)
  {
    if elapsed >= Seconds(Hour) {
      var n: int, u: Unit :| TimeAgo(elapsed) == Phrase(n, u) by {
        if elapsed >= Seconds(Month) { assert TimeAgo(elapsed) == Phrase(elapsed / Seconds(Month), Month); }
        else if elapsed >= Seconds(Week) { assert TimeAgo(elapsed) == Phrase(elapsed / Seconds(Week), Week); }
        else if elapsed >= Seconds(Day) { assert TimeAgo(elapsed) == Phrase(elapsed / Seconds(Day), Day); }
        else { assert TimeAgo(elapsed) == Phrase(elapsed / Seconds(Hour), Hour); }
      }
      PhraseNotJustNow(n, u);
    }
  }

  lemma PhraseNotJustNow(n: int, u: Unit)
    ensures Phrase(n, u) != "Just now"
  {
    var p := Phrase(n, u);
    assert p[|p| - 4..] == " ago";
    var j := "Just now";
    assert j[|j| - 4..] == " now";
  }

  /**
   * At least an hour: the phrase names the largest unit that has fully
   * passed, and the count is the whole number of those units, at least one.
   */
  lemma TimeAgoUnit(elapsed: int, u: Unit)
    requires Seconds(u) <= elapsed
    requires forall v: Unit | Seconds(v) > Seconds(u) :: elapsed < Seconds(v)
    ensures TimeAgo(elapsed) == Phrase(elapsed / Seconds(u), u)
    ensures 1 <= elapsed / Seconds(u)
    ensures (elapsed / Seconds(u)) * Seconds(u) <= elapsed < (elapsed / Seconds(u) + 1) * Seconds(u)
  {
    assert Seconds(Hour) < Seconds(Day) < Seconds(Week) < Seconds(Month);
    match u
    case Hour => assert elapsed < Seconds(Day);
    case Day => assert elapsed < Seconds(Week);
    case Week => assert elapsed < Seconds(Month);
    case Month =>
    WholeUnits(elapsed, Seconds(u));
  }

  /** Truncating division counts the whole units in `x`. */
  lemma WholeUnits(x: int, d: int)
    requires 0 < d <= x
    ensures 1 <= x / d
    ensures (x / d) * d <= x < (x / d + 1) * d
  {
  }

  /** The unit is plural exactly when the count is above one. */
  lemma PhrasePlural(n: int, u: Unit)
    ensures var p := Phrase(n, u); (p[|p| - 5] == 's') <==> n > 1
  {
    var p := Phrase(n, u);
    var head := IntToString(n) + " " + UnitName(u);
    assert head[|head| - 1] != 's';
    if n > 1 {
      assert p == head + "s" + " ago";
    } else {
      assert p == head + " ago";
      assert p[|p| - 5] == head[|head| - 1];
    }
  }

  // ---------------------------------------------------------------- DTOs

  datatype JobDto = JobDto(
    id: int,
    title: string,
    company: string,
    companyLogo: Option<string>,
    companyId: int,
    location: string,
    salary: string,
    jobType: string,
    postedAt: string,
    featured: bool,
    tags: seq<string>)

  datatype JobDetailDto = JobDetailDto(
    id: int,
    title: string,
    description: string,
    company: string,
    companyId: int,
    companyLogo: Option<string>,
    companyDescription: Option<string>,
    companySize: Option<string>,
    companyWebsite: Option<string>,
    location: string,
    salary: string,
    jobType: string,
    experienceLevel: string,
    postedAt: string,
    closingDate: Option<int>,
    featured: bool,
    applicants: int,
    category: Option<string>,
    tags: seq<string>,
    responsibilities: seq<string>,
    requirements: seq<string>,
    benefits: seq<string>)

  datatype PagedResult<T> = PagedResult(items: seq<T>, totalCount: int, page: int, pageSize: int)

  function Description(r: JobItem): string { r.description }

  /** `job.Company?.Name ?? string.Empty`. */
  function CompanyName(c: Option<Company>): string {
    if c.Some? then c.value.name else ""
  }

  /** `job.Company?.Logo`. */
  function CompanyLogo(c: Option<Company>): Option<string> {
    if c.Some? then c.value.logo else None
  }

  /** `MapToDto`. */
  function ToDto(v: LoadedJob, now: int): JobDto {
    JobDto(v.job.id, v.job.title, CompanyName(v.company), CompanyLogo(v.company), v.job.companyId,
      v.job.location, v.job.salary, v.job.jobType, TimeAgo(now - v.job.postedDate), v.job.isFeatured,
      Map(v.tags, TagName))
  }

  function ToDtos(now: int): LoadedJob -> JobDto { (v: LoadedJob) => ToDto(v, now) }

  /** A child list as the detail DTO shows it: `OrderBy(r => r.Order).Select(r => r.Description)`. */
  function Descriptions(items: seq<JobItem>): seq<string> {
    Map(SortBy(items, ByOrder), Description)
  }

  /** `job.Category?.Name`. */
  function CategoryNameOf(c: Option<Category>): Option<string> {
    if c.Some? then Some(c.value.name) else None
  }

  /** `MapToDetailDto`. */
  function ToDetailDto(v: LoadedJob, now: int): JobDetailDto {
    var c := v.company;
    JobDetailDto(v.job.id, v.job.title, v.job.description, CompanyName(c), v.job.companyId, CompanyLogo(c),
      if c.Some? then Some(c.value.description) else None,
      if c.Some? then c.value.size else None,
      if c.Some? then c.value.website else None,
      v.job.location, v.job.salary, v.job.jobType, v.job.experienceLevel, TimeAgo(now - v.job.postedDate),
      v.job.closingDate, v.job.isFeatured, |v.applications|,
      CategoryNameOf(v.category),
      Map(v.tags, TagName),
      Descriptions(v.responsibilities), Descriptions(v.requirements), Descriptions(v.benefits))
  }

  // --------------------------------------------------------------- reads

  /** `GetByIdAsync`. */
  function GetById(s: Store, id: int, now: int): Option<JobDetailDto> {
    match JobWithDetails(s, id)
    case None => None
    case Some(v) => Some(ToDetailDto(v, now))
  }

  /** `SearchAsync`, given what the repository found: the DTOs in order, the total, and the paging echoed. */
  function SearchEnvelope(found: JobPage, page: int, pageSize: int, now: int): PagedResult<JobDto> {
    PagedResult(Map(found.jobs, ToDtos(now)), found.totalCount, page, pageSize)
  }

  lemma SearchEnvelopeProps(found: JobPage, page: int, pageSize: int, now: int)
    ensures var r := SearchEnvelope(found, page, pageSize, now);
      && r.page == page && r.pageSize == pageSize && r.totalCount == found.totalCount
      && |r.items| == |found.jobs|
      && forall i :: 0 <= i < |r.items| ==> r.items[i].id == found.jobs[i].job.id && r.items[i] == ToDto(found.jobs[i], now)
  {
  }

  /** `GetFeaturedAsync`. */
  function Featured(s: Store, count: int, now: int): seq<JobDto> {
    Map(FeaturedJobs(s, count), ToDtos(now))
  }

  /** `GetByCompanyAsync`. */
  function ByCompany(s: Store, companyId: int, now: int): seq<JobDto> {
    Map(JobsByCompany(s, companyId), ToDtos(now))
  }

  /** `GetByCategoryAsync`. */
  function ByCategory(s: Store, categoryId: int, now: int): seq<JobDto> {
    Map(JobsByCategory(s, categoryId), ToDtos(now))
  }

  /**
   * The featured list shows, in order, the `count` newest featured active
   * jobs (or all of them): no featured active job left out is newer than
   * one shown.
   */
  lemma FeaturedProps(s: Store, count: int, now: int)
    ensures var js := JobsOf(FeaturedJobs(s, count));
      var pool := Filter(s.jobs, FeaturedAndActive);
      var r := Featured(s, count, now);
      && |r| == |js| == (if count <= 0 then 0 else if count < |pool| then count else |pool|)
      && (forall i :: 0 <= i < |r| ==> r[i].id == js[i].id && r[i].title == js[i].title && r[i].featured)
      && multiset(js) <= multiset(pool)
      && SortedBy(js, Newest)
      && (forall x, i | x in multiset(pool) - multiset(js) && 0 <= i < |js| :: Newest(js[i], x))
  {
    FeaturedJobsProps(s, count);
    var r := FeaturedJobs(s, count);
    var js := JobsOf(r);
    var pool := Filter(s.jobs, FeaturedAndActive);
    var ds := Featured(s, count, now);
    assert ds == Map(r, ToDtos(now));
    assert |ds| == |r| == |js|;
    DtosOfJobs(r, now);
    forall i | 0 <= i < |r| ensures js[i].isFeatured {
      assert js[i] in js;
    }
    forall x, i | x in multiset(pool) - multiset(js) && 0 <= i < |js| ensures Newest(js[i], x) {
      assert js[i] in js;
    }
  }

  /** A company's list shows each of its active jobs once, newest first, with that company's id. */
  lemma ByCompanyProps(s: Store, companyId: int, now: int)
    ensures var js := JobsOf(JobsByCompany(s, companyId));
      var pool := Filter(s.jobs, ActiveOfCompany(companyId));
      var r := ByCompany(s, companyId, now);
      && |r| == |js| == |pool|
      && (forall i :: 0 <= i < |r| ==> r[i].id == js[i].id && r[i].companyId == companyId)
      && multiset(js) == multiset(pool)
      && SortedBy(js, Newest)
      && (forall j | j in s.jobs && j.companyId == companyId && j.isActive :: j in js)
  {
    var r := JobsByCompany(s, companyId);
    JobsByCompanyProps(s, companyId);
    ByCompanyJobs(s, companyId);
    DtosOfJobs(r, now);
  }

  /** Each active job of the company appears in its list, as many times as it is stored. */
  lemma ByCompanyJobs(s: Store, companyId: int)
    ensures var js := JobsOf(JobsByCompany(s, companyId));
      && |js| == |Filter(s.jobs, ActiveOfCompany(companyId))|
      && (forall j | j in s.jobs && j.companyId == companyId && j.isActive :: j in js)
      && forall i :: 0 <= i < |js| ==> js[i].companyId == companyId
  {
    JobsByCompanyProps(s, companyId);
    var js := JobsOf(JobsByCompany(s, companyId));
    assert |multiset(js)| == |multiset(Filter(s.jobs, ActiveOfCompany(companyId)))|;
    forall i | 0 <= i < |js| ensures js[i].companyId == companyId {
      assert js[i] in js;
    }
  }

  /** Each DTO carries the id, title, company id and featured flag of the job it was made from. */
  lemma DtosOfJobs(vs: seq<LoadedJob>, now: int)
    ensures var r := Map(vs, ToDtos(now));
      forall i :: 0 <= i < |r| ==>
        && r[i].id == JobsOf(vs)[i].id && r[i].title == JobsOf(vs)[i].title
        && r[i].companyId == JobsOf(vs)[i].companyId && r[i].featured == JobsOf(vs)[i].isFeatured
  {
  }

  // ------------------------------------------------------------- create

  datatype CreateJobDto = CreateJobDto(
    title: string,
    description: string,
    location: string,
    salary: string,
    jobType: string,
    experienceLevel: string,
    companyId: int,
    categoryId: int,
    isFeatured: bool,
    closingDate: Option<int>,
    tags: seq<string>,
    responsibilities: seq<string>,
    requirements: seq<string>,
    benefits: seq<string>)

  /** The new job: active, posted now, never updated. */
  function NewJob(dto: CreateJobDto, id: int, now: int): Job {
    Job(id, dto.title, dto.description, dto.location, dto.salary, dto.jobType, dto.experienceLevel,
      dto.isFeatured, true, now, dto.closingDate, dto.companyId, dto.categoryId, None)
  }

  /**
   * The rows of one child list: one per description, in input order, with
   * identities from `firstId` on and `Order` equal to the input index.
   */
  function ChildRows(descs: seq<string>, firstId: int, jobId: int): (r: seq<JobItem>)
    ensures |r| == |descs|
    ensures forall i :: 0 <= i < |descs| ==> r[i] == JobItem(firstId + i, descs[i], i, jobId)
    decreases |descs|
  {
    if descs == [] then []
    else
      var n := |descs| - 1;
      ChildRows(descs[..n], firstId, jobId) + [JobItem(firstId + n, descs[n], n, jobId)]
  }

  /** The tag each name links to, and the tags added for names not found. */
  datatype Resolution = Resolution(tags: seq<Tag>, added: seq<Tag>)

  /**
   * The tag loop: each name is looked up in the committed store (tags
   * added earlier in the loop are not saved yet, so they are not found);
   * a name not found gets a new tag with the next free identity.
   */
  function ResolveTags(s: Store, names: seq<string>, next: int): (r: Resolution)
    ensures |r.tags| == |names|
    ensures forall k :: 0 <= k < |r.added| ==> r.added[k].id == next + k
    decreases |names|
  {
    if names == [] then Resolution([], [])
    else
      var n := |names| - 1;
      var prev := ResolveTags(s, names[..n], next);
      match TagByName(s, names[n])
      case Some(t) => Resolution(prev.tags + [t], prev.added)
      case None =>
        var t := Tag(next + |prev.added|, names[n]);
        Resolution(prev.tags + [t], prev.added + [t])
  }

  /** A name that `GetByNameAsync` finds links to the tag found. */
  lemma {:induction false} ResolveFound(s: Store, names: seq<string>, next: int, i: int)
    requires 0 <= i < |names| && TagByName(s, names[i]).Some?
    ensures ResolveTags(s, names, next).tags[i] == TagByName(s, names[i]).value
    decreases |names|
  {
    var n := |names| - 1;
    if i < n {
      assert names[..n][i] == names[i];
      ResolveFound(s, names[..n], next, i);
    }
  }

  /** A name not found links to a new tag of exactly that name, one of those added, with a fresh identity. */
  lemma {:induction false} ResolveNew(s: Store, names: seq<string>, next: int, i: int)
    requires 0 <= i < |names| && TagByName(s, names[i]).None?
    ensures var r := ResolveTags(s, names, next);
      r.tags[i].name == names[i] && r.tags[i] in r.added && r.tags[i].id >= next
    decreases |names|
  {
    var n := |names| - 1;
    if i < n {
      assert names[..n][i] == names[i];
      ResolveNew(s, names[..n], next, i);
    }
  }

  /** Two names not found link to two different new tags. */
  lemma {:induction false} ResolveNewDistinct(s: Store, names: seq<string>, next: int, i: int, j: int)
    requires 0 <= i < j < |names|
    requires TagByName(s, names[i]).None? && TagByName(s, names[j]).None?
    ensures ResolveTags(s, names, next).tags[i].id < ResolveTags(s, names, next).tags[j].id
    decreases |names|
  {
    var n := |names| - 1;
    var prev := ResolveTags(s, names[..n], next);
    assert names[..n][i] == names[i];
    if j < n {
      assert names[..n][j] == names[j];
      ResolveNewDistinct(s, names[..n], next, i, j);
    } else {
      ResolveNew(s, names[..n], next, i);
      var k :| 0 <= k < |prev.added| && prev.added[k] == prev.tags[i];
    }
  }

  /** Every tag added is named by some input name that was not found. */
  lemma {:induction false} ResolveAddedNamed(s: Store, names: seq<string>, next: int, t: Tag)
    requires t in ResolveTags(s, names, next).added
    ensures exists i :: 0 <= i < |names| && names[i] == t.name && TagByName(s, names[i]).None?
    decreases |names|
  {
    var n := |names| - 1;
    var prev := ResolveTags(s, names[..n], next);
    if t in prev.added {
      ResolveAddedNamed(s, names[..n], next, t);
      var i :| 0 <= i < n && names[..n][i] == t.name && TagByName(s, names[..n][i]).None?;
      assert names[i] == names[..n][i];
    }
  }

  function LinkTo(jobId: int): Tag -> JobTag { (t: Tag) => JobTag(jobId, t.id) }

  /** No two links of the new job point at the same tag. */
  predicate DistinctTags(tags: seq<Tag>) {
    forall i, j :: 0 <= i < j < |tags| ==> tags[i].id != tags[j].id
  }

  /** Everything `CreateAsync` adds before `SaveChanges`. */
  function CreatePending(s: Store, dto: CreateJobDto, now: int): Store {
    var id := NextId(s.jobs, JobKey);
    var res := ResolveTags(s, dto.tags, NextId(s.tags, TagKey));
    s.(jobs := s.jobs + [NewJob(dto, id, now)],
       tags := s.tags + res.added,
       jobTags := s.jobTags + Map(res.tags, LinkTo(id)),
       responsibilities := s.responsibilities + ChildRows(dto.responsibilities, NextId(s.responsibilities, ItemKey), id),
       requirements := s.requirements + ChildRows(dto.requirements, NextId(s.requirements, ItemKey), id),
       benefits := s.benefits + ChildRows(dto.benefits, NextId(s.benefits, ItemKey), id))
  }

  /**
   * `CreateAsync`. The answer is `MapToDto` of the new entity, whose
   * `Company` navigation was never loaded: no company name, no logo.
   */
  function Create(s: Store, dto: CreateJobDto, now: int): Outcome<JobDto> {
    var id := NextId(s.jobs, JobKey);
    var res := ResolveTags(s, dto.tags, NextId(s.tags, TagKey));
    if !DistinctTags(res.tags) then Outcome(Err(TrackingConflict), s)
    else
      match Commit(CreatePending(s, dto, now))
      case Ok(p) => Outcome(Ok(ToDto(LoadedJob(NewJob(dto, id, now), None, None, res.tags, [], [], [], []), now)), p)
      case Err(e) => Outcome(Err(e), s)
  }

  // ------------------------------------------------- create: round trip

  /** Rows added for a job no row referred to yet are its only rows. */
  lemma OnlyNewRows(items: seq<JobItem>, rows: seq<JobItem>, jobs: set<int>, id: int)
    requires ItemsReferenceJobs(items, jobs) && id !in jobs
    requires forall r | r in rows :: r.jobId == id
    ensures Filter(items + rows, ItemOfJob(id)) == rows
  {
    FilterAppend(items, rows, ItemOfJob(id));
    FilterNone(items, ItemOfJob(id));
    FilterAll(rows, ItemOfJob(id));
  }

  /** A created child list loads back as the rows written, already in `Order`. */
  lemma CreatedChildren(items: seq<JobItem>, descs: seq<string>, first: int, jobs: set<int>, id: int)
    requires ItemsReferenceJobs(items, jobs) && id !in jobs
    ensures ChildrenOf(items + ChildRows(descs, first, id), id) == ChildRows(descs, first, id)
  {
    var rows := ChildRows(descs, first, id);
    OnlyNewRows(items, rows, jobs, id);
    assert SortedBy(rows, ByOrder);
    SortByOfSorted(rows, ByOrder);
  }

  /** The detail DTO shows written child rows with their descriptions as given. */
  lemma DescriptionsOfRows(descs: seq<string>, first: int, id: int)
    ensures Descriptions(ChildRows(descs, first, id)) == descs
  {
    var rows := ChildRows(descs, first, id);
    assert SortedBy(rows, ByOrder);
    SortByOfSorted(rows, ByOrder);
  }

  /** Links whose tags are found one by one load those tags, in order. */
  lemma {:induction false} TagsOfLinksExact(s: Store, links: seq<JobTag>, ts: seq<Tag>)
    requires |links| == |ts|
    requires forall i :: 0 <= i < |links| ==> FindTag(s, links[i].tagId) == Some(ts[i])
    ensures TagsOfLinks(s, links) == ts
  {
    if links != [] {
      TagsOfLinksExact(s, links[1..], ts[1..]);
    }
  }

  /** Every tag a created job links to is in the new store. */
  lemma LinkedTagsStored(s: Store, names: seq<string>, next: int)
    ensures var r := ResolveTags(s, names, next);
      forall t | t in r.tags :: t in s.tags || t in r.added
  {
    var r := ResolveTags(s, names, next);
    forall t | t in r.tags ensures t in s.tags || t in r.added {
      var i :| 0 <= i < |r.tags| && r.tags[i] == t;
      if TagByName(s, names[i]).Some? {
        ResolveFound(s, names, next, i);
        TagByNameProps(s, names[i]);
      } else {
        ResolveNew(s, names, next, i);
      }
    }
  }

  /** Links to stored tags load those tags, in order. */
  lemma TagsOfNewLinks(p: Store, before: seq<Tag>, added: seq<Tag>, ts: seq<Tag>, id: int)
    requires p.tags == before + added
    requires UniqueBy(p.tags, TagKey)
    requires forall t | t in ts :: t in before || t in added
    ensures TagsOfLinks(p, Map(ts, LinkTo(id))) == ts
  {
    var links := Map(ts, LinkTo(id));
    forall i | 0 <= i < |links| ensures FindTag(p, links[i].tagId) == Some(ts[i]) {
      assert ts[i] in ts;
      assert ts[i] in p.tags;
      FindByUnique(p.tags, TagKey, ts[i]);
    }
    TagsOfLinksExact(p, links, ts);
  }

  /** Links added for a job nothing linked to yet are its only links. */
  lemma OnlyNewLinks(before: seq<JobTag>, added: seq<JobTag>, jobs: set<int>, id: int)
    requires forall jt | jt in before :: jt.jobId in jobs
    requires id !in jobs
    requires forall jt | jt in added :: jt.jobId == id
    ensures Filter(before + added, LinkOfJob(id)) == added
  {
    FilterAppend(before, added, LinkOfJob(id));
    FilterNone(before, LinkOfJob(id));
    FilterAll(added, LinkOfJob(id));
  }

  /** The new job is found by its id. */
  lemma CreatedJobFound(s: Store, dto: CreateJobDto, now: int)
    requires UniqueBy(CreatePending(s, dto, now).jobs, JobKey)
    ensures var id := NextId(s.jobs, JobKey);
      FindJob(CreatePending(s, dto, now), id) == Some(NewJob(dto, id, now))
  {
    var id := NextId(s.jobs, JobKey);
    FindByUnique(CreatePending(s, dto, now).jobs, JobKey, NewJob(dto, id, now));
  }

  /** The new job's tags are the resolved ones. */
  lemma CreatedJobTags(s: Store, dto: CreateJobDto, now: int)
    requires forall jt | jt in s.jobTags :: jt.jobId in JobIds(s)
    requires UniqueBy(CreatePending(s, dto, now).tags, TagKey)
    ensures TagsOf(CreatePending(s, dto, now), NextId(s.jobs, JobKey))
      == ResolveTags(s, dto.tags, NextId(s.tags, TagKey)).tags
  {
    var p := CreatePending(s, dto, now);
    var id := NextId(s.jobs, JobKey);
    var res := ResolveTags(s, dto.tags, NextId(s.tags, TagKey));
    var links := Map(res.tags, LinkTo(id));
    assert p.jobTags == s.jobTags + links;
    assert p.tags == s.tags + res.added;
    assert id !in JobIds(s);
    OnlyNewLinks(s.jobTags, links, JobIds(s), id);
    LinkedTagsStored(s, dto.tags, NextId(s.tags, TagKey));
    TagsOfNewLinks(p, s.tags, res.added, res.tags, id);
  }

  /** The new job's child lists are the rows written for it, and it has no applications. */
  lemma CreatedJobChildren(s: Store, dto: CreateJobDto, now: int)
    requires ItemsReferenceJobs(s.responsibilities, JobIds(s))
    requires ItemsReferenceJobs(s.requirements, JobIds(s))
    requires ItemsReferenceJobs(s.benefits, JobIds(s))
    requires forall a | a in s.applications :: a.jobId in JobIds(s)
    ensures var p := CreatePending(s, dto, now);
      var id := NextId(s.jobs, JobKey);
      && ChildrenOf(p.responsibilities, id) == ChildRows(dto.responsibilities, NextId(s.responsibilities, ItemKey), id)
      && ChildrenOf(p.requirements, id) == ChildRows(dto.requirements, NextId(s.requirements, ItemKey), id)
      && ChildrenOf(p.benefits, id) == ChildRows(dto.benefits, NextId(s.benefits, ItemKey), id)
      && Filter(p.applications, ApplicationOfJob(id)) == []
  {
    var id := NextId(s.jobs, JobKey);
    var jobs := JobIds(s);
    assert id !in jobs;
    CreatedChildren(s.responsibilities, dto.responsibilities, NextId(s.responsibilities, ItemKey), jobs, id);
    CreatedChildren(s.requirements, dto.requirements, NextId(s.requirements, ItemKey), jobs, id);
    CreatedChildren(s.benefits, dto.benefits, NextId(s.benefits, ItemKey), jobs, id);
    forall a | a in s.applications ensures a.jobId != id {
      var j :| j in s.jobs && j.id == a.jobId;
    }
    FilterNone(s.applications, ApplicationOfJob(id));
  }

  /** A successful `CreateAsync` saved the pending store and answered the DTO of the new job. */
  lemma CreateSaved(s: Store, dto: CreateJobDto, now: int)
    requires Create(s, dto, now).result.Ok?
    ensures var o := Create(s, dto, now);
      var id := NextId(s.jobs, JobKey);
      && o.store == CreatePending(s, dto, now) && Valid(o.store)
      && o.result.value == ToDto(LoadedJob(NewJob(dto, id, now), None, None,
        ResolveTags(s, dto.tags, NextId(s.tags, TagKey)).tags, [], [], [], []), now)
  {
  }

  /**
   * Round trip: once `CreateAsync` succeeds, `GetByIdAsync` on the new id
   * shows the given fields, the responsibilities, requirements and
   * benefits exactly as given, the same tag names `CreateAsync` answered,
   * and no applicants.
   */
  lemma CreateRoundTrip(s: Store, dto: CreateJobDto, now: int)
    requires Valid(s)
    requires Create(s, dto, now).result.Ok?
    ensures var o := Create(s, dto, now);
      var d := GetById(o.store, o.result.value.id, now);
      && d.Some?
      && d.value.title == dto.title && d.value.description == dto.description
      && d.value.companyId == dto.companyId && d.value.closingDate == dto.closingDate
      && d.value.responsibilities == dto.responsibilities
      && d.value.requirements == dto.requirements
      && d.value.benefits == dto.benefits
      && d.value.tags == o.result.value.tags
      && d.value.applicants == 0
  {
    var id := NextId(s.jobs, JobKey);
    CreateSaved(s, dto, now);
    CreatedJobFound(s, dto, now);
    CreatedJobTags(s, dto, now);
    CreatedJobChildren(s, dto, now);
    DescriptionsOfRows(dto.responsibilities, NextId(s.responsibilities, ItemKey), id);
    DescriptionsOfRows(dto.requirements, NextId(s.requirements, ItemKey), id);
    DescriptionsOfRows(dto.benefits, NextId(s.benefits, ItemKey), id);
  }

  // -------------------------------------------- create: outcome and failure

  /** The answer of a successful `CreateAsync`: new id, no company, "Just now", one tag name per input, up to case. */
  lemma CreatedDto(s: Store, dto: CreateJobDto, now: int)
    requires Create(s, dto, now).result.Ok?
    ensures var d := Create(s, dto, now).result.value;
      && d.id == NextId(s.jobs, JobKey) && d.id !in JobIds(s)
      && d.title == dto.title && d.companyId == dto.companyId && d.featured == dto.isFeatured
      && d.company == "" && d.companyLogo.None? && d.postedAt == "Just now"
      && |d.tags| == |dto.tags|
      && forall i :: 0 <= i < |d.tags| ==> Lower(d.tags[i]) == Lower(dto.tags[i])
  {
    CreateSaved(s, dto, now);
    var res := ResolveTags(s, dto.tags, NextId(s.tags, TagKey));
    NewJobDto(dto, NextId(s.jobs, JobKey), now, res.tags);
    ResolvedNames(s, dto.tags, NextId(s.tags, TagKey));
  }

  /** The DTO of a new job with no company loaded. */
  lemma NewJobDto(dto: CreateJobDto, id: int, now: int, tags: seq<Tag>)
    ensures var d := ToDto(LoadedJob(NewJob(dto, id, now), None, None, tags, [], [], [], []), now);
      && d.id == id && d.title == dto.title && d.companyId == dto.companyId && d.featured == dto.isFeatured
      && d.company == "" && d.companyLogo.None? && d.postedAt == "Just now"
      && d.tags == Map(tags, TagName)
  {
    assert TimeAgo(0) == "Just now";
  }

  /** Each resolved tag carries the name asked for, up to case. */
  lemma ResolvedNames(s: Store, names: seq<string>, next: int)
    ensures var r := ResolveTags(s, names, next);
      forall i :: 0 <= i < |names| ==> Lower(r.tags[i].name) == Lower(names[i])
  {
    forall i | 0 <= i < |names|
      ensures Lower(ResolveTags(s, names, next).tags[i].name) == Lower(names[i])
    {
      if TagByName(s, names[i]).Some? {
        ResolveFound(s, names, next, i);
        TagByNameProps(s, names[i]);
      } else {
        ResolveNew(s, names, next, i);
      }
    }
  }

  /** A failed `CreateAsync` leaves the store as it was. */
  lemma CreateFailureKeepsStore(s: Store, dto: CreateJobDto, now: int)
    requires Create(s, dto, now).result.Err?
    ensures Create(s, dto, now).store == s
  {
  }

  /**
   * The same tag name given twice makes `CreateAsync` fail and change
   * nothing: an existing tag would be linked twice (the change tracker
   * refuses the second `JobTag`), and a new name becomes two new tags
   * with one name (the unique index refuses the save).
   */
  lemma DuplicateTagNamesFail(s: Store, dto: CreateJobDto, now: int, i: int, j: int)
    requires 0 <= i < j < |dto.tags| && dto.tags[i] == dto.tags[j]
    ensures Create(s, dto, now).result.Err? && Create(s, dto, now).store == s
  {
    var next := NextId(s.tags, TagKey);
    var res := ResolveTags(s, dto.tags, next);
    if TagByName(s, dto.tags[i]).Some? {
      ResolveFound(s, dto.tags, next, i);
      ResolveFound(s, dto.tags, next, j);
      assert !DistinctTags(res.tags) by {
        assert res.tags[i].id == res.tags[j].id;
      }
    } else if DistinctTags(res.tags) {
      var p := CreatePending(s, dto, now);
      ResolveNew(s, dto.tags, next, i);
      ResolveNew(s, dto.tags, next, j);
      ResolveNewDistinct(s, dto.tags, next, i, j);
      assert p.tags == s.tags + res.added;
      NotUniqueBy(p.tags, TagName, res.tags[i], res.tags[j]);
      assert !Valid(p);
    }
  }

  // -------------------------------------------------------------- update

  datatype UpdateJobDto = UpdateJobDto(
    title: string,
    description: string,
    location: string,
    salary: string,
    jobType: string,
    experienceLevel: string,
    categoryId: int,
    isFeatured: bool,
    isActive: bool,
    closingDate: Option<int>)

  /** The fields `UpdateAsync` assigns; company, posting date and identity stay. */
  function Edited(j: Job, dto: UpdateJobDto, now: int): Job {
    j.(title := dto.title, description := dto.description, location := dto.location,
       salary := dto.salary, jobType := dto.jobType, experienceLevel := dto.experienceLevel,
       categoryId := dto.categoryId, isFeatured := dto.isFeatured, isActive := dto.isActive,
       closingDate := dto.closingDate, updatedAt := Some(now))
  }

  function ReplaceJob(id: int, j: Job): Job -> Job {
    (x: Job) => if x.id == id then j else x
  }

  /** The store once the edited job row is written back. */
  function UpdatePending(s: Store, id: int, j: Job): Store {
    s.(jobs := Map(s.jobs, ReplaceJob(id, j)))
  }

  /**
   * `UpdateAsync`: the job is loaded with its details, edited, saved, and
   * answered through `MapToDto` with the company and tags already loaded.
   */
  function Update(s: Store, id: int, dto: UpdateJobDto, now: int): Outcome<JobDto> {
    match JobWithDetails(s, id)
    case None => Outcome(Err(NotFound("Job", id)), s)
    case Some(v) =>
      var j := Edited(v.job, dto, now);
      match Commit(UpdatePending(s, id, j))
      case Ok(p) => Outcome(Ok(ToDto(v.(job := j), now)), p)
      case Err(e) => Outcome(Err(e), s)
  }

  /** `UpdateAsync` answers "not found" exactly for an unknown id; any failure keeps the store. */
  lemma UpdateNotFound(s: Store, id: int, dto: UpdateJobDto, now: int)
    ensures var o := Update(s, id, dto, now);
      && (o.result.Err? && o.result.error.kind == KeyNotFound <==> id !in JobIds(s))
      && (id !in JobIds(s) ==> o.result == Err(NotFound("Job", id)))
      && (o.result.Err? ==> o.store == s)
  {
    JobWithDetailsProps(s, id);
  }

  /** The edited row keeps the job's identity, so replacing it keeps the set of job ids. */
  lemma ReplaceKeepsIds(s: Store, id: int, j: Job)
    requires j.id == id
    ensures JobIds(UpdatePending(s, id, j)) == JobIds(s)
  {
    var p := UpdatePending(s, id, j);
    forall x | x in JobIds(p) ensures x in JobIds(s) {
      var k :| 0 <= k < |p.jobs| && p.jobs[k].id == x;
      assert s.jobs[k].id == x;
    }
    forall x | x in JobIds(s) ensures x in JobIds(p) {
      var k :| 0 <= k < |s.jobs| && s.jobs[k].id == x;
      assert p.jobs[k].id == x;
    }
  }

  /** The edited row is in the new table, and every other row of it was there before. */
  lemma ReplaceRows(s: Store, id: int, j: Job)
    requires id in JobIds(s) && j.id == id
    ensures var p := UpdatePending(s, id, j);
      && j in p.jobs
      && forall x | x in p.jobs :: x == j || (x in s.jobs && x.id != id)
  {
    var p := UpdatePending(s, id, j);
    var k :| 0 <= k < |s.jobs| && s.jobs[k].id == id;
    assert p.jobs[k] == j;
  }

  lemma UpdateKeys(s: Store, id: int, j: Job)
    requires KeysUnique(s) && IndexesUnique(s) && j.id == id
    ensures KeysUnique(UpdatePending(s, id, j)) && IndexesUnique(UpdatePending(s, id, j))
  {
    MapUnique(s.jobs, ReplaceJob(id, j), JobKey);
  }

  lemma UpdateForeignKeys(s: Store, id: int, j: Job)
    requires ForeignKeysHold(s) && FindJob(s, id).Some?
    requires j.id == id && j.companyId == FindJob(s, id).value.companyId
    ensures ForeignKeysHold(UpdatePending(s, id, j)) <==> j.categoryId in CategoryIds(s)
  {
    ReplaceKeepsIds(s, id, j);
    ReplaceRows(s, id, j);
    assert j.companyId in CompanyIds(s);
  }

  lemma UpdateLengths(s: Store, id: int, j: Job)
    requires LengthsFit(s) && id in JobIds(s) && j.id == id
    ensures LengthsFit(UpdatePending(s, id, j)) <==> JobFits(j)
  {
    ReplaceRows(s, id, j);
  }

  /**
   * In a consistent store the edited row saves exactly when its new
   * category exists and its texts fit their columns.
   */
  lemma UpdateValid(s: Store, id: int, j: Job)
    requires Valid(s) && FindJob(s, id).Some?
    requires j.id == id && j.companyId == FindJob(s, id).value.companyId
    ensures Valid(UpdatePending(s, id, j)) <==> j.categoryId in CategoryIds(s) && JobFits(j)
  {
    UpdateKeys(s, id, j);
    UpdateForeignKeys(s, id, j);
    UpdateLengths(s, id, j);
  }

  /** `UpdateAsync` succeeds on a consistent store exactly when the job exists, the category exists and the texts fit. */
  lemma UpdateSucceeds(s: Store, id: int, dto: UpdateJobDto, now: int)
    requires Valid(s)
    ensures Update(s, id, dto, now).result.Ok? <==>
      id in JobIds(s) && dto.categoryId in CategoryIds(s) && JobFits(Edited(FindJob(s, id).value, dto, now))
  {
    JobWithDetailsProps(s, id);
    if id in JobIds(s) {
      UpdateValid(s, id, Edited(FindJob(s, id).value, dto, now));
    }
  }

  /** Loading tags reads only the tag table. */
  lemma {:induction false} TagsOfLinksSameTags(s: Store, t: Store, links: seq<JobTag>)
    requires s.tags == t.tags
    ensures TagsOfLinks(s, links) == TagsOfLinks(t, links)
  {
    if links != [] {
      TagsOfLinksSameTags(s, t, links[1..]);
    }
  }

  /** After the edit the job loads as before, with the new row and the category it now names. */
  lemma EditedJobLoads(s: Store, id: int, j: Job)
    requires UniqueBy(UpdatePending(s, id, j).jobs, JobKey)
    requires FindJob(s, id).Some? && j.id == id && j.companyId == FindJob(s, id).value.companyId
    ensures var v := JobWithDetails(s, id);
      && v.Some?
      && JobWithDetails(UpdatePending(s, id, j), id)
        == Some(v.value.(job := j, category := FindCategory(s, j.categoryId)))
  {
    var p := UpdatePending(s, id, j);
    JobWithDetailsProps(s, id);
    var v := JobWithDetails(s, id).value;
    assert v.job == FindJob(s, id).value;
    ReplaceRows(s, id, j);
    FindByUnique(p.jobs, JobKey, j);
    assert FindJob(p, id) == Some(j);
    assert LinksOf(p, id) == LinksOf(s, id);
    TagsOfLinksSameTags(p, s, LinksOf(s, id));
    assert TagsOf(p, id) == v.tags;
    assert p == s.(jobs := p.jobs);
    assert JobWithDetails(p, id) == Some(LoadedJob(j, v.company, FindCategory(s, j.categoryId), v.tags,
      v.responsibilities, v.requirements, v.benefits, v.applications));
  }

  /** A successful `UpdateAsync` saved the edited row into a known job of an existing category. */
  lemma UpdateSaved(s: Store, id: int, dto: UpdateJobDto, now: int)
    requires Update(s, id, dto, now).result.Ok?
    ensures var o := Update(s, id, dto, now);
      var v := JobWithDetails(s, id);
      && v.Some? && id in JobIds(s) && FindJob(s, id) == Some(v.value.job)
      && o.store == UpdatePending(s, id, Edited(v.value.job, dto, now)) && Valid(o.store)
      && o.result.value == ToDto(v.value.(job := Edited(v.value.job, dto, now)), now)
  {
    JobWithDetailsProps(s, id);
  }

  /** The detail DTO of an edited job differs from the old one only in the edited fields and the category. */
  lemma EditedDetail(v: LoadedJob, dto: UpdateJobDto, cat: Option<Category>, now: int, at: int)
    ensures var d := ToDetailDto(v.(job := Edited(v.job, dto, at), category := cat), now);
      var before := ToDetailDto(v, now);
      && d.title == dto.title && d.description == dto.description
      && d.location == dto.location && d.salary == dto.salary
      && d.jobType == dto.jobType && d.experienceLevel == dto.experienceLevel
      && d.featured == dto.isFeatured && d.closingDate == dto.closingDate
      && d.category == CategoryNameOf(cat)
      && d.id == before.id && d.companyId == before.companyId && d.postedAt == before.postedAt
      && d.tags == before.tags && d.applicants == before.applicants
      && d.responsibilities == before.responsibilities
      && d.requirements == before.requirements
      && d.benefits == before.benefits
  {
  }

  /**
   * Round trip: after a successful `UpdateAsync`, `GetByIdAsync` shows the
   * new fields and the category they name, and keeps the company, the
   * posting time, the tags, the child lists and the applicants; the answer
   * is the job's `MapToDto` with the tags it had.
   */
  lemma UpdateRoundTrip(s: Store, id: int, dto: UpdateJobDto, now: int)
    requires Update(s, id, dto, now).result.Ok?
    ensures JobWithDetails(s, id).Some?
    ensures var o := Update(s, id, dto, now);
      var before := ToDetailDto(JobWithDetails(s, id).value, now);
      var d := GetById(o.store, id, now);
      && d.Some?
      && d.value.title == dto.title && d.value.description == dto.description
      && d.value.location == dto.location && d.value.salary == dto.salary
      && d.value.jobType == dto.jobType && d.value.experienceLevel == dto.experienceLevel
      && d.value.featured == dto.isFeatured && d.value.closingDate == dto.closingDate
      && d.value.category == CategoryNameOf(FindCategory(s, dto.categoryId))
      && d.value.companyId == before.companyId && d.value.postedAt == before.postedAt
      && d.value.tags == before.tags && d.value.applicants == before.applicants
      && d.value.responsibilities == before.responsibilities
      && d.value.requirements == before.requirements
      && d.value.benefits == before.benefits
      && o.result.value.id == id && o.result.value.tags == before.tags
  {
    UpdateSaved(s, id, dto, now);
    var v := JobWithDetails(s, id).value;
    var j := Edited(v.job, dto, now);
    assert UniqueBy(UpdatePending(s, id, j).jobs, JobKey);
    EditedJobLoads(s, id, j);
    EditedDetail(v, dto, FindCategory(s, dto.categoryId), now, now);
  }

  // -------------------------------------------------------------- delete

  /** `DeleteAsync`: an unknown id is "not found"; otherwise the job goes, with its cascade. */
  function Delete(s: Store, id: int): Outcome<()> {
    match FindJob(s, id)
    case None => Outcome(Err(NotFound("Job", id)), s)
    case Some(_) =>
      match Commit(DeleteJob(s, id))
      case Ok(p) => Outcome(Ok(()), p)
      case Err(e) => Outcome(Err(e), s)
  }

  /**
   * On a consistent store `DeleteAsync` succeeds exactly for a known id;
   * afterwards the job is gone and every other job is still there, and a
   * failure is "not found" with the store unchanged.
   */
  lemma DeleteOutcome(s: Store, id: int, now: int)
    requires Valid(s)
    ensures var o := Delete(s, id);
      && (o.result.Ok? <==> id in JobIds(s))
      && (o.result.Ok? ==>
            Valid(o.store) && GetById(o.store, id, now).None?
            && forall j | j in s.jobs && j.id != id :: j in o.store.jobs)
      && (o.result.Err? ==> o.result.error == NotFound("Job", id) && o.store == s)
  {
    DeleteJobValid(s, id);
    JobWithDetailsProps(DeleteJob(s, id), id);
  }

  // ------------------------------------------------ the service's methods

  /** The `foreach ... Select((r, i) => (r, i))` loop that fills one child list. */
  method BuildChildren(descs: seq<string>, firstId: int, jobId: int) returns (rows: seq<JobItem>)
    ensures rows == ChildRows(descs, firstId, jobId)
  {
    rows := [];
    var i := 0;
    while i < |descs|
      invariant 0 <= i <= |descs|
      invariant rows == ChildRows(descs[..i], firstId, jobId)
    {
      assert descs[..i + 1][..i] == descs[..i];
      rows := rows + [JobItem(firstId + i, descs[i], i, jobId)];
      i := i + 1;
    }
    assert descs[..i] == descs;
  }

  /** The tag loop of `CreateAsync`: look each name up, add a tag when none is found. */
  method ResolveTagNames(s: Store, names: seq<string>, next: int) returns (res: Resolution)
    ensures res == ResolveTags(s, names, next)
  {
    res := Resolution([], []);
    var i := 0;
    while i < |names|
      invariant 0 <= i <= |names|
      invariant res == ResolveTags(s, names[..i], next)
    {
      assert names[..i + 1][..i] == names[..i];
      var found := TagByName(s, names[i]);
      if found.Some? {
        res := Resolution(res.tags + [found.value], res.added);
      } else {
        var t := Tag(next + |res.added|, names[i]);
        res := Resolution(res.tags + [t], res.added + [t]);
      }
      i := i + 1;
    }
    assert names[..i] == names;
  }

  /** `CreateAsync` against the unit of work: build the job, its rows and links, then save. */
  method CreateAsync(uow: UnitOfWork, dto: CreateJobDto, now: int) returns (r: Result<JobDto, Exception>)
    modifies uow
    ensures r == Create(old(uow.store), dto, now).result
    ensures uow.store == Create(old(uow.store), dto, now).store
  {
    var s := uow.store;
    var id := NextId(s.jobs, JobKey);
    var job := NewJob(dto, id, now);
    var responsibilities := BuildChildren(dto.responsibilities, NextId(s.responsibilities, ItemKey), id);
    var requirements := BuildChildren(dto.requirements, NextId(s.requirements, ItemKey), id);
    var benefits := BuildChildren(dto.benefits, NextId(s.benefits, ItemKey), id);
    var res := ResolveTagNames(s, dto.tags, NextId(s.tags, TagKey));
    if !DistinctTags(res.tags) {
      return Err(TrackingConflict);
    }
    var pending := s.(jobs := s.jobs + [job],
      tags := s.tags + res.added,
      jobTags := s.jobTags + Map(res.tags, LinkTo(id)),
      responsibilities := s.responsibilities + responsibilities,
      requirements := s.requirements + requirements,
      benefits := s.benefits + benefits);
    assert pending == CreatePending(s, dto, now);
    var saved := uow.SaveChanges(pending);
    if saved.Err? {
      return Err(saved.error);
    }
    r := Ok(ToDto(LoadedJob(job, None, None, res.tags, [], [], [], []), now));
  }

  /** `UpdateAsync` against the unit of work. */
  method UpdateAsync(uow: UnitOfWork, id: int, dto: UpdateJobDto, now: int) returns (r: Result<JobDto, Exception>)
    modifies uow
    ensures r == Update(old(uow.store), id, dto, now).result
    ensures uow.store == Update(old(uow.store), id, dto, now).store
  {
    var s := uow.store;
    var loaded := JobWithDetails(s, id);
    if loaded.None? {
      return Err(NotFound("Job", id));
    }
    var job := Edited(loaded.value.job, dto, now);
    var saved := uow.SaveChanges(UpdatePending(s, id, job));
    if saved.Err? {
      return Err(saved.error);
    }
    r := Ok(ToDto(loaded.value.(job := job), now));
  }

  /** `DeleteAsync` against the unit of work. */
  method DeleteAsync(uow: UnitOfWork, id: int) returns (r: Result<(), Exception>)
    modifies uow
    ensures r == Delete(old(uow.store), id).result
    ensures uow.store == Delete(old(uow.store), id).store
  {
    var s := uow.store;
    if FindJob(s, id).None? {
      return Err(NotFound("Job", id));
    }
    var saved := uow.SaveChanges(DeleteJob(s, id));
    if saved.Err? {
      return Err(saved.error);
    }
    r := Ok(());
  }
}
