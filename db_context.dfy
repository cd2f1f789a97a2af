/**
 * The database as `ApplicationDbContext.OnModelCreating` configures it:
 * ten tables, their keys and unique indexes, the foreign keys with their
 * delete behaviour (cascade, restrict, set-null) and the column length
 * bounds. `SaveChanges` is the point where the database accepts the pending
 * changes as a whole or rejects them with a `DbUpdateException`.
 *
 * PostgreSQL is the database: unique indexes compare strings exactly and
 * `varchar(n)` bounds are enforced.
 */
module DbContext {
  import opened Wrappers
  import opened Seqs
  import opened Entities
  import opened Exceptions

  datatype Store = Store(
    jobs: seq<Job>,
    companies: seq<Company>,
    categories: seq<Category>,
    tags: seq<Tag>,
    jobTags: seq<JobTag>,
    responsibilities: seq<JobItem>,
    requirements: seq<JobItem>,
    benefits: seq<JobItem>,
    users: seq<User>,
    applications: seq<Application>)

  const Empty: Store := Store([], [], [], [], [], [], [], [], [], [])

  function JobIds(s: Store): set<int> { set j | j in s.jobs :: j.id }
  function CompanyIds(s: Store): set<int> { set c | c in s.companies :: c.id }
  function CategoryIds(s: Store): set<int> { set c | c in s.categories :: c.id }
  function TagIds(s: Store): set<int> { set t | t in s.tags :: t.id }
  function UserIds(s: Store): set<int> { set u | u in s.users :: u.id }

  // `DbSet.FindAsync` / `FirstOrDefaultAsync(e => e.Id == id)`.
  function FindJob(s: Store, id: int): Option<Job> { FindBy(s.jobs, JobKey, id) }
  function FindCompany(s: Store, id: int): Option<Company> { FindBy(s.companies, CompanyKey, id) }
  function FindCategory(s: Store, id: int): Option<Category> { FindBy(s.categories, CategoryKey, id) }
  function FindTag(s: Store, id: int): Option<Tag> { FindBy(s.tags, TagKey, id) }
  function FindUser(s: Store, id: int): Option<User> { FindBy(s.users, UserKey, id) }

  // ------------------------------------------------------------ invariant

  /** Every table's primary key; `JobTags` is keyed by the pair. */
  predicate KeysUnique(s: Store) {
    && UniqueBy(s.jobs, JobKey)
    && UniqueBy(s.companies, CompanyKey)
    && UniqueBy(s.categories, CategoryKey)
    && UniqueBy(s.tags, TagKey)
    && UniqueBy(s.jobTags, JobTagKey)
    && UniqueBy(s.responsibilities, ItemKey)
    && UniqueBy(s.requirements, ItemKey)
    && UniqueBy(s.benefits, ItemKey)
    && UniqueBy(s.users, UserKey)
    && UniqueBy(s.applications, ApplicationKey)
  }

  /** The unique indexes: category name, tag name, user e-mail, one application per job and user. */
  predicate IndexesUnique(s: Store) {
    && UniqueBy(s.categories, CategoryName)
    && UniqueBy(s.tags, TagName)
    && UniqueBy(s.users, UserEmail)
    && UniqueBy(s.applications, ApplicationPair)
  }

  predicate ItemsReferenceJobs(items: seq<JobItem>, jobs: set<int>) {
    forall r | r in items :: r.jobId in jobs
  }

  predicate ForeignKeysHold(s: Store) {
    && (forall j | j in s.jobs :: j.companyId in CompanyIds(s) && j.categoryId in CategoryIds(s))
    && (forall jt | jt in s.jobTags :: jt.jobId in JobIds(s) && jt.tagId in TagIds(s))
    && ItemsReferenceJobs(s.responsibilities, JobIds(s))
    && ItemsReferenceJobs(s.requirements, JobIds(s))
    && ItemsReferenceJobs(s.benefits, JobIds(s))
    && (forall u | u in s.users :: u.companyId.Some? ==> u.companyId.value in CompanyIds(s))
    && (forall a | a in s.applications :: a.jobId in JobIds(s) && a.userId in UserIds(s))
  }

  predicate JobFits(j: Job) {
    |j.title| <= 200 && |j.location| <= 200 && |j.salary| <= 100
    && |j.jobType| <= 50 && |j.experienceLevel| <= 50
  }

  /** `decimal(3,2)` holds -9.99 to 9.99, that is -999 to 999 hundredths. */
  predicate CompanyFits(c: Company) {
    |c.name| <= 200 && |c.industry| <= 100 && |c.location| <= 200
    && (c.rating.Some? ==> -999 <= c.rating.value <= 999)
  }

  predicate CategoryFits(c: Category) { |c.name| <= 100 }
  predicate TagFits(t: Tag) { |t.name| <= 50 }
  predicate ItemFits(r: JobItem) { |r.description| <= 500 }

  predicate UserFits(u: User) {
    |u.email| <= 256 && |u.firstName| <= 100 && |u.lastName| <= 100 && |u.role| <= 20
  }

  predicate ApplicationFits(a: Application) { |a.status| <= 20 }

  predicate LengthsFit(s: Store) {
    && (forall j | j in s.jobs :: JobFits(j))
    && (forall c | c in s.companies :: CompanyFits(c))
    && (forall c | c in s.categories :: CategoryFits(c))
    && (forall t | t in s.tags :: TagFits(t))
    && (forall r | r in s.responsibilities :: ItemFits(r))
    && (forall r | r in s.requirements :: ItemFits(r))
    && (forall r | r in s.benefits :: ItemFits(r))
    && (forall u | u in s.users :: UserFits(u))
    && (forall a | a in s.applications :: ApplicationFits(a))
  }

  /** What the database enforces on every committed state. */
  predicate Valid(s: Store) {
    KeysUnique(s) && IndexesUnique(s) && ForeignKeysHold(s) && LengthsFit(s)
  }

  lemma EmptyValid()
    ensures Valid(Empty)
  {
  }

  // ---------------------------------------------------------- SaveChanges

  /**
   * `SaveChanges`: the pending state becomes the committed one when the
   * database accepts it, and otherwise nothing is committed.
   */
  function Commit(pending: Store): (r: Result<Store, Exception>)
    ensures r.Ok? <==> Valid(pending)
    ensures r.Ok? ==> r.value == pending
    ensures r.Err? ==> r.error.kind == DbUpdate
  {
    if Valid(pending) then Ok(pending) else Err(SaveFailed)
  }

  // ------------------------------------------------------------- deletion

  /** Deletes the jobs in `ids` and, by cascade, their tags links, child rows and applications. */
  function DeleteJobs(s: Store, ids: set<int>): (r: Store)
    ensures forall j | j in r.jobs :: j in s.jobs && j.id !in ids
    ensures forall j | j in s.jobs && j.id !in ids :: j in r.jobs
    ensures forall jt :: jt in r.jobTags <==> jt in s.jobTags && jt.jobId !in ids
    ensures forall a :: a in r.applications <==> a in s.applications && a.jobId !in ids
    ensures forall x :: x in r.responsibilities <==> x in s.responsibilities && x.jobId !in ids
    ensures forall x :: x in r.requirements <==> x in s.requirements && x.jobId !in ids
    ensures forall x :: x in r.benefits <==> x in s.benefits && x.jobId !in ids
    ensures r.companies == s.companies && r.categories == s.categories
    ensures r.tags == s.tags && r.users == s.users
  {
    s.(jobs := Without(s.jobs, JobKey, ids),
       jobTags := Without(s.jobTags, JobTagJob, ids),
       responsibilities := Without(s.responsibilities, ItemJob, ids),
       requirements := Without(s.requirements, ItemJob, ids),
       benefits := Without(s.benefits, ItemJob, ids),
       applications := Without(s.applications, ApplicationJob, ids))
  }

  /** Deleting a job cascades to its tag links, responsibilities, requirements, benefits and applications. */
  function DeleteJob(s: Store, id: int): (r: Store)
    ensures id !in JobIds(r)
    ensures forall jt | jt in r.jobTags :: jt.jobId != id
    ensures forall x | x in r.responsibilities + r.requirements + r.benefits :: x.jobId != id
    ensures forall a | a in r.applications :: a.jobId != id
    ensures forall j | j in s.jobs && j.id != id :: j in r.jobs
  {
    DeleteJobs(s, {id})
  }

  /** The `SET NULL` rule: users of a deleted company lose their company, nothing else. */
  function Detach(id: int): User -> User {
    (u: User) => if u.companyId == Some(id) then u.(companyId := None) else u
  }

  function JobsOfCompany(s: Store, id: int): set<int> {
    set j | j in s.jobs && j.companyId == id :: j.id
  }

  /**
   * Deleting a company cascades to its jobs (and through them to their
   * dependents) and sets `CompanyId` to null on its users, who stay.
   */
  function DeleteCompany(s: Store, id: int): (r: Store)
    ensures forall c | c in r.companies :: c in s.companies && c.id != id
    ensures forall c :: c in r.companies <==> c in s.companies && c.id != id
    ensures forall j | j in r.jobs :: j in s.jobs && j.companyId != id
    ensures forall j | j in s.jobs && j.id !in JobsOfCompany(s, id) :: j in r.jobs
    ensures |r.users| == |s.users|
    ensures forall i :: 0 <= i < |s.users| ==>
      r.users[i].companyId != Some(id) && r.users[i] == s.users[i].(companyId := r.users[i].companyId)
    ensures forall i | 0 <= i < |s.users| :: r.users[i] == Detach(id)(s.users[i])
    ensures r.categories == s.categories && r.tags == s.tags
  {
    var t := DeleteJobs(s, JobsOfCompany(s, id));
    t.(companies := Filter(s.companies, (c: Company) => c.id != id),
       users := Map(s.users, Detach(id)))
  }

  /** Deleting a tag cascades to its links with jobs. */
  function DeleteTag(s: Store, id: int): (r: Store)
    ensures id !in TagIds(r)
    ensures forall jt | jt in r.jobTags :: jt in s.jobTags && jt.tagId != id
    ensures forall jt | jt in s.jobTags && jt.tagId != id :: jt in r.jobTags
    ensures forall t :: t in r.tags <==> t in s.tags && t.id != id
    ensures r.jobs == s.jobs
    ensures r == s.(tags := r.tags, jobTags := r.jobTags)
  {
    s.(tags := Without(s.tags, TagKey, {id}), jobTags := Without(s.jobTags, JobTagTag, {id}))
  }

  /** Deleting a user cascades to that user's applications. */
  function DeleteUser(s: Store, id: int): (r: Store)
    ensures id !in UserIds(r)
    ensures forall a | a in r.applications :: a in s.applications && a.userId != id
    ensures forall a | a in s.applications && a.userId != id :: a in r.applications
    ensures forall u :: u in r.users <==> u in s.users && u.id != id
    ensures r.jobs == s.jobs
    ensures r == s.(users := r.users, applications := r.applications)
  {
    s.(users := Without(s.users, UserKey, {id}), applications := Without(s.applications, ApplicationUser, {id}))
  }

  /**
   * Deleting a category: the jobs that reference it are `Restrict`ed, so
   * the row alone is removed and the foreign key decides at `SaveChanges`.
   */
  function DeleteCategory(s: Store, id: int): (r: Store)
    ensures id !in CategoryIds(r)
    ensures forall c :: c in r.categories <==> c in s.categories && c.id != id
    ensures r == s.(categories := r.categories)
  {
    s.(categories := Without(s.categories, CategoryKey, {id}))
  }

  // --------------------------------------------- the rules keep the invariant

  lemma ItemsAfterDelete(items: seq<JobItem>, s: Store, ids: set<int>)
    requires ItemsReferenceJobs(items, JobIds(s))
    ensures ItemsReferenceJobs(Without(items, ItemJob, ids), JobIds(DeleteJobs(s, ids)))
  {
    var r := DeleteJobs(s, ids);
    forall x | x in Without(items, ItemJob, ids) ensures x.jobId in JobIds(r) {
      var j :| j in s.jobs && j.id == x.jobId;
      assert j in r.jobs;
    }
  }

  lemma DeleteJobsKeys(s: Store, ids: set<int>)
    requires KeysUnique(s) && IndexesUnique(s)
    ensures KeysUnique(DeleteJobs(s, ids)) && IndexesUnique(DeleteJobs(s, ids))
  {
    WithoutUnique(s.jobs, JobKey, ids, JobKey);
    WithoutUnique(s.jobTags, JobTagJob, ids, JobTagKey);
    WithoutUnique(s.responsibilities, ItemJob, ids, ItemKey);
    WithoutUnique(s.requirements, ItemJob, ids, ItemKey);
    WithoutUnique(s.benefits, ItemJob, ids, ItemKey);
    WithoutUnique(s.applications, ApplicationJob, ids, ApplicationKey);
    WithoutUnique(s.applications, ApplicationJob, ids, ApplicationPair);
  }

  lemma DeleteJobsForeignKeys(s: Store, ids: set<int>)
    requires ForeignKeysHold(s)
    ensures ForeignKeysHold(DeleteJobs(s, ids))
  {
    var r := DeleteJobs(s, ids);
    forall jt | jt in r.jobTags ensures jt.jobId in JobIds(r) {
      var j :| j in s.jobs && j.id == jt.jobId;
      assert j in r.jobs;
    }
    forall a | a in r.applications ensures a.jobId in JobIds(r) {
      var j :| j in s.jobs && j.id == a.jobId;
      assert j in r.jobs;
    }
    ItemsAfterDelete(s.responsibilities, s, ids);
    ItemsAfterDelete(s.requirements, s, ids);
    ItemsAfterDelete(s.benefits, s, ids);
  }

  lemma DeleteJobsValid(s: Store, ids: set<int>)
    requires Valid(s)
    ensures Valid(DeleteJobs(s, ids))
  {
    DeleteJobsKeys(s, ids);
    DeleteJobsForeignKeys(s, ids);
  }

  /** Deleting a job never violates a constraint: everything that referenced it goes with it. */
  lemma DeleteJobValid(s: Store, id: int)
    requires Valid(s)
    ensures Valid(DeleteJob(s, id))
  {
    DeleteJobsValid(s, {id});
  }

  lemma DeleteCompanyKeys(s: Store, id: int)
    requires KeysUnique(s) && IndexesUnique(s)
    ensures KeysUnique(DeleteCompany(s, id)) && IndexesUnique(DeleteCompany(s, id))
  {
    DeleteJobsKeys(s, JobsOfCompany(s, id));
    FilterUnique(s.companies, (c: Company) => c.id != id, CompanyKey);
    MapUnique(s.users, Detach(id), UserKey);
    MapUnique(s.users, Detach(id), UserEmail);
  }

  lemma DeleteCompanyForeignKeys(s: Store, id: int)
    requires ForeignKeysHold(s)
    ensures ForeignKeysHold(DeleteCompany(s, id))
  {
    DeleteJobsForeignKeys(s, JobsOfCompany(s, id));
    DeleteCompanyJobsOwned(s, id);
    DeleteCompanyUsersOwned(s, id);
  }

  /** The remaining jobs belong to remaining companies. */
  lemma DeleteCompanyJobsOwned(s: Store, id: int)
    requires forall j | j in s.jobs :: j.companyId in CompanyIds(s)
    ensures forall j | j in DeleteCompany(s, id).jobs :: j.companyId in CompanyIds(DeleteCompany(s, id))
  {
    var r := DeleteCompany(s, id);
    forall j | j in r.jobs ensures j.companyId in CompanyIds(r) {
      var c :| c in s.companies && c.id == j.companyId;
      assert c in r.companies;
    }
  }

  /** A user still attached to a company is attached to a remaining one. */
  lemma DeleteCompanyUsersOwned(s: Store, id: int)
    requires forall u | u in s.users :: u.companyId.Some? ==> u.companyId.value in CompanyIds(s)
    ensures var r := DeleteCompany(s, id);
      forall u | u in r.users :: u.companyId.Some? ==> u.companyId.value in CompanyIds(r)
  {
    var r := DeleteCompany(s, id);
    forall u | u in r.users && u.companyId.Some? ensures u.companyId.value in CompanyIds(r) {
      var i :| 0 <= i < |r.users| && r.users[i] == u;
      var c :| c in s.companies && c.id == s.users[i].companyId.value;
      assert c in r.companies;
    }
  }

  lemma DeleteCompanyLengths(s: Store, id: int)
    requires LengthsFit(s)
    ensures LengthsFit(DeleteCompany(s, id))
  {
    var r := DeleteCompany(s, id);
    forall u | u in r.users ensures UserFits(u) {
      var i :| 0 <= i < |r.users| && r.users[i] == u;
      assert s.users[i] in s.users;
    }
  }

  /** Deleting a company never violates a constraint: its jobs go, its users stay without it. */
  lemma DeleteCompanyValid(s: Store, id: int)
    requires Valid(s)
    ensures Valid(DeleteCompany(s, id))
  {
    DeleteCompanyKeys(s, id);
    DeleteCompanyForeignKeys(s, id);
    DeleteCompanyLengths(s, id);
  }

  /** With unique job ids, exactly the company's own jobs are deleted. */
  lemma DeleteCompanyKeepsOtherJobs(s: Store, id: int)
    requires UniqueBy(s.jobs, JobKey)
    ensures forall j | j in s.jobs :: (j in DeleteCompany(s, id).jobs <==> j.companyId != id)
  {
    forall j | j in s.jobs && j.companyId != id ensures j.id !in JobsOfCompany(s, id) {
      forall k | k in s.jobs && k.companyId == id ensures k.id != j.id {
        var a :| 0 <= a < |s.jobs| && s.jobs[a] == j;
        var b :| 0 <= b < |s.jobs| && s.jobs[b] == k;
        assert a != b;
      }
    }
  }

  lemma DeleteTagValid(s: Store, id: int)
    requires Valid(s)
    ensures Valid(DeleteTag(s, id))
  {
    var r := DeleteTag(s, id);
    WithoutUnique(s.tags, TagKey, {id}, TagKey);
    WithoutUnique(s.tags, TagKey, {id}, TagName);
    WithoutUnique(s.jobTags, JobTagTag, {id}, JobTagKey);
    forall jt | jt in r.jobTags ensures jt.tagId in TagIds(r) {
      var t :| t in s.tags && t.id == jt.tagId;
      assert t in r.tags;
    }
  }

  lemma DeleteUserValid(s: Store, id: int)
    requires Valid(s)
    ensures Valid(DeleteUser(s, id))
  {
    var r := DeleteUser(s, id);
    WithoutUnique(s.users, UserKey, {id}, UserKey);
    WithoutUnique(s.users, UserKey, {id}, UserEmail);
    WithoutUnique(s.applications, ApplicationUser, {id}, ApplicationKey);
    WithoutUnique(s.applications, ApplicationUser, {id}, ApplicationPair);
    forall a | a in r.applications ensures a.userId in UserIds(r) {
      var u :| u in s.users && u.id == a.userId;
      assert u in r.users;
    }
  }

  /**
   * The `Restrict` rule: a category that some job references cannot be
   * deleted, and one that no job references can.
   */
  lemma DeleteCategoryRestricted(s: Store, id: int)
    requires Valid(s)
    requires id in CategoryIds(s)
    ensures Valid(DeleteCategory(s, id)) <==> (forall j | j in s.jobs :: j.categoryId != id)
  {
    var r := DeleteCategory(s, id);
    WithoutUnique(s.categories, CategoryKey, {id}, CategoryKey);
    WithoutUnique(s.categories, CategoryKey, {id}, CategoryName);
    if forall j | j in s.jobs :: j.categoryId != id {
      forall j | j in r.jobs ensures j.categoryId in CategoryIds(r) {
        var c :| c in s.categories && c.id == j.categoryId;
        assert c in r.categories;
      }
    }
  }

  // --------------------------------------------------------- unit of work

  /** What a service operation answers, and the store it leaves committed. */
  datatype Outcome<T> = Outcome(result: Result<T, Exception>, store: Store)

  /**
   * The per-request unit of work: the committed store. A service builds a
   * pending store and hands it to `SaveChanges`.
   */
  class UnitOfWork {
    var store: Store

    constructor (s: Store)
      ensures store == s
    {
      store := s;
    }

    method SaveChanges(pending: Store) returns (r: Result<Store, Exception>)
      modifies this
      ensures r == Commit(pending)
      ensures store == if r.Ok? then pending else old(store)
    {
      r := Commit(pending);
      if r.Ok? {
        store := pending;
      }
    }
  }
}
