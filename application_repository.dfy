/**
 * `ApplicationRepository`: the applications for a job, those of a user,
 * and the one application of a user for a job.
 */
module ApplicationRepository {
  import opened Wrappers
  import opened Seqs
  import opened Entities
  import opened DbContext

  /** An application with what the query `Include`s: its user, or its job and the job's company. */
  datatype LoadedApplication = LoadedApplication(
    application: Application,
    user: Option<User>,
    job: Option<Job>,
    company: Option<Company>)

  /** `OrderByDescending(a => a.AppliedDate)`. */
  function Latest(a: Application, b: Application): bool {
    a.appliedDate >= b.appliedDate
  }

  function ForJob(jobId: int): Application -> bool { (a: Application) => a.jobId == jobId }
  function ByUser(userId: int): Application -> bool { (a: Application) => a.userId == userId }

  /** `Include(a => a.User)`. */
  function WithUser(s: Store): Application -> LoadedApplication {
    (a: Application) => LoadedApplication(a, FindUser(s, a.userId), None, None)
  }

  /** `Include(a => a.Job).ThenInclude(j => j.Company)`. */
  function WithJobAndCompany(s: Store): Application -> LoadedApplication {
    (a: Application) =>
      var j := FindJob(s, a.jobId);
      LoadedApplication(a, None, j, if j.Some? then FindCompany(s, j.value.companyId) else None)
  }

  function ApplicationOf(v: LoadedApplication): Application { v.application }

  function ApplicationsOf(r: seq<LoadedApplication>): seq<Application> { Map(r, ApplicationOf) }

  /** `GetByJobIdAsync`. */
  function ApplicationsForJob(s: Store, jobId: int): seq<LoadedApplication> {
    Map(SortBy(Filter(s.applications, ForJob(jobId)), Latest), WithUser(s))
  }

  /** `GetByUserIdAsync`. */
  function ApplicationsOfUser(s: Store, userId: int): seq<LoadedApplication> {
    Map(SortBy(Filter(s.applications, ByUser(userId)), Latest), WithJobAndCompany(s))
  }

  /** Exactly the job's applications, each as often as stored, latest first, each with its applicant. */
  lemma ApplicationsForJobProps(s: Store, jobId: int)
    ensures var r := ApplicationsOf(ApplicationsForJob(s, jobId));
      && multiset(r) == multiset(Filter(s.applications, ForJob(jobId)))
      && (forall a :: a in r <==> a in s.applications && a.jobId == jobId)
      && SortedBy(r, Latest)
    ensures forall v | v in ApplicationsForJob(s, jobId) :: v.user == FindUser(s, v.application.userId)
  {
    var pool := Filter(s.applications, ForJob(jobId));
    SortBySorted(pool, Latest);
    MapInverse(SortBy(pool, Latest), WithUser(s), ApplicationOf);
    var r := SortBy(pool, Latest);
    assert forall a :: a in r <==> a in multiset(pool);
  }

  /** Exactly the user's applications, each as often as stored, latest first, each with its job. */
  lemma ApplicationsOfUserProps(s: Store, userId: int)
    ensures var r := ApplicationsOf(ApplicationsOfUser(s, userId));
      && multiset(r) == multiset(Filter(s.applications, ByUser(userId)))
      && (forall a :: a in r <==> a in s.applications && a.userId == userId)
      && SortedBy(r, Latest)
    ensures forall v | v in ApplicationsOfUser(s, userId) :: v.job == FindJob(s, v.application.jobId)
  {
    var pool := Filter(s.applications, ByUser(userId));
    SortBySorted(pool, Latest);
    MapInverse(SortBy(pool, Latest), WithJobAndCompany(s), ApplicationOf);
    var r := SortBy(pool, Latest);
    assert forall a :: a in r <==> a in multiset(pool);
  }

  /** `GetByJobAndUserAsync`: the first application with both ids. */
  function ApplicationOfUserForJob(s: Store, jobId: int, userId: int): Option<Application> {
    FindBy(s.applications, ApplicationPair, (jobId, userId))
  }

  /** `HasUserAppliedAsync`: `Any(a => a.JobId == jobId && a.UserId == userId)`. */
  predicate HasUserApplied(s: Store, jobId: int, userId: int) {
    exists a | a in s.applications :: a.jobId == jobId && a.userId == userId
  }

  /**
   * The lookup returns an application with both ids or nothing, and it
   * returns one exactly when `HasUserAppliedAsync` is true; in a valid
   * store it is the single application of that user for that job.
   */
  lemma ApplicationOfUserForJobProps(s: Store, jobId: int, userId: int)
    ensures var r := ApplicationOfUserForJob(s, jobId, userId);
      && (r.Some? ==> r.value in s.applications && r.value.jobId == jobId && r.value.userId == userId)
      && (r.Some? <==> HasUserApplied(s, jobId, userId))
    ensures Valid(s) && HasUserApplied(s, jobId, userId) ==>
      forall a | a in s.applications && a.jobId == jobId && a.userId == userId ::
        ApplicationOfUserForJob(s, jobId, userId) == Some(a)
  {
    var r := ApplicationOfUserForJob(s, jobId, userId);
    if HasUserApplied(s, jobId, userId) {
      var a :| a in s.applications && a.jobId == jobId && a.userId == userId;
      assert ApplicationPair(a) == (jobId, userId);
    }
    if Valid(s) {
      forall a | a in s.applications && a.jobId == jobId && a.userId == userId
        ensures r == Some(a)
      {
        FindByUnique(s.applications, ApplicationPair, a);
      }
    }
  }
}
