/**
 * `StatisticsService`: the four figures of the home page. The two figures
 * that would read zero on an empty database fall back to demo values.
 */
module StatisticsService {
  import opened Seqs
  import opened Entities
  import opened DbContext
  import opened JobRepository

  datatype StatisticsDto = StatisticsDto(activeJobs: int, companies: int, jobSeekers: int, countries: int)

  const JobSeekerFallback := 15000
  const CountriesFallback := 50

  function IsJobSeeker(u: User): bool { u.role == "JobSeeker" }
  function IsVerified(c: Company): bool { c.isVerified }

  /** `count > 0 ? count : fallback`. */
  function OrFallback(count: int, fallback: int): int {
    if count > 0 then count else fallback
  }

  /** `GetStatisticsAsync`. */
  function GetStatistics(s: Store): StatisticsDto {
    StatisticsDto(
      Count(s.jobs, IsActive),
      |s.companies|,
      OrFallback(Count(s.users, IsJobSeeker), JobSeekerFallback),
      OrFallback(Count(s.companies, IsVerified), CountriesFallback))
  }

  /**
   * The active jobs and the companies are counted as they are; the job
   * seekers are counted when there is at least one and are otherwise 15000,
   * and the "countries" are the verified companies when there is at least
   * one and are otherwise 50. Both of these are therefore always positive.
   */
  lemma StatisticsProps(s: Store)
    ensures var d := GetStatistics(s);
      && d.activeJobs == Count(s.jobs, IsActive) <= |s.jobs|
      && d.companies == |s.companies|
      && (Any(s.users, IsJobSeeker) ==> d.jobSeekers == Count(s.users, IsJobSeeker))
      && (!Any(s.users, IsJobSeeker) ==> d.jobSeekers == JobSeekerFallback)
      && (Any(s.companies, IsVerified) ==> d.countries == Count(s.companies, IsVerified) <= d.companies)
      && (!Any(s.companies, IsVerified) ==> d.countries == CountriesFallback)
      && d.jobSeekers > 0 && d.countries > 0
  {
    CountZeroIffNone(s.users, IsJobSeeker);
    CountZeroIffNone(s.companies, IsVerified);
  }

  /** A store with no active job shows none, whatever else it holds. */
  lemma NoActiveJobs(s: Store)
    requires forall j | j in s.jobs :: !j.isActive
    ensures GetStatistics(s).activeJobs == 0
  {
    FilterNone(s.jobs, IsActive);
  }
}
