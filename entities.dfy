/**
 * The persisted entities of the job board. Instants are whole seconds on
 * one clock; `Option` stands for the C# nullable types; a company rating is
 * kept in hundredths (the column is `decimal(3,2)`).
 *
 * The three child tables of a job (responsibilities, requirements,
 * benefits) share one row shape, `JobItem`.
 */
module Entities {
  import opened Wrappers

  datatype Job = Job(
    id: int,
    title: string,
    description: string,
    location: string,
    salary: string,
    jobType: string,
    experienceLevel: string,
    isFeatured: bool,
    isActive: bool,
    postedDate: int,
    closingDate: Option<int>,
    companyId: int,
    categoryId: int,
    updatedAt: Option<int>)

  datatype Company = Company(
    id: int,
    name: string,
    description: string,
    industry: string,
    location: string,
    logo: Option<string>,
    website: Option<string>,
    size: Option<string>,
    foundedYear: Option<string>,
    rating: Option<int>,
    reviewCount: int,
    isVerified: bool,
    updatedAt: Option<int>)

  datatype Category = Category(
    id: int,
    name: string,
    description: Option<string>,
    icon: Option<string>,
    color: Option<string>,
    updatedAt: Option<int>)

  datatype Tag = Tag(id: int, name: string)

  /** The many-to-many link between jobs and tags; its key is the pair. */
  datatype JobTag = JobTag(jobId: int, tagId: int)

  /** A row of `JobResponsibilities`, `JobRequirements` or `JobBenefits`. */
  datatype JobItem = JobItem(id: int, description: string, order: int, jobId: int)

  datatype User = User(
    id: int,
    email: string,
    passwordHash: string,
    firstName: string,
    lastName: string,
    phone: Option<string>,
    profilePicture: Option<string>,
    role: string,
    isActive: bool,
    lastLoginAt: Option<int>,
    companyId: Option<int>,
    updatedAt: Option<int>)

  datatype Application = Application(id: int, status: string, appliedDate: int, jobId: int, userId: int)

  /** `User.FullName`: first name, one space, last name. */
  function FullName(u: User): string {
    u.firstName + " " + u.lastName
  }

  // Keys, as function values the generic table lemmas take.
  function JobKey(j: Job): int { j.id }
  function CompanyKey(c: Company): int { c.id }
  function CategoryKey(c: Category): int { c.id }
  function TagKey(t: Tag): int { t.id }
  function ItemKey(r: JobItem): int { r.id }
  function UserKey(u: User): int { u.id }
  function ApplicationKey(a: Application): int { a.id }
  function JobTagKey(jt: JobTag): (int, int) { (jt.jobId, jt.tagId) }

  // Foreign keys.
  function JobCompany(j: Job): int { j.companyId }
  function JobCategory(j: Job): int { j.categoryId }
  function JobTagJob(jt: JobTag): int { jt.jobId }
  function JobTagTag(jt: JobTag): int { jt.tagId }
  function ItemJob(r: JobItem): int { r.jobId }
  function ApplicationJob(a: Application): int { a.jobId }
  function ApplicationUser(a: Application): int { a.userId }

  // Unique indexes other than the keys.
  function CategoryName(c: Category): string { c.name }
  function TagName(t: Tag): string { t.name }
  function UserEmail(u: User): string { u.email }
  function ApplicationPair(a: Application): (int, int) { (a.jobId, a.userId) }
}
