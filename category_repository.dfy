/**
 * `CategoryRepository.GetCategoriesWithJobCountAsync`: every category with
 * its active jobs loaded, ordered by name. The model orders names
 * ordinally, code unit by code unit.
 */
module CategoryRepository {
  import opened Text
  import opened Seqs
  import opened Entities
  import opened DbContext
  import opened JobRepository

  datatype LoadedCategory = LoadedCategory(category: Category, jobs: seq<Job>)

  /** `Include(c => c.Jobs.Where(j => j.IsActive))`. */
  function WithActiveJobs(s: Store): Category -> LoadedCategory {
    (c: Category) => LoadedCategory(c, Filter(s.jobs, ActiveInCategory(c.id)))
  }

  /** `OrderBy(c => c.Name)`, comparing names by code point. */
  function ByName(a: Category, b: Category): bool {
    LexLe(a.name, b.name)
  }

  lemma ByNameTotal()
    ensures TotalPreorder(ByName)
  {
    forall a: Category, b: Category ensures ByName(a, b) || ByName(b, a) {
      LexLeTotal(a.name, b.name);
    }
    forall a: Category, b: Category, c: Category | ByName(a, b) && ByName(b, c)
      ensures ByName(a, c)
    {
      LexLeTrans(a.name, b.name, c.name);
    }
  }

  /** `GetCategoriesWithJobCountAsync`. */
  function CategoriesWithJobCount(s: Store): seq<LoadedCategory> {
    Map(SortBy(s.categories, ByName), WithActiveJobs(s))
  }

  function CategoryOf(v: LoadedCategory): Category { v.category }

  /**
   * Every stored category comes back, once per row, in name order, each
   * with exactly its active jobs: their number is the category's active-job count.
   */
  lemma CategoriesWithJobCountProps(s: Store)
    ensures var r := CategoriesWithJobCount(s);
      && multiset(Map(r, CategoryOf)) == multiset(s.categories)
      && SortedBy(Map(r, CategoryOf), ByName)
      && forall v | v in r ::
        && v.jobs == Filter(s.jobs, ActiveInCategory(v.category.id))
        && (forall j | j in v.jobs :: j.isActive && j.categoryId == v.category.id)
        && |v.jobs| == Count(s.jobs, ActiveInCategory(v.category.id))
  {
    ByNameTotal();
    SortBySorted(s.categories, ByName);
    MapInverse(SortBy(s.categories, ByName), WithActiveJobs(s), CategoryOf);
  }
}
