/**
 * `CategoryService`: category DTOs with their active-job counts, and the
 * category mutations. A category's name is unique, and a category that a
 * job references cannot be deleted (the relationship is `Restrict`).
 */
module CategoryService {
  import opened Wrappers
  import opened Text
  import opened Seqs
  import opened Entities
  import opened Exceptions
  import opened DbContext
  import opened JobRepository
  import opened CategoryRepository

  datatype CategoryDto = CategoryDto(
    id: int,
    title: string,
    description: Option<string>,
    icon: Option<string>,
    color: Option<string>,
    count: int)

  datatype CreateCategoryDto = CreateCategoryDto(
    name: string,
    description: Option<string>,
    icon: Option<string>,
    color: Option<string>)

  /** `Jobs.CountAsync(j => j.CategoryId == id && j.IsActive)`. */
  function ActiveJobCount(s: Store, id: int): nat {
    Count(s.jobs, ActiveInCategory(id))
  }

  /** The DTO of a category: `Title` is the category's `Name`. */
  function ToDto(c: Category, count: int): CategoryDto {
    CategoryDto(c.id, c.name, c.description, c.icon, c.color, count)
  }

  /** A category no active job references counts 0, and any other counts more. */
  lemma ActiveJobCountZero(s: Store, id: int)
    ensures ActiveJobCount(s, id) == 0 <==> forall j | j in s.jobs :: !(j.categoryId == id && j.isActive)
  {
    CountZeroIffNone(s.jobs, ActiveInCategory(id));
  }

  // --------------------------------------------------------------- reads

  /** `GetByIdAsync`. */
  function GetById(s: Store, id: int): Option<CategoryDto> {
    match FindCategory(s, id)
    case None => None
    case Some(c) => Some(ToDto(c, ActiveJobCount(s, id)))
  }

  /** Found iff stored; the DTO is the stored category under its id, with its active-job count. */
  lemma GetByIdProps(s: Store, id: int)
    ensures GetById(s, id).Some? <==> id in CategoryIds(s)
    ensures GetById(s, id).Some? ==>
      var d := GetById(s, id).value;
      && d.id == id
      && (exists c | c in s.categories :: c.id == id && c.name == d.title)
      && d.count == ActiveJobCount(s, id)
  {
    if id in CategoryIds(s) {
      var c :| c in s.categories && c.id == id;
      assert CategoryKey(c) == id;
    }
  }

  function Counted(s: Store): Category -> CategoryDto {
    (c: Category) => ToDto(c, ActiveJobCount(s, c.id))
  }

  /** `GetAllAsync`: one DTO per category, in table order. */
  function GetAll(s: Store): seq<CategoryDto> {
    Map(s.categories, Counted(s))
  }

  /** One DTO per stored category, in table order, each with its own active-job count. */
  lemma GetAllProps(s: Store)
    ensures var r := GetAll(s);
      && |r| == |s.categories|
      && forall i :: 0 <= i < |r| ==>
           && r[i].id == s.categories[i].id && r[i].title == s.categories[i].name
           && r[i].count == ActiveJobCount(s, s.categories[i].id)
  {
  }

  /** The `foreach` of `GetAllAsync`, counting the jobs of one category at a time. */
  method GetAllAsync(uow: UnitOfWork) returns (result: seq<CategoryDto>)
    ensures result == GetAll(uow.store)
  {
    var categories := uow.store.categories;
    result := [];
    var i := 0;
    while i < |categories|
      invariant 0 <= i <= |categories|
      invariant |result| == i
      invariant forall k :: 0 <= k < i ==> result[k] == Counted(uow.store)(categories[k])
    {
      var jobCount := Count(uow.store.jobs, ActiveInCategory(categories[i].id));
      result := result + [ToDto(categories[i], jobCount)];
      i := i + 1;
    }
  }

  function LoadedCount(v: LoadedCategory): CategoryDto {
    ToDto(v.category, Count(v.jobs, IsActive))
  }

  /** `GetWithJobCountAsync`: the repository's categories, counting the active jobs loaded with each. */
  function GetWithJobCount(s: Store): seq<CategoryDto> {
    Map(CategoriesWithJobCount(s), LoadedCount)
  }

  /**
   * One DTO per stored category, in name order, each counting exactly the
   * active jobs the store has in that category: the DTOs are made, one by
   * one, from a permutation of the stored categories.
   */
  lemma GetWithJobCountProps(s: Store)
    ensures var r := GetWithJobCount(s);
      var cs := Map(CategoriesWithJobCount(s), CategoryOf);
      && |r| == |s.categories|
      && multiset(cs) == multiset(s.categories)
      && (forall i :: 0 <= i < |r| ==> r[i].id == cs[i].id && r[i].title == cs[i].name)
      && (forall i, j :: 0 <= i < j < |r| ==> LexLe(r[i].title, r[j].title))
      && forall d | d in r ::
           && (exists c | c in s.categories :: c.id == d.id && c.name == d.title)
           && d.count == ActiveJobCount(s, d.id)
  {
    var loaded := CategoriesWithJobCount(s);
    var r := GetWithJobCount(s);
    CategoriesWithJobCountProps(s);
    assert |r| == |s.categories| by {
      assert |multiset(Map(loaded, CategoryOf))| == |multiset(s.categories)|;
    }
    LoadedCountRows(loaded);
    forall i, j | 0 <= i < j < |r| ensures LexLe(r[i].title, r[j].title) {
      assert Map(loaded, CategoryOf)[i] == loaded[i].category;
      assert Map(loaded, CategoryOf)[j] == loaded[j].category;
    }
    forall d | d in r
      ensures (exists c | c in s.categories :: c.id == d.id && c.name == d.title)
      ensures d.count == ActiveJobCount(s, d.id)
    {
      var i :| 0 <= i < |loaded| && LoadedCount(loaded[i]) == d;
      var v := loaded[i];
      assert v in loaded;
      assert v.category in multiset(Map(loaded, CategoryOf)) by {
        assert Map(loaded, CategoryOf)[i] == v.category;
      }
      FilterAll(v.jobs, IsActive);
    }
  }

  /** Each DTO carries the id and the name of the category it was made from. */
  lemma LoadedCountRows(loaded: seq<LoadedCategory>)
    ensures var r := Map(loaded, LoadedCount);
      var cs := Map(loaded, CategoryOf);
      forall i :: 0 <= i < |r| ==> r[i].id == cs[i].id && r[i].title == cs[i].name
  {
  }

  // -------------------------------------------------------------- create

  function NewCategory(dto: CreateCategoryDto, id: int): Category {
    Category(id, dto.name, dto.description, dto.icon, dto.color, None)
  }

  /** `CreateAsync`: a new category has no jobs, so its count is 0. */
  function Create(s: Store, dto: CreateCategoryDto): Outcome<CategoryDto> {
    var c := NewCategory(dto, NextId(s.categories, CategoryKey));
    match Commit(s.(categories := s.categories + [c]))
    case Ok(p) => Outcome(Ok(ToDto(c, 0)), p)
    case Err(e) => Outcome(Err(e), s)
  }

  /** Whether some other category than `id` already has the name. */
  predicate NameTaken(s: Store, name: string, id: int) {
    exists c | c in s.categories :: c.id != id && c.name == name
  }

  /**
   * On a consistent store `CreateAsync` succeeds exactly when the name is
   * new and fits its column; it answers count 0, and a failure keeps the store.
   */
  lemma CreateOutcome(s: Store, dto: CreateCategoryDto)
    requires Valid(s)
    ensures var id := NextId(s.categories, CategoryKey);
      var o := Create(s, dto);
      && (o.result.Ok? <==> !NameTaken(s, dto.name, id) && |dto.name| <= 100)
      && (o.result.Ok? ==>
            && o.result.value.id == id && id !in CategoryIds(s)
            && o.result.value.title == dto.name && o.result.value.count == 0
            && GetById(o.store, id) == Some(o.result.value))
      && (o.result.Err? ==> o.store == s)
  {
    var id := NextId(s.categories, CategoryKey);
    var c := NewCategory(dto, id);
    CreateValid(s, dto);
    if !NameTaken(s, dto.name, id) && |dto.name| <= 100 {
      CreatedFound(s, dto);
    }
  }

  /** The store with the new category appended is consistent exactly when its name is new and fits. */
  lemma CreateValid(s: Store, dto: CreateCategoryDto)
    requires Valid(s)
    ensures var id := NextId(s.categories, CategoryKey);
      var p := s.(categories := s.categories + [NewCategory(dto, id)]);
      && id !in CategoryIds(s)
      && (Valid(p) <==> !NameTaken(s, dto.name, id) && |dto.name| <= 100)
  {
    var id := NextId(s.categories, CategoryKey);
    var c := NewCategory(dto, id);
    var p := s.(categories := s.categories + [c]);
    assert KeysUnique(p) by {
      AppendUnique(s.categories, c, CategoryKey);
    }
    assert ForeignKeysHold(p) by {
      assert CategoryIds(s) <= CategoryIds(p);
    }
    assert LengthsFit(p) <==> |dto.name| <= 100 by {
      assert c in p.categories;
    }
    if NameTaken(s, dto.name, id) {
      var x :| x in s.categories && x.id != id && x.name == dto.name;
      NotUniqueBy(p.categories, CategoryName, x, c);
      assert !IndexesUnique(p);
    } else {
      AppendUnique(s.categories, c, CategoryName);
      assert IndexesUnique(p);
    }
  }

  /** Once saved, the new category is found by its id, with no jobs. */
  lemma CreatedFound(s: Store, dto: CreateCategoryDto)
    requires Valid(s)
    requires var id := NextId(s.categories, CategoryKey);
      Valid(s.(categories := s.categories + [NewCategory(dto, id)]))
    ensures var id := NextId(s.categories, CategoryKey);
      var c := NewCategory(dto, id);
      GetById(s.(categories := s.categories + [c]), id) == Some(ToDto(c, 0))
  {
    var id := NextId(s.categories, CategoryKey);
    var c := NewCategory(dto, id);
    var p := s.(categories := s.categories + [c]);
    FindByUnique(p.categories, CategoryKey, c);
    FilterNone(s.jobs, ActiveInCategory(id));
  }

  // -------------------------------------------------------------- update

  /** The fields `UpdateAsync` assigns, and the time of the update. */
  function Edited(c: Category, dto: CreateCategoryDto, now: int): Category {
    c.(name := dto.name, description := dto.description, icon := dto.icon, color := dto.color,
       updatedAt := Some(now))
  }

  function ReplaceCategory(id: int, c: Category): Category -> Category {
    (x: Category) => if x.id == id then c else x
  }

  function UpdatePending(s: Store, id: int, c: Category): Store {
    s.(categories := Map(s.categories, ReplaceCategory(id, c)))
  }

  /** `UpdateAsync`: save the edited row, then count the category's active jobs. */
  function Update(s: Store, id: int, dto: CreateCategoryDto, now: int): Outcome<CategoryDto> {
    match FindCategory(s, id)
    case None => Outcome(Err(NotFound("Category", id)), s)
    case Some(c) =>
      var e := Edited(c, dto, now);
      match Commit(UpdatePending(s, id, e))
      case Ok(p) => Outcome(Ok(ToDto(e, ActiveJobCount(p, id))), p)
      case Err(x) => Outcome(Err(x), s)
  }

  /** `UpdateAsync` answers "not found" exactly for an unknown id; any failure keeps the store. */
  lemma UpdateNotFound(s: Store, id: int, dto: CreateCategoryDto, now: int)
    ensures var o := Update(s, id, dto, now);
      && (o.result.Err? && o.result.error.kind == KeyNotFound <==> id !in CategoryIds(s))
      && (id !in CategoryIds(s) ==> o.result == Err(NotFound("Category", id)))
      && (o.result.Err? ==> o.store == s)
  {
    GetByIdProps(s, id);
  }

  lemma ReplaceCategoryRows(s: Store, id: int, c: Category)
    requires id in CategoryIds(s) && c.id == id
    ensures var p := UpdatePending(s, id, c);
      && c in p.categories
      && (forall x | x in p.categories :: x == c || (x in s.categories && x.id != id))
      && (forall x | x in s.categories && x.id != id :: x in p.categories)
      && CategoryIds(p) == CategoryIds(s)
  {
    var p := UpdatePending(s, id, c);
    var k :| 0 <= k < |s.categories| && s.categories[k].id == id;
    assert p.categories[k] == c;
    forall x | x in s.categories && x.id != id ensures x in p.categories {
      var m :| 0 <= m < |s.categories| && s.categories[m] == x;
      assert p.categories[m] == x;
    }
    forall x | x in CategoryIds(s) ensures x in CategoryIds(p) {
      var m :| 0 <= m < |s.categories| && s.categories[m].id == x;
      assert p.categories[m].id == x;
    }
  }

  /** The edited names stay unique exactly when no other category has the new name. */
  lemma UpdateNamesUnique(s: Store, id: int, c: Category)
    requires UniqueBy(s.categories, CategoryKey) && UniqueBy(s.categories, CategoryName)
    requires id in CategoryIds(s) && c.id == id
    ensures UniqueBy(UpdatePending(s, id, c).categories, CategoryName) <==> !NameTaken(s, c.name, id)
  {
    var p := UpdatePending(s, id, c);
    ReplaceCategoryRows(s, id, c);
    if NameTaken(s, c.name, id) {
      var x :| x in s.categories && x.id != id && x.name == c.name;
      NotUniqueBy(p.categories, CategoryName, x, c);
    } else {
      var r := p.categories;
      forall i, j | 0 <= i < j < |r| ensures CategoryName(r[i]) != CategoryName(r[j]) {
        assert r[i] == ReplaceCategory(id, c)(s.categories[i]);
        assert r[j] == ReplaceCategory(id, c)(s.categories[j]);
        assert CategoryKey(s.categories[i]) != CategoryKey(s.categories[j]);
      }
    }
  }

  /** On a consistent store the edited category saves exactly when its new name is free and fits. */
  lemma UpdateValid(s: Store, id: int, c: Category)
    requires Valid(s) && id in CategoryIds(s) && c.id == id
    ensures Valid(UpdatePending(s, id, c)) <==> !NameTaken(s, c.name, id) && CategoryFits(c)
  {
    ReplaceCategoryRows(s, id, c);
    MapUnique(s.categories, ReplaceCategory(id, c), CategoryKey);
    UpdateNamesUnique(s, id, c);
  }

  /**
   * On a consistent store `UpdateAsync` succeeds exactly when the category
   * exists and the new name is free and fits; its answer is what
   * `GetByIdAsync` then shows, the new name with the category's active-job count.
   */
  lemma UpdateOutcome(s: Store, id: int, dto: CreateCategoryDto, now: int)
    requires Valid(s)
    ensures var o := Update(s, id, dto, now);
      && (o.result.Ok? <==> id in CategoryIds(s) && !NameTaken(s, dto.name, id) && |dto.name| <= 100)
      && (o.result.Ok? ==>
            && o.result.value.id == id && o.result.value.title == dto.name
            && o.result.value.count == ActiveJobCount(s, id)
            && GetById(o.store, id) == Some(o.result.value))
  {
    UpdateNotFound(s, id, dto, now);
    if id in CategoryIds(s) {
      var e := Edited(FindCategory(s, id).value, dto, now);
      UpdateValid(s, id, e);
      var p := UpdatePending(s, id, e);
      if Valid(p) {
        ReplaceCategoryRows(s, id, e);
        FindByUnique(p.categories, CategoryKey, e);
      }
    }
  }

  // -------------------------------------------------------------- delete

  /** `DeleteAsync`: the database refuses the delete while a job references the category. */
  function Delete(s: Store, id: int): Outcome<()> {
    match FindCategory(s, id)
    case None => Outcome(Err(NotFound("Category", id)), s)
    case Some(_) =>
      match Commit(DeleteCategory(s, id))
      case Ok(p) => Outcome(Ok(()), p)
      case Err(e) => Outcome(Err(e), s)
  }

  /**
   * On a consistent store `DeleteAsync` succeeds exactly for a known
   * category no job references; a referenced one fails at the save, an
   * unknown one is "not found", and a failure keeps the store.
   */
  lemma DeleteOutcome(s: Store, id: int)
    requires Valid(s)
    ensures var o := Delete(s, id);
      && (o.result.Ok? <==> id in CategoryIds(s) && forall j | j in s.jobs :: j.categoryId != id)
      && (o.result.Ok? ==> GetById(o.store, id).None?)
      && (id !in CategoryIds(s) ==> o.result == Err(NotFound("Category", id)))
      && (id in CategoryIds(s) && o.result.Err? ==> o.result.error.kind == DbUpdate)
      && (o.result.Err? ==> o.store == s)
  {
    GetByIdProps(s, id);
    if id in CategoryIds(s) {
      DeleteCategoryRestricted(s, id);
    }
  }

  // ------------------------------------------------ the service's methods

  /** `CreateAsync` against the unit of work. */
  method CreateAsync(uow: UnitOfWork, dto: CreateCategoryDto) returns (r: Result<CategoryDto, Exception>)
    modifies uow
    ensures r == Create(old(uow.store), dto).result
    ensures uow.store == Create(old(uow.store), dto).store
  {
    var s := uow.store;
    var category := NewCategory(dto, NextId(s.categories, CategoryKey));
    var saved := uow.SaveChanges(s.(categories := s.categories + [category]));
    if saved.Err? {
      return Err(saved.error);
    }
    r := Ok(ToDto(category, 0));
  }

  /** `UpdateAsync` against the unit of work: the count is taken after the save. */
  method UpdateAsync(uow: UnitOfWork, id: int, dto: CreateCategoryDto, now: int) returns (r: Result<CategoryDto, Exception>)
    modifies uow
    ensures r == Update(old(uow.store), id, dto, now).result
    ensures uow.store == Update(old(uow.store), id, dto, now).store
  {
    var s := uow.store;
    var found := FindCategory(s, id);
    if found.None? {
      return Err(NotFound("Category", id));
    }
    var category := Edited(found.value, dto, now);
    var saved := uow.SaveChanges(UpdatePending(s, id, category));
    if saved.Err? {
      return Err(saved.error);
    }
    var jobCount := ActiveJobCount(uow.store, id);
    r := Ok(ToDto(category, jobCount));
  }

  /** `DeleteAsync` against the unit of work. */
  method DeleteAsync(uow: UnitOfWork, id: int) returns (r: Result<(), Exception>)
    modifies uow
    ensures r == Delete(old(uow.store), id).result
    ensures uow.store == Delete(old(uow.store), id).store
  {
    var s := uow.store;
    if FindCategory(s, id).None? {
      return Err(NotFound("Category", id));
    }
    var saved := uow.SaveChanges(DeleteCategory(s, id));
    if saved.Err? {
      return Err(saved.error);
    }
    r := Ok(());
  }
}
