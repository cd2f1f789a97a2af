/**
 * `TagRepository`: the case-insensitive lookup by name and the tags used
 * by the most jobs.
 */
module TagRepository {
  import opened Wrappers
  import opened Text
  import opened Seqs
  import opened Entities
  import opened DbContext

  function SameNameIgnoringCase(name: string): Tag -> bool {
    (t: Tag) => Lower(t.name) == Lower(name)
  }

  /** `GetByNameAsync`: the first tag whose lower-cased name is the lower-cased argument. */
  function TagByName(s: Store, name: string): Option<Tag> {
    FirstWhere(s.tags, SameNameIgnoringCase(name))
  }

  /** A tag is found only when its name matches ignoring case, and nothing is found iff no tag matches. */
  lemma TagByNameProps(s: Store, name: string)
    ensures TagByName(s, name).Some? ==>
      TagByName(s, name).value in s.tags && Lower(TagByName(s, name).value.name) == Lower(name)
    ensures TagByName(s, name).None? <==> forall t | t in s.tags :: Lower(t.name) != Lower(name)
  {
    if TagByName(s, name).None? {
      forall t | t in s.tags ensures Lower(t.name) != Lower(name) {
        var i :| 0 <= i < |s.tags| && s.tags[i] == t;
        assert !SameNameIgnoringCase(name)(s.tags[i]);
      }
    } else {
      assert SameNameIgnoringCase(name)(TagByName(s, name).value);
    }
  }

  /** A stored tag is always found under its own name, though possibly as another tag differing only in case. */
  lemma TagByOwnName(s: Store, t: Tag)
    requires t in s.tags
    ensures TagByName(s, t.name).Some?
    ensures Lower(TagByName(s, t.name).value.name) == Lower(t.name)
  {
    TagByNameProps(s, t.name);
  }

  // --------------------------------------------------------- popularity

  datatype LoadedTag = LoadedTag(tag: Tag, jobTags: seq<JobTag>)

  function LinksOfTag(tagId: int): JobTag -> bool { (jt: JobTag) => jt.tagId == tagId }

  /** `Include(t => t.JobTags)`. */
  function WithLinks(s: Store): Tag -> LoadedTag {
    (t: Tag) => LoadedTag(t, Filter(s.jobTags, LinksOfTag(t.id)))
  }

  /** `OrderByDescending(t => t.JobTags.Count)`. */
  function MoreLinks(a: LoadedTag, b: LoadedTag): bool {
    |a.jobTags| >= |b.jobTags|
  }

  /** `GetPopularTagsAsync`. */
  function PopularTags(s: Store, count: int): seq<LoadedTag> {
    Take(SortBy(Map(s.tags, WithLinks(s)), MoreLinks), count)
  }

  /**
   * At most `count` stored tags, each with exactly its links, in
   * non-increasing number of links.
   */
  lemma PopularTagsProps(s: Store, count: int)
    ensures var r := PopularTags(s, count);
      var loaded := Map(s.tags, WithLinks(s));
      && |r| == (if count <= 0 then 0 else if count < |s.tags| then count else |s.tags|)
      && multiset(r) <= multiset(loaded)
      && (forall v | v in r :: v.tag in s.tags && v.jobTags == Filter(s.jobTags, LinksOfTag(v.tag.id)))
      && SortedBy(r, MoreLinks)
      && (forall x, y | x in multiset(loaded) - multiset(r) && y in r :: MoreLinks(y, x))
  {
    var loaded := Map(s.tags, WithLinks(s));
    assert TotalPreorder(MoreLinks);
    TopOf(loaded, MoreLinks, count);
    PopularTagsLoaded(s, count);
  }

  /** Each popular tag is a stored tag loaded with exactly its links. */
  lemma PopularTagsLoaded(s: Store, count: int)
    ensures forall v | v in PopularTags(s, count) :: v.tag in s.tags && v.jobTags == Filter(s.jobTags, LinksOfTag(v.tag.id))
  {
    var loaded := Map(s.tags, WithLinks(s));
    var o := SortBy(loaded, MoreLinks);
    forall v | v in PopularTags(s, count)
      ensures v.tag in s.tags && v.jobTags == Filter(s.jobTags, LinksOfTag(v.tag.id))
    {
      var k :| 0 <= k < |PopularTags(s, count)| && PopularTags(s, count)[k] == v;
      assert v == o[k];
      assert v in multiset(o);
      var i :| 0 <= i < |loaded| && loaded[i] == v;
    }
  }
}
