/**
 * The link manager page: its state, the search-and-category filter over the
 * link list, and adding, editing and deleting links.
 */
module LinkManager {
  import opened LinkTypes
  import opened Text

  /** The page's state: the shared state record plus the link being edited, if any. */
  datatype PageState = PageState(
    links: seq<Link>,
    globalPriority: int,
    searchQuery: string,
    selectedCategory: Option<Category>,
    editingLink: Option<Link>)

  /** Some tag of the link contains `query` (both lower-cased). */
  predicate SomeTagIncludes(tags: seq<string>, query: string)
  {
    exists i :: 0 <= i < |tags| && Includes(ToLower(tags[i]), ToLower(query))
  }

  /** The lower-cased query occurs in the lower-cased title, url, description (when present) or a tag. */
  predicate MatchesQuery(link: Link, query: string)
  {
    var q := ToLower(query);
    || Includes(ToLower(link.title), q)
    || Includes(ToLower(link.url), q)
    || (link.description.Some? && Includes(ToLower(link.description.value), q))
    || SomeTagIncludes(link.tags, query)
  }

  /** The filter's test for one link: the selected category first, then the query when it is non-empty. */
  predicate KeepLink(link: Link, query: string, category: Option<Category>)
  {
    if category.Some? && link.category != category.value then false
    else if query != "" then MatchesQuery(link, query)
    else true
  }

  /**
   * The links shown: those passing the filter, in their original order. With
   * a category selected, every link shown has that category.
   */
  function FilterLinks(links: seq<Link>, query: string, category: Option<Category>): (shown: seq<Link>)
    ensures IsSubsequence(shown, links)
    ensures forall l :: l in shown ==> KeepLink(l, query, category)
    ensures category.Some? ==> forall l :: l in shown ==> l.category == category.value
    ensures forall l :: multiset(shown)[l] == if KeepLink(l, query, category) then multiset(links)[l] else 0
  {
    if links == [] then []
    else
      var rest := FilterLinks(links[1..], query, category);
      assert links == [links[0]] + links[1..];
      if KeepLink(links[0], query, category) then
        assert ([links[0]] + rest)[1..] == rest;
        [links[0]] + rest
      else
        SubsequenceOfTail(rest, links);
        rest
  }

  /** A link is shown exactly when it is in the list and passes the filter. */
  lemma {:induction false} FilterLinksMembership(links: seq<Link>, query: string, category: Option<Category>, l: Link)
    ensures l in FilterLinks(links, query, category) <==> l in links && KeepLink(l, query, category)
  {
    if links != [] {
      FilterLinksMembership(links[1..], query, category, l);
      assert links == [links[0]] + links[1..];
    }
  }

  /** With no category selected and an empty query, every link is shown. */
  lemma {:induction false} NoFilterShowsAll(links: seq<Link>)
    ensures FilterLinks(links, "", None) == links
  {
    if links != [] {
      NoFilterShowsAll(links[1..]);
      assert links == [links[0]] + links[1..];
    }
  }

  /**
   * With a non-empty query, a link of the selected category (or any link when
   * none is selected) is shown exactly when the lower-cased query occurs in its
   * lower-cased title, url, description or one of its tags.
   */
  lemma QuerySelectsMatches(links: seq<Link>, query: string, category: Option<Category>, l: Link)
    requires query != [] && l in links
    requires category.None? || l.category == category.value
    ensures l in FilterLinks(links, query, category) <==>
      || Includes(ToLower(l.title), ToLower(query))
      || Includes(ToLower(l.url), ToLower(query))
      || (l.description.Some? && Includes(ToLower(l.description.value), ToLower(query)))
      || (exists i :: 0 <= i < |l.tags| && Includes(ToLower(l.tags[i]), ToLower(query)))
  {
    FilterLinksMembership(links, query, category, l);
  }

  /** Filtering the filtered list again with the same query and category changes nothing. */
  lemma {:induction false} FilterIdempotent(links: seq<Link>, query: string, category: Option<Category>)
    ensures FilterLinks(FilterLinks(links, query, category), query, category) == FilterLinks(links, query, category)
  {
    if links != [] {
      FilterIdempotent(links[1..], query, category);
      var rest := FilterLinks(links[1..], query, category);
      if KeepLink(links[0], query, category) {
        assert ([links[0]] + rest)[1..] == rest;
      }
    }
  }

  /**
   * Adding a link: the form data becomes a link whose id is the clock reading
   * in decimal and whose creation time is `now`; it goes after every existing link.
   */
  function HandleAddLink(s: PageState, data: LinkData, clock: nat, now: Timestamp): (r: PageState)
    ensures |r.links| == |s.links| + 1 && r.links[..|s.links|] == s.links
    ensures var added := r.links[|s.links|];
      added.id == Decimal(clock) && added.createdAt == now && Strip(added) == data
    ensures r.(links := s.links) == s
  {
    s.(links := s.links + [WithIdentity(data, Decimal(clock), now)])
  }

  /** Every link whose id is the updated link's id, replaced by it. */
  function ReplaceById(links: seq<Link>, updated: Link): (r: seq<Link>)
    ensures |r| == |links|
    ensures forall i :: 0 <= i < |links| ==> r[i] == (if links[i].id == updated.id then updated else links[i])
  {
    if links == [] then []
    else [if links[0].id == updated.id then updated else links[0]] + ReplaceById(links[1..], updated)
  }

  /** Saving an edit: links with the updated id are replaced, and the page leaves edit mode. */
  function HandleEditLink(s: PageState, updated: Link): (r: PageState)
    ensures r.links == ReplaceById(s.links, updated) && r.editingLink.None?
    ensures r.(links := s.links, editingLink := s.editingLink) == s
  {
    s.(links := ReplaceById(s.links, updated), editingLink := None)
  }

  /**
   * Saving an edit keeps the list's length and every other link, puts the
   * updated link wherever its id was, and leaves edit mode; saving it again
   * changes nothing more.
   */
  lemma EditReplacesOnlyThatId(s: PageState, updated: Link)
    ensures var r := HandleEditLink(s, updated);
      && |r.links| == |s.links|
      && (forall i :: 0 <= i < |s.links| && s.links[i].id != updated.id ==> r.links[i] == s.links[i])
      && (forall i :: 0 <= i < |s.links| && s.links[i].id == updated.id ==> r.links[i] == updated)
      && r.editingLink.None?
      && HandleEditLink(r, updated) == r
  {
    var r := HandleEditLink(s, updated);
    assert HandleEditLink(r, updated).links == r.links;
  }

  /** Saving an edit for an id that is not in the list leaves the list as it was. */
  lemma EditOfMissingIdKeepsLinks(s: PageState, updated: Link)
    requires updated.id !in Ids(s.links)
    ensures HandleEditLink(s, updated).links == s.links
  {
    var r := HandleEditLink(s, updated);
    forall i | 0 <= i < |s.links| ensures r.links[i] == s.links[i] {
      assert Ids(s.links)[i] == s.links[i].id;
    }
  }

  /** The links whose id differs from `id`, in their original order. */
  function RemoveById(links: seq<Link>, id: string): (r: seq<Link>)
    ensures IsSubsequence(r, links)
    ensures forall l :: l in r <==> l in links && l.id != id
  {
    if links == [] then []
    else
      var rest := RemoveById(links[1..], id);
      assert links == [links[0]] + links[1..];
      if links[0].id != id then
        assert ([links[0]] + rest)[1..] == rest;
        [links[0]] + rest
      else
        SubsequenceOfTail(rest, links);
        rest
  }

  /**
   * Removing by id keeps every link with another id exactly as often as the
   * list has it, and keeps no link with that id.
   */
  lemma {:induction false} RemoveByIdCounts(links: seq<Link>, id: string)
    ensures forall l :: multiset(RemoveById(links, id))[l] == if l.id != id then multiset(links)[l] else 0
  {
    if links != [] {
      RemoveByIdCounts(links[1..], id);
      assert links == [links[0]] + links[1..];
    }
  }

  /** Deleting a link: every link with that id leaves the list; the rest keep their order. */
  function HandleDeleteLink(s: PageState, id: string): (r: PageState)
    ensures r.links == RemoveById(s.links, id)
    ensures id !in Ids(r.links)
    ensures r.(links := s.links) == s
  {
    var links := RemoveById(s.links, id);
    assert forall i :: 0 <= i < |links| ==> Ids(links)[i] != id by {
      forall i | 0 <= i < |links| ensures Ids(links)[i] != id {
        assert links[i] in links;
      }
    }
    s.(links := links)
  }

  /** Deleting the same id twice is the same as deleting it once. */
  lemma {:induction false} DeleteIdempotent(links: seq<Link>, id: string)
    ensures RemoveById(RemoveById(links, id), id) == RemoveById(links, id)
  {
    if links != [] {
      DeleteIdempotent(links[1..], id);
      var rest := RemoveById(links[1..], id);
      if links[0].id != id {
        assert ([links[0]] + rest)[1..] == rest;
      }
    }
  }

  /** Removing an id that no link has keeps the list as it was. */
  lemma {:induction false} RemoveMissingId(links: seq<Link>, id: string)
    requires id !in Ids(links)
    ensures RemoveById(links, id) == links
  {
    if links != [] {
      assert Ids(links)[0] == links[0].id;
      assert id !in Ids(links[1..]) by {
        forall i | 0 <= i < |links| - 1 ensures Ids(links[1..])[i] != id {
          assert Ids(links[1..])[i] == Ids(links)[i + 1];
        }
      }
      RemoveMissingId(links[1..], id);
      assert links == [links[0]] + links[1..];
    }
  }

  /** Removing by id distributes over appending. */
  lemma {:induction false} RemoveAppend(links: seq<Link>, extra: Link, id: string)
    ensures RemoveById(links + [extra], id) == RemoveById(links, id) + RemoveById([extra], id)
  {
    if links != [] {
      assert (links + [extra])[1..] == links[1..] + [extra];
      RemoveAppend(links[1..], extra, id);
    } else {
      assert links + [extra] == [extra];
    }
  }

  /** Adding a link under a fresh id and then deleting that id restores the list. */
  lemma AddThenDeleteRestores(s: PageState, data: LinkData, clock: nat, now: Timestamp)
    requires Decimal(clock) !in Ids(s.links)
    ensures HandleDeleteLink(HandleAddLink(s, data, clock, now), Decimal(clock)) == s
  {
    var added := WithIdentity(data, Decimal(clock), now);
    RemoveAppend(s.links, added, Decimal(clock));
    RemoveMissingId(s.links, Decimal(clock));
    assert RemoveById([added], Decimal(clock)) == [];
  }
}
