/** The link manager's record types: the eight link categories and the link record itself. */
module LinkTypes {

  /** An optional value, for the record fields the source marks with `?`. */
  datatype Option<+T> = None | Some(value: T)

  /** The eight categories a link can belong to. */
  datatype Category = Social | Work | Entertainment | News | Tools | Shopping | Education | Personal

  /** The category's name as the source spells it. */
  function CategoryName(c: Category): (name: string)
    ensures |name| > 0
  {
    match c
    case Social => "social"
    case Work => "work"
    case Entertainment => "entertainment"
    case News => "news"
    case Tools => "tools"
    case Shopping => "shopping"
    case Education => "education"
    case Personal => "personal"
  }

  /** A point in time, as milliseconds since the epoch. */
  type Timestamp = int

  /**
   * A saved link. `priority` is meant to lie in 0..100; the record does not
   * enforce that, and neither does this model.
   */
  datatype Link = Link(
    id: string,
    title: string,
    url: string,
    description: Option<string>,
    category: Category,
    priority: int,
    favicon: Option<string>,
    tags: seq<string>,
    createdAt: Timestamp,
    lastVisited: Option<Timestamp>,
    folderId: Option<string>)

  /** What the add/edit form hands over: a link without its id and creation time. */
  datatype LinkData = LinkData(
    title: string,
    url: string,
    description: Option<string>,
    category: Category,
    priority: int,
    favicon: Option<string>,
    tags: seq<string>,
    lastVisited: Option<Timestamp>,
    folderId: Option<string>)

  /** Completes form data into a link with the given id and creation time. */
  function WithIdentity(data: LinkData, id: string, createdAt: Timestamp): (link: Link)
    ensures link.id == id && link.createdAt == createdAt
    ensures Strip(link) == data
  {
    Link(id, data.title, data.url, data.description, data.category, data.priority,
         data.favicon, data.tags, createdAt, data.lastVisited, data.folderId)
  }

  /** The link's fields other than its id and creation time. */
  function Strip(link: Link): LinkData
  {
    LinkData(link.title, link.url, link.description, link.category, link.priority,
             link.favicon, link.tags, link.lastVisited, link.folderId)
  }

  /** The ids of a list of links, in order. */
  function Ids(links: seq<Link>): (ids: seq<string>)
    ensures |ids| == |links|
    ensures forall i :: 0 <= i < |links| ==> ids[i] == links[i].id
  {
    if links == [] then [] else Ids(links[..|links| - 1]) + [links[|links| - 1].id]
  }

  /** `sub` is `s` with some elements left out and the others kept in their order. */
  predicate IsSubsequence<T(==)>(sub: seq<T>, s: seq<T>)
  {
    if sub == [] then true
    else if s == [] then false
    else if sub[0] == s[0] then IsSubsequence(sub[1..], s[1..])
    else IsSubsequence(sub, s[1..])
  }

  /** No value occurs twice. */
  predicate NoDuplicates<T(==)>(s: seq<T>)
  {
    forall i, j :: 0 <= i < j < |s| ==> s[i] != s[j]
  }

  /** Every element of a subsequence is an element of the sequence. */
  lemma {:induction false} SubsequenceMembers<T>(sub: seq<T>, s: seq<T>)
    requires IsSubsequence(sub, s)
    ensures forall x :: x in sub ==> x in s
    ensures |sub| <= |s|
  {
    if sub != [] && s != [] {
      if sub[0] == s[0] {
        SubsequenceMembers(sub[1..], s[1..]);
        assert sub == [sub[0]] + sub[1..];
      } else {
        SubsequenceMembers(sub, s[1..]);
      }
      assert s == [s[0]] + s[1..];
    }
  }

  /** Dropping the head of a sequence keeps every subsequence of the rest a subsequence. */
  lemma {:induction false} SubsequenceOfTail<T>(sub: seq<T>, s: seq<T>)
    requires s != [] && IsSubsequence(sub, s[1..])
    ensures IsSubsequence(sub, s)
  {
    if sub != [] && sub[0] == s[0] {
      var t := s[1..];
      if sub[0] == t[0] {
        SubsequenceOfTail(sub[1..], t);
      } else {
        SubsequenceOfTail(sub, t);
        SubsequenceDropHead(sub, t);
      }
    }
  }

  /** A subsequence stays one when its head is dropped. */
  lemma {:induction false} SubsequenceDropHead<T>(sub: seq<T>, s: seq<T>)
    requires sub != [] && IsSubsequence(sub, s)
    ensures IsSubsequence(sub[1..], s)
  {
    if sub[0] == s[0] {
      if sub[1..] != [] {
        SubsequenceOfTail(sub[1..], s);
      }
    } else {
      SubsequenceDropHead(sub, s[1..]);
      SubsequenceOfTail(sub[1..], s);
    }
  }

  /** A subsequence of a sequence without duplicates has none either. */
  lemma {:induction false} SubsequenceNoDuplicates<T>(sub: seq<T>, s: seq<T>)
    requires IsSubsequence(sub, s) && NoDuplicates(s)
    ensures NoDuplicates(sub)
  {
    if sub != [] {
      var tail := s[1..];
      assert NoDuplicates(tail) by {
        forall i, j | 0 <= i < j < |tail| ensures tail[i] != tail[j] {
          assert tail[i] == s[i + 1] && tail[j] == s[j + 1];
        }
      }
      if sub[0] == s[0] {
        SubsequenceNoDuplicates(sub[1..], tail);
        SubsequenceMembers(sub[1..], tail);
        assert s[0] !in tail by {
          forall j | 0 <= j < |tail| ensures tail[j] != s[0] {
            assert tail[j] == s[j + 1];
          }
        }
        forall i, j | 0 <= i < j < |sub| ensures sub[i] != sub[j] {
          assert sub[j] == sub[1..][j - 1];
          if i > 0 {
            assert sub[i] == sub[1..][i - 1];
          } else {
            assert sub[j] in tail;
          }
        }
      } else {
        SubsequenceNoDuplicates(sub, tail);
      }
    }
  }

  /** Appending a new value to a sequence without duplicates keeps it so. */
  lemma AppendNoDuplicates<T>(s: seq<T>, x: T)
    requires NoDuplicates(s) && x !in s
    ensures NoDuplicates(s + [x])
  {
    var r := s + [x];
    forall i, j | 0 <= i < j < |r| ensures r[i] != r[j] {
      if j == |s| {
        assert r[i] == s[i];
      } else {
        assert r[i] == s[i] && r[j] == s[j];
      }
    }
  }
}
