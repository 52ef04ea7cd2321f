/**
 * The add/edit link dialog: its form state, tag editing, and what submitting
 * the form hands to the page.
 */
module AddLinkDialog {
  import opened LinkTypes
  import opened Text

  /** At most this many tags can be added in the form. */
  const MaxTags: nat := 5

  /** The priority a new form starts with. */
  const DefaultPriority: int := 50

  /** The values the form holds. */
  datatype FormState = FormState(
    title: string,
    url: string,
    description: string,
    category: Category,
    priority: int,
    tags: seq<string>,
    tagInput: string,
    open: bool,
    isLoading: bool)

  /**
   * The form as it first appears: the edited link's values where it has them,
   * and otherwise empty text, the personal category and priority 50; a
   * priority of 0 also falls back to 50.
   */
  function InitialForm(editLink: Option<Link>): (f: FormState)
    ensures editLink.None? ==> f == EmptyForm
    ensures editLink.Some? ==>
      && f.title == editLink.value.title && f.url == editLink.value.url
      && f.category == editLink.value.category && f.tags == editLink.value.tags
      && f.description == (if editLink.value.description.Some? then editLink.value.description.value else "")
    ensures editLink.Some? && editLink.value.priority != 0 ==> f.priority == editLink.value.priority
    ensures f.priority == DefaultPriority <==> editLink.None? || editLink.value.priority in {0, DefaultPriority}
    ensures f.tagInput == "" && !f.open && !f.isLoading
  {
    match editLink
    case None => EmptyForm
    case Some(link) =>
      FormState(link.title, link.url,
        if link.description.Some? then link.description.value else "",
        link.category,
        if link.priority == 0 then DefaultPriority else link.priority,
        link.tags, "", false, false)
  }

  /** The form after a reset, and the form of a new link. */
  const EmptyForm := FormState("", "", "", Personal, DefaultPriority, [], "", false, false)

  /** A tag list the form's tag editing can produce: distinct, trimmed, non-empty tags, at most five. */
  predicate TagsWellFormed(tags: seq<string>)
  {
    && NoDuplicates(tags)
    && |tags| <= MaxTags
    && forall i :: 0 <= i < |tags| ==> tags[i] != "" && Trim(tags[i]) == tags[i]
  }

  /**
   * Adding the typed tag: a blank input, a tag already in the list or a full
   * list changes nothing; otherwise the trimmed input goes at the end of the
   * list and the input is cleared.
   */
  function AddTag(f: FormState): (r: FormState)
    ensures var tag := Trim(f.tagInput);
      if tag == "" || tag in f.tags || |f.tags| >= MaxTags then r == f
      else r == f.(tags := f.tags + [tag], tagInput := "")
  {
    var tag := Trim(f.tagInput);
    if tag != "" && tag !in f.tags && |f.tags| < MaxTags then
      f.(tags := f.tags + [tag], tagInput := "")
    else f
  }

  /** The tags other than `tag`, in their order. */
  function Without(tags: seq<string>, tag: string): (r: seq<string>)
    ensures IsSubsequence(r, tags)
    ensures forall t :: t in r <==> t in tags && t != tag
    ensures forall t :: multiset(r)[t] == if t != tag then multiset(tags)[t] else 0
  {
    if tags == [] then []
    else
      var rest := Without(tags[1..], tag);
      assert tags == [tags[0]] + tags[1..];
      if tags[0] != tag then
        assert ([tags[0]] + rest)[1..] == rest;
        [tags[0]] + rest
      else
        SubsequenceOfTail(rest, tags);
        rest
  }

  /** Removing a tag: every occurrence leaves the list, the others keep their order. */
  function RemoveTag(f: FormState, tag: string): (r: FormState)
    ensures r.tags == Without(f.tags, tag)
    ensures tag !in r.tags
    ensures r.(tags := f.tags) == f
  {
    f.(tags := Without(f.tags, tag))
  }

  /** Appending a new, trimmed, non-empty tag to a list of fewer than five keeps it well formed. */
  lemma AppendKeepsWellFormed(tags: seq<string>, tag: string)
    requires TagsWellFormed(tags) && |tags| < MaxTags
    requires tag != "" && Trim(tag) == tag && tag !in tags
    ensures TagsWellFormed(tags + [tag])
  {
    var r := tags + [tag];
    AppendNoDuplicates(tags, tag);
    forall i | 0 <= i < |r| ensures r[i] != "" && Trim(r[i]) == r[i] {
      if i < |tags| {
        assert r[i] == tags[i];
      }
    }
  }

  /** Adding a tag keeps the tag list well formed. */
  lemma AddTagKeepsWellFormed(f: FormState)
    requires TagsWellFormed(f.tags)
    ensures TagsWellFormed(AddTag(f).tags)
  {
    var tag := Trim(f.tagInput);
    if tag != "" && tag !in f.tags && |f.tags| < MaxTags {
      TrimIdempotent(f.tagInput);
      AppendKeepsWellFormed(f.tags, tag);
    }
  }

  /** Removing a tag keeps the tag list well formed. */
  lemma WithoutKeepsWellFormed(tags: seq<string>, tag: string)
    requires TagsWellFormed(tags)
    ensures TagsWellFormed(Without(tags, tag))
  {
    var r := Without(tags, tag);
    SubsequenceNoDuplicates(r, tags);
    SubsequenceMembers(r, tags);
    forall i | 0 <= i < |r| ensures r[i] != "" && Trim(r[i]) == r[i] {
      assert r[i] in tags;
    }
  }

  /** One edit of the tag list: typing a tag and adding it, or removing a tag. */
  datatype TagEdit = Type(input: string) | Remove(tag: string)

  /** The form after a series of tag edits. */
  function ApplyTagEdits(f: FormState, edits: seq<TagEdit>): FormState
    decreases |edits|
  {
    if edits == [] then f
    else
      var next := match edits[0]
        case Type(input) => AddTag(f.(tagInput := input))
        case Remove(tag) => RemoveTag(f, tag);
      ApplyTagEdits(next, edits[1..])
  }

  /**
   * Starting from a well-formed tag list (the empty list of a new link, for
   * one), any series of tag edits keeps it distinct, trimmed, non-empty and at
   * most five long.
   */
  lemma {:induction false} TagEditsKeepWellFormed(f: FormState, edits: seq<TagEdit>)
    requires TagsWellFormed(f.tags)
    ensures TagsWellFormed(ApplyTagEdits(f, edits).tags)
    decreases |edits|
  {
    if edits != [] {
      match edits[0]
      case Type(input) =>
        AddTagKeepsWellFormed(f.(tagInput := input));
        TagEditsKeepWellFormed(AddTag(f.(tagInput := input)), edits[1..]);
      case Remove(tag) =>
        WithoutKeepsWellFormed(f.tags, tag);
        TagEditsKeepWellFormed(RemoveTag(f, tag), edits[1..]);
    }
  }

  /** A new link's tag list stays well formed under any tag edits. */
  lemma NewLinkTagsWellFormed(edits: seq<TagEdit>)
    ensures TagsWellFormed(ApplyTagEdits(InitialForm(None), edits).tags)
  {
    TagEditsKeepWellFormed(EmptyForm, edits);
  }

  /**
   * The tags that are not blank, in their order, as typed and with their
   * repetitions; a tag is blank exactly when its trimmed text is empty
   * (`BlankIsTrimmedEmpty`).
   */
  function NonBlank(tags: seq<string>): (r: seq<string>)
    ensures IsSubsequence(r, tags)
    ensures forall t :: t in r <==> t in tags && !IsBlank(t)
    ensures forall t :: multiset(r)[t] == if IsBlank(t) then 0 else multiset(tags)[t]
  {
    if tags == [] then []
    else
      var rest := NonBlank(tags[1..]);
      assert tags == [tags[0]] + tags[1..];
      if IsBlank(tags[0]) then
        SubsequenceOfTail(rest, tags);
        rest
      else
        assert ([tags[0]] + rest)[1..] == rest;
        [tags[0]] + rest
  }

  /** A list with no blank tag is kept whole. */
  lemma {:induction false} NonBlankKeepsWellFormed(tags: seq<string>)
    requires forall i :: 0 <= i < |tags| ==> !IsBlank(tags[i])
    ensures NonBlank(tags) == tags
  {
    if tags != [] {
      NonBlankKeepsWellFormed(tags[1..]);
    }
  }

  /** The favicon address the dialog builds from the url's host name. */
  function Favicon(hostname: string): string
  {
    "https://www.google.com/s2/favicons?domain=" + hostname + "&sz=32"
  }

  /**
   * The link data a submit hands over: trimmed title, url and description, the
   * non-blank tags, the favicon for the host, and the edited link's last visit
   * and folder.
   */
  function ShapeData(f: FormState, editLink: Option<Link>, hostname: string): (data: LinkData)
    ensures data.title == Trim(f.title) && data.url == Trim(f.url)
    ensures data.description == Some(Trim(f.description))
    ensures data.category == f.category && data.priority == f.priority
    ensures data.favicon == Some(Favicon(hostname))
    ensures IsSubsequence(data.tags, f.tags)
    ensures forall t :: multiset(data.tags)[t] == if IsBlank(t) then 0 else multiset(f.tags)[t]
    ensures data.lastVisited == (if editLink.Some? then editLink.value.lastVisited else None)
    ensures data.folderId == (if editLink.Some? then editLink.value.folderId else None)
  {
    LinkData(Trim(f.title), Trim(f.url), Some(Trim(f.description)), f.category, f.priority,
      Some(Favicon(hostname)), NonBlank(f.tags),
      if editLink.Some? then editLink.value.lastVisited else None,
      if editLink.Some? then editLink.value.folderId else None)
  }

  /** The text is empty once trimmed: every character is white space. */
  predicate IsBlank(s: string)
  {
    forall i :: 0 <= i < |s| ==> IsSpace(s[i])
  }

  /** A string is blank exactly when trimming it leaves nothing. */
  lemma BlankIsTrimmedEmpty(s: string)
    ensures IsBlank(s) <==> Trim(s) == ""
  {
  }

  /** What a submit hands to the page. */
  datatype Outcome =
    | NotSubmitted          // title or url blank
    | UrlRejected           // the url could not be parsed; the form stays loading
    | Added(data: LinkData)
    | Edited(link: Link)

  /** The form after a submit, and what it handed over. */
  datatype SubmitResult = SubmitResult(form: FormState, outcome: Outcome)

  /**
   * Submitting the form. `hostname` is the host name the browser's URL parser
   * finds in the url, or None when it rejects the url.
   */
  function Submit(f: FormState, editLink: Option<Link>, hasEditHandler: bool, hostname: Option<string>): (r: SubmitResult)
    ensures r.outcome == NotSubmitted <==> IsBlank(f.title) || IsBlank(f.url)
    ensures r.outcome == NotSubmitted ==> r.form == f
    ensures r.outcome == UrlRejected <==> !IsBlank(f.title) && !IsBlank(f.url) && hostname.None?
    ensures r.outcome == UrlRejected ==> r.form == f.(isLoading := true)
    ensures r.outcome.Added? || r.outcome.Edited? ==> r.form == EmptyForm
    ensures r.outcome.Edited? <==> r.outcome != NotSubmitted && hostname.Some? && editLink.Some? && hasEditHandler
    ensures hostname.Some? && r.outcome.Added? ==> r.outcome.data == ShapeData(f, editLink, hostname.value)
    ensures hostname.Some? && r.outcome.Edited? ==>
      && r.outcome.link.id == editLink.value.id
      && r.outcome.link.createdAt == editLink.value.createdAt
      && Strip(r.outcome.link) == ShapeData(f, editLink, hostname.value)
  {
    if IsBlank(f.title) || IsBlank(f.url) then SubmitResult(f, NotSubmitted)
    else if hostname.None? then SubmitResult(f.(isLoading := true), UrlRejected)
    else
      var data := ShapeData(f, editLink, hostname.value);
      var outcome :=
        if editLink.Some? && hasEditHandler then Edited(WithIdentity(data, editLink.value.id, editLink.value.createdAt))
        else Added(data);
      SubmitResult(EmptyForm, outcome)
  }

  /** The submitted title and url, of a new link or an edited one, are never blank and carry no surrounding white space. */
  lemma SubmittedTextIsClean(f: FormState, editLink: Option<Link>, hasEditHandler: bool, hostname: Option<string>)
    requires Submit(f, editLink, hasEditHandler, hostname).outcome.Added? || Submit(f, editLink, hasEditHandler, hostname).outcome.Edited?
    ensures var outcome := Submit(f, editLink, hasEditHandler, hostname).outcome;
      var data := if outcome.Added? then outcome.data else Strip(outcome.link);
      && data.title != "" && Trim(data.title) == data.title
      && data.url != "" && Trim(data.url) == data.url
  {
    var outcome := Submit(f, editLink, hasEditHandler, hostname).outcome;
    assert hostname.Some? && !IsBlank(f.title) && !IsBlank(f.url);
    var data := ShapeData(f, editLink, hostname.value);
    assert data == if outcome.Added? then outcome.data else Strip(outcome.link);
    BlankIsTrimmedEmpty(f.title);
    BlankIsTrimmedEmpty(f.url);
    TrimIdempotent(f.title);
    TrimIdempotent(f.url);
  }

  /** A link whose fields are already what the form would produce. */
  predicate IsClean(link: Link, hostname: string)
  {
    && link.title != "" && Trim(link.title) == link.title
    && link.url != "" && Trim(link.url) == link.url
    && link.description.Some? && Trim(link.description.value) == link.description.value
    && link.priority != 0
    && link.favicon == Some(Favicon(hostname))
    && forall i :: 0 <= i < |link.tags| ==> !IsBlank(link.tags[i])
  }

  /** The editor's initial form for a clean link passes validation and shapes back into the link's own data. */
  lemma InitialFormShapesBack(link: Link, hostname: string)
    requires IsClean(link, hostname)
    ensures var f := InitialForm(Some(link));
      !IsBlank(f.title) && !IsBlank(f.url) && ShapeData(f, Some(link), hostname) == Strip(link)
  {
    var f := InitialForm(Some(link));
    assert f.title == link.title && f.url == link.url && f.priority == link.priority;
    assert f.description == link.description.value && f.tags == link.tags;
    BlankIsTrimmedEmpty(link.title);
    BlankIsTrimmedEmpty(link.url);
    NonBlankKeepsWellFormed(link.tags);
  }

  /** A link is determined by its id, its creation time and its other fields. */
  lemma StripDetermines(a: Link, b: Link)
    requires Strip(a) == Strip(b) && a.id == b.id && a.createdAt == b.createdAt
    ensures a == b
  {
  }

  /** Opening a clean link in the editor and saving it without changes gives the same link back. */
  lemma SaveUnchangedIsIdentity(link: Link, hostname: string)
    requires IsClean(link, hostname)
    ensures Submit(InitialForm(Some(link)), Some(link), true, Some(hostname)).outcome == Edited(link)
  {
    InitialFormShapesBack(link, hostname);
    var r := Submit(InitialForm(Some(link)), Some(link), true, Some(hostname));
    assert r.outcome.Edited?;
    StripDetermines(r.outcome.link, link);
  }

  /** The label and colour class of the dialog's priority readout. */
  datatype LevelStyle = LevelStyle(name: string, color: string)

  /** The dialog's priority readout: High from 80, Medium from 40, Low below. */
  function GetPriorityLevel(value: int): (level: LevelStyle)
    ensures level.name == "High" <==> value >= 80
    ensures level.name == "Medium" <==> 40 <= value < 80
    ensures level.name == "Low" <==> value < 40
  {
    if value >= 80 then LevelStyle("High", "bg-priority-high")
    else if value >= 40 then LevelStyle("Medium", "bg-priority-medium")
    else LevelStyle("Low", "bg-priority-low")
  }

  /** The dialog's form, updated in place by its handlers. */
  class Dialog {
    var title: string
    var url: string
    var description: string
    var category: Category
    var priority: int
    var tags: seq<string>
    var tagInput: string
    var open: bool
    var isLoading: bool
    /** The link being edited, if the dialog edits one. */
    const editLink: Option<Link>
    /** Whether the page passed an edit handler. */
    const hasEditHandler: bool

    /** The form's current values. */
    function Form(): FormState
      reads this
    {
      FormState(title, url, description, category, priority, tags, tagInput, open, isLoading)
    }

    /** A dialog for a new link (`editLink` None) or for editing `editLink`. */
    constructor (editLink: Option<Link>, hasEditHandler: bool)
      ensures Form() == InitialForm(editLink)
      ensures this.editLink == editLink && this.hasEditHandler == hasEditHandler
    {
      var f := InitialForm(editLink);
      this.editLink := editLink;
      this.hasEditHandler := hasEditHandler;
      title := f.title;
      url := f.url;
      description := f.description;
      category := f.category;
      priority := f.priority;
      tags := f.tags;
      tagInput := "";
      open := false;
      isLoading := false;
    }

    /** The tag input's add button or Enter key. */
    method HandleAddTag()
      modifies this
      ensures Form() == AddTag(old(Form()))
    {
      ghost var before := Form();
      var tag := Trim(tagInput);
      if tag != "" && tag !in tags && |tags| < MaxTags {
        tags := tags + [tag];
        tagInput := "";
        assert Form() == before.(tags := before.tags + [tag], tagInput := "");
      }
    }

    /** A tag badge's remove button. */
    method HandleRemoveTag(tag: string)
      modifies this
      ensures Form() == RemoveTag(old(Form()), tag)
    {
      tags := Without(tags, tag);
    }

    /** The form's submit; `hostname` is what the URL parser makes of the url, if anything. */
    method HandleSubmit(hostname: Option<string>) returns (outcome: Outcome)
      modifies this
      ensures var r := Submit(old(Form()), editLink, hasEditHandler, hostname);
        Form() == r.form && outcome == r.outcome
    {
      if IsBlank(title) || IsBlank(url) {
        return NotSubmitted;
      }
      if hostname.None? {
        isLoading := true;
        return UrlRejected;
      }
      var data := ShapeData(Form(), editLink, hostname.value);
      if editLink.Some? && hasEditHandler {
        outcome := Edited(WithIdentity(data, editLink.value.id, editLink.value.createdAt));
      } else {
        outcome := Added(data);
      }
      Load(EmptyForm);
    }

    /** Puts every field of `f` into the form. */
    method Load(f: FormState)
      modifies this
      ensures Form() == f
    {
      title, url, description, category, priority := f.title, f.url, f.description, f.category, f.priority;
      tags, tagInput, open, isLoading := f.tags, f.tagInput, f.open, f.isLoading;
    }
  }
}
