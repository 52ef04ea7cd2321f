/**
 * The display rules of a link card: its size class, priority dot colour,
 * category gradient, and how much of the description and tags it shows.
 */
module LinkCard {
  import opened LinkTypes

  /** The eleven card size classes. */
  datatype CardSize =
    | Hero | Feature | WideLarge | Tall | Large | SquareLarge | Wide
    | MediumWide | MediumTall | Medium | Small

  /** The CSS class of a card size. */
  function SizeClass(size: CardSize): (name: string)
    ensures |name| > 5 && name[..5] == "card-"
  {
    match size
    case Hero => "card-hero"
    case Feature => "card-feature"
    case WideLarge => "card-wide-large"
    case Tall => "card-tall"
    case Large => "card-large"
    case SquareLarge => "card-square-large"
    case Wide => "card-wide"
    case MediumWide => "card-medium-wide"
    case MediumTall => "card-medium-tall"
    case Medium => "card-medium"
    case Small => "card-small"
  }

  /** Distinct sizes have distinct class names. */
  lemma SizeClassInjective(a: CardSize, b: CardSize)
    requires SizeClass(a) == SizeClass(b)
    ensures a == b
  {
    var na := SizeClass(a);
    assert |na| > 6;
    assert na[5] == SizeClass(b)[5];
    assert |na| == |SizeClass(b)|;
    assert na[|na| - 1] == SizeClass(b)[|na| - 1];
  }

  /** The sum of the id's character codes, added up from the left. */
  function IdHash(id: string): nat
  {
    if id == [] then 0 else IdHash(id[..|id| - 1]) + id[|id| - 1] as nat
  }

  /** The hash of a concatenation is the sum of the hashes. */
  lemma {:induction false} IdHashAppend(a: string, b: string)
    ensures IdHash(a + b) == IdHash(a) + IdHash(b)
    decreases |b|
  {
    if b != [] {
      var b' := b[..|b| - 1];
      assert (a + b)[..|a + b| - 1] == a + b';
      IdHashAppend(a, b');
    } else {
      assert a + b == a;
    }
  }

  /** Rotating an id does not change its hash, so ids that are rotations of each other share a size variant. */
  lemma IdHashRotation(a: string, b: string)
    ensures IdHash(a + b) == IdHash(b + a)
  {
    IdHashAppend(a, b);
    IdHashAppend(b, a);
  }

  /** One of twelve size variants, fixed by the id. */
  function SizeVariant(id: string): (v: nat)
    ensures v < 12
  {
    IdHash(id) % 12
  }

  /**
   * The card size for a link. The effective priority is
   * `priority * globalPriority / 100`; it is compared against 90, 75, 60 and 40
   * here as `priority * globalPriority` against 9000, 7500, 6000 and 4000.
   * Hero and feature cards are reserved for the top band, hero for variants 0
   * and 1; the large sizes need at least 60, the medium ones less than 60, and
   * below 40 a card is medium (variants 0 to 3) or small.
   */
  function GetCardSize(priority: int, globalPriority: int, id: string): (size: CardSize)
    ensures (size == Hero || size == Feature) <==> priority * globalPriority >= 9000
    ensures size == Hero <==> priority * globalPriority >= 9000 && SizeVariant(id) < 2
    ensures size == WideLarge || size == Tall ==> 7500 <= priority * globalPriority < 9000
    ensures size == SquareLarge || size == Wide ==> 6000 <= priority * globalPriority < 7500
    ensures size == Large ==> 6000 <= priority * globalPriority < 9000
    ensures size == MediumWide || size == MediumTall ==> 4000 <= priority * globalPriority < 6000
    ensures size == Medium ==> priority * globalPriority < 6000
    ensures size == Small <==> priority * globalPriority < 4000 && SizeVariant(id) >= 4
    ensures priority * globalPriority < 4000 ==> (size == Medium <==> SizeVariant(id) < 4)
  {
    var effective := priority * globalPriority;
    var variant := SizeVariant(id);
    if effective >= 9000 then
      (if variant < 2 then Hero else Feature)
    else if effective >= 7500 then
      (if variant < 2 then WideLarge else if variant < 4 then Tall else Large)
    else if effective >= 6000 then
      (if variant < 3 then SquareLarge else if variant < 6 then Wide else Large)
    else if effective >= 4000 then
      (if variant < 3 then MediumWide else if variant < 6 then MediumTall else Medium)
    else
      (if variant < 4 then Medium else Small)
  }

  /** With the global priority at 0 every card is medium or small. */
  lemma ZeroGlobalPriorityIsLow(priority: int, id: string)
    ensures GetCardSize(priority, 0, id) == Medium || GetCardSize(priority, 0, id) == Small
  {
  }

  /** The colour of the priority dot. */
  datatype PriorityColor = PriorityHigh | PriorityMedium | PriorityLow

  /** The dot's colour: high from 80, medium from 40, low below. */
  function GetPriorityColor(priority: int): (c: PriorityColor)
    ensures c == PriorityHigh <==> priority >= 80
    ensures c == PriorityMedium <==> 40 <= priority < 80
    ensures c == PriorityLow <==> priority < 40
  {
    if priority >= 80 then PriorityHigh
    else if priority >= 40 then PriorityMedium
    else PriorityLow
  }

  /** The CSS class of a priority colour. */
  function ColorClass(c: PriorityColor): string
  {
    match c
    case PriorityHigh => "priority-high"
    case PriorityMedium => "priority-medium"
    case PriorityLow => "priority-low"
  }

  /** The card's background gradient class for a category. */
  function GetCategoryGradient(category: Category): (g: string)
    ensures g == "gradient-" + CategoryName(category)
  {
    match category
    case Social => "gradient-social"
    case Work => "gradient-work"
    case Entertainment => "gradient-entertainment"
    case News => "gradient-news"
    case Tools => "gradient-tools"
    case Shopping => "gradient-shopping"
    case Education => "gradient-education"
    case Personal => "gradient-personal"
  }

  /** Distinct categories get distinct gradients. */
  lemma GradientInjective(a: Category, b: Category)
    requires GetCategoryGradient(a) == GetCategoryGradient(b)
    ensures a == b
  {
    var p := "gradient-";
    assert CategoryName(a) == GetCategoryGradient(a)[|p|..];
    assert CategoryName(b) == GetCategoryGradient(b)[|p|..];
  }

  /** The sizes whose cards show tag badges. */
  predicate ShowsTags(size: CardSize)
  {
    size == Hero || size == Feature || size == WideLarge || size == Large || size == SquareLarge
  }

  /** How many tag badges a card of this size shows at most. */
  function TagLimit(size: CardSize): nat
  {
    if size == Hero then 5 else 3
  }

  /** The tag badges shown, and the count on the "+n" badge when there is one. */
  datatype TagDisplay = TagDisplay(shown: seq<string>, overflow: Option<nat>)

  /**
   * The tag area of a card: present only for a link with tags on a card size
   * that shows them; it shows the first tags up to the size's limit, and an
   * overflow badge with the number of tags left out exactly when some are.
   */
  function TagBadges(tags: seq<string>, size: CardSize): (d: Option<TagDisplay>)
    ensures d.Some? <==> |tags| > 0 && ShowsTags(size)
    ensures d.Some? ==>
      && |d.value.shown| == (if |tags| > TagLimit(size) then TagLimit(size) else |tags|)
      && d.value.shown == tags[..|d.value.shown|]
      && (d.value.overflow.Some? <==> |tags| > TagLimit(size))
      && (d.value.overflow.None? ==> d.value.shown == tags)
      && (d.value.overflow.Some? ==> |d.value.shown| + d.value.overflow.value == |tags|)
  {
    if |tags| > 0 && ShowsTags(size) then
      var limit := TagLimit(size);
      if |tags| > limit then Some(TagDisplay(tags[..limit], Some(|tags| - limit)))
      else Some(TagDisplay(tags, None))
    else None
  }

  /** How the description is shown: its text and how many lines it is clamped to. */
  datatype DescriptionDisplay = DescriptionDisplay(text: string, lines: nat)

  /**
   * The description paragraph: shown when the link has a non-empty description
   * and the card is neither small nor medium; clamped to three lines on hero
   * and feature cards and to two otherwise.
   */
  function ShowDescription(description: Option<string>, size: CardSize): (d: Option<DescriptionDisplay>)
    ensures d.Some? <==> description.Some? && description.value != "" && size != Small && size != Medium
    ensures d.Some? ==> d.value.text == description.value
    ensures d.Some? ==> (d.value.lines == 3 <==> size == Hero || size == Feature)
    ensures d.Some? ==> 2 <= d.value.lines <= 3
  {
    if description.Some? && description.value != "" && size != Small && size != Medium then
      Some(DescriptionDisplay(description.value, if size == Hero || size == Feature then 3 else 2))
    else None
  }

  /** Cards below an effective priority of 40 show neither description nor tags. */
  lemma LowPriorityCardsAreBare(link: Link, globalPriority: int)
    requires link.priority * globalPriority < 4000
    ensures var size := GetCardSize(link.priority, globalPriority, link.id);
      ShowDescription(link.description, size).None? && TagBadges(link.tags, size).None?
  {
  }

  /**
   * Cards at an effective priority of at least 60 always show a non-empty
   * description, and show their tags unless the card is tall or wide.
   */
  lemma HighPriorityCardsShowDetails(link: Link, globalPriority: int)
    requires link.priority * globalPriority >= 6000
    ensures var size := GetCardSize(link.priority, globalPriority, link.id);
      && (ShowDescription(link.description, size).Some? <==> link.description.Some? && link.description.value != "")
      && (TagBadges(link.tags, size).Some? <==> |link.tags| > 0 && size != Tall && size != Wide)
  {
  }
}
