/**
 * The data shaping inside the admin and public cards: how many tags and
 * categories are shown and how many are summarised as "+n more", how a
 * description is cut, which image address is used, and the add card's title.
 */
module Cards {
  import opened Wrappers
  import opened JsStrings

  datatype CardType = ExperienceCard | ProjectCard | SkillCard | AddCard

  const TAG_LIMIT: nat := 3
  const CATEGORY_LIMIT: nat := 2
  const DESCRIPTION_LIMIT: nat := 80
  const ELLIPSIS: string := "..."
  const ADD_DEFAULT_TITLE: string := "Add New Item"

  // ---------------------------------------------------------------------------
  // Tags and categories

  /** A row of chips: the first few values and, if any are left, how many. */
  datatype ChipRow = ChipRow(shown: seq<string>, more: Option<nat>)

  /**
   * `renderTags` / `renderCategories`: nothing for a missing or empty list,
   * otherwise `slice(0, limit)` and a "+(n - limit) more" when `n > limit`.
   */
  function Chips(items: Option<seq<string>>, limit: nat): (row: Option<ChipRow>)
    ensures row.None? <==> items.None? || |items.value| == 0
    ensures row.Some? ==> (row.value.more.Some? <==> |items.value| > limit)
  {
    if items.None? || |items.value| == 0 then None
    else
      var xs := items.value;
      Some(ChipRow(if |xs| <= limit then xs else xs[..limit], if |xs| > limit then Some(|xs| - limit) else None))
  }

  /** The chips shown are the first values in order, and together with the "+n more" count they account for every value. */
  lemma ChipsAccountForAll(items: seq<string>, limit: nat)
    requires |items| > 0
    ensures var row := Chips(Some(items), limit).value;
      |row.shown| == (if |items| < limit then |items| else limit) &&
      row.shown == items[..|row.shown|] &&
      |row.shown| + row.more.GetOr(0) == |items|
  {
  }

  /** The tag row of a card. */
  function TagRow(tags: Option<seq<string>>): (row: Option<ChipRow>)
    ensures row.Some? ==> |row.value.shown| <= TAG_LIMIT
  {
    Chips(tags, TAG_LIMIT)
  }

  /** The category row of a project card. */
  function CategoryRow(categories: Option<seq<string>>): (row: Option<ChipRow>)
    ensures row.Some? ==> |row.value.shown| <= CATEGORY_LIMIT
  {
    Chips(categories, CATEGORY_LIMIT)
  }

  // ---------------------------------------------------------------------------
  // Description

  /** A description is one text or a list of points. */
  datatype Description = Text(text: string) | Points(points: seq<string>)

  datatype DescriptionView = NoDescription | Paragraph(text: string) | Bullets(items: seq<string>)

  /**
   * `renderDescription`: nothing for a missing or empty text; a text as is; of a
   * list only the first point, cut to 80 characters and always followed by "...".
   */
  function RenderDescription(description: Option<Description>): (v: DescriptionView)
    ensures description.None? ==> v == NoDescription
    ensures description.Some? && description.value.Text? ==>
      v == (if description.value.text == "" then NoDescription else Paragraph(description.value.text))
    ensures description.Some? && description.value.Points? ==> v.Bullets? && |v.items| == (if |description.value.points| == 0 then 0 else 1)
  {
    match description
    case None => NoDescription
    case Some(Text(t)) => if t == "" then NoDescription else Paragraph(t)
    case Some(Points(ps)) =>
      var first := if |ps| == 0 then [] else ps[..1];
      Bullets(seq(|first|, i requires 0 <= i < |first| => Prefix(first[i], DESCRIPTION_LIMIT) + ELLIPSIS))
  }

  /** The one bullet shown is the first point's first 80 characters (all of it when shorter), then "...". */
  lemma BulletShape(points: seq<string>)
    requires |points| > 0
    ensures RenderDescription(Some(Points(points))).items ==
      [points[0][..(if |points[0]| < DESCRIPTION_LIMIT then |points[0]| else DESCRIPTION_LIMIT)] + ELLIPSIS]
  {
    var p := Prefix(points[0], DESCRIPTION_LIMIT);
    assert RenderDescription(Some(Points(points))).items[0] == p + ELLIPSIS;
  }

  // ---------------------------------------------------------------------------
  // Image

  /** `renderImage`'s `src`: none without an image, the address for an experience, the address without its query for a project. */
  function ImageSource(cardType: CardType, image: Option<string>): (src: Option<string>)
    ensures !Truthy(image) ==> src.None?
    ensures Truthy(image) && cardType == ExperienceCard ==> src == image
    ensures Truthy(image) && cardType == ProjectCard ==> src == Some(BeforeFirst(image.value, '?'))
    ensures cardType == SkillCard || cardType == AddCard ==> src.None?
  {
    if !Truthy(image) then None
    else if cardType == ExperienceCard then image
    else if cardType == ProjectCard then Some(BeforeFirst(image.value, '?'))
    else None
  }

  /** A project image address without a query is used unchanged. */
  lemma NoQueryUnchanged(image: string)
    requires '?' !in image
    ensures BeforeFirst(image, '?') == image
  {
  }

  /** Stripping the query twice is stripping it once. */
  lemma StripQueryIdempotent(image: string)
    ensures BeforeFirst(BeforeFirst(image, '?'), '?') == BeforeFirst(image, '?')
  {
    NoQueryUnchanged(BeforeFirst(image, '?'));
  }

  // ---------------------------------------------------------------------------
  // Add card

  /** `title || 'Add New Item'`. */
  function AddCardTitle(title: Option<string>): (t: string)
    ensures Truthy(title) ==> t == title.value
    ensures !Truthy(title) ==> t == ADD_DEFAULT_TITLE
    ensures t != ""
  {
    if Truthy(title) then title.value else ADD_DEFAULT_TITLE
  }
}
