/**
 * The topic page's resource list (`topic-page/topic-resources.tsx`): each resource type,
 * compared after lower-casing, picks an icon and a badge colour; an empty list shows only an
 * empty-state card.
 */
module TopicResources {
  import opened Wrappers
  import opened Text

  datatype LearningResource = LearningResource(title: string, url: string, kind: string,
                                               difficulty: Option<string>, rating: Option<int>)

  datatype Icon = GraduationCap | BookOpen | Video | FileText

  const BlueBadge: string := "bg-blue-100 text-blue-800"
  const GreenBadge: string := "bg-green-100 text-green-800"
  const PurpleBadge: string := "bg-purple-100 text-purple-800"
  const OrangeBadge: string := "bg-orange-100 text-orange-800"
  const GrayBadge: string := "bg-gray-100 text-gray-800"

  /** `getResourceIcon`. */
  function ResourceIcon(kind: string): Icon {
    var k := Lower(kind);
    if k == "course" then GraduationCap
    else if k == "book" then BookOpen
    else if k == "tutorial" || k == "video" then Video
    else if k == "article" then FileText
    else BookOpen
  }

  /** `getResourceTypeColor`. */
  function ResourceTypeColor(kind: string): string {
    var k := Lower(kind);
    if k == "course" then BlueBadge
    else if k == "book" then GreenBadge
    else if k == "tutorial" || k == "video" then PurpleBadge
    else if k == "article" then OrangeBadge
    else GrayBadge
  }

  /** The five types the tables name. */
  predicate KnownType(k: string) {
    k == "course" || k == "book" || k == "tutorial" || k == "video" || k == "article"
  }

  /**
   * Both tables depend on the type only through its lower-cased form, so "Video" and "VIDEO"
   * look like "video"; an unknown type gets the book icon and the gray badge.
   */
  lemma LookupsIgnoreCase(a: string, b: string)
    requires Lower(a) == Lower(b)
    ensures ResourceIcon(a) == ResourceIcon(b) && ResourceTypeColor(a) == ResourceTypeColor(b)
  {
  }

  /** The tables agree case by case; the gray badge means exactly an unknown type. */
  lemma TablesAgree(kind: string)
    ensures ResourceTypeColor(kind) == GrayBadge <==> !KnownType(Lower(kind))
    ensures !KnownType(Lower(kind)) ==> ResourceIcon(kind) == BookOpen
    ensures ResourceIcon(kind) == Video <==> ResourceTypeColor(kind) == PurpleBadge
    ensures ResourceIcon(kind) == GraduationCap <==> ResourceTypeColor(kind) == BlueBadge
    ensures ResourceIcon(kind) == FileText <==> ResourceTypeColor(kind) == OrangeBadge
  {
  }

  /** What the component renders: the empty-state card, or one card per resource. */
  datatype View = EmptyState | Cards(cards: seq<Card>)

  datatype Card = Card(resource: LearningResource, icon: Icon, badge: string)

  function CardOf(r: LearningResource): Card {
    Card(r, ResourceIcon(r.kind), ResourceTypeColor(r.kind))
  }

  /** `TopicResources({resources})`; `None` is a missing list. */
  function Render(resources: Option<seq<LearningResource>>): (v: View)
    ensures v.EmptyState? <==> resources.None? || resources.value == []
    ensures v.Cards? ==> |v.cards| == |resources.value| &&
                         forall i | 0 <= i < |v.cards| :: v.cards[i].resource == resources.value[i] &&
                                                          v.cards[i].icon == ResourceIcon(resources.value[i].kind) &&
                                                          v.cards[i].badge == ResourceTypeColor(resources.value[i].kind)
  {
    if resources.None? || |resources.value| == 0 then EmptyState
    else Cards(seq(|resources.value|, i requires 0 <= i < |resources.value| => CardOf(resources.value[i])))
  }
}
