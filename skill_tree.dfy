/**
 * The flat skill view of the goal page (`goals/skill-tree.tsx`): skill cards with status
 * labels, and the related skills of the selected card. A link's endpoints are ids or, once a
 * graph library has resolved them, skill objects.
 */
module SkillTree {
  import opened Wrappers
  import opened SkillLinks

  datatype Endpoint = IdRef(id: string) | NodeRef(node: Skill)

  datatype SkillLink = SkillLink(source: Endpoint, target: Endpoint)

  /** `typeof e === "string" ? e : e.id`. */
  function EndpointId(e: Endpoint): string {
    match e
    case IdRef(id) => id
    case NodeRef(node) => node.id
  }

  /** The link between the two resolved ids. */
  function Resolve(l: SkillLink): (r: Link)
    ensures r.source == EndpointId(l.source) && r.target == EndpointId(l.target)
  {
    Link(EndpointId(l.source), EndpointId(l.target))
  }

  function ResolveAll(links: seq<SkillLink>): (r: seq<Link>)
    ensures |r| == |links|
    ensures forall i | 0 <= i < |links| :: r[i] == Resolve(links[i])
  {
    seq(|links|, i requires 0 <= i < |links| => Resolve(links[i]))
  }

  /** The `filter` over the unresolved links. */
  function RelatedLinks(links: seq<SkillLink>, id: string): seq<SkillLink> {
    if links == [] then []
    else
      var n := |links| - 1;
      RelatedLinks(links[..n], id) + (if Touches(Resolve(links[n]), id) then [links[n]] else [])
  }

  /** Filtering the links as they come is filtering the resolved links. */
  lemma {:induction false} RelatedLinksResolve(links: seq<SkillLink>, id: string)
    ensures ResolveAll(RelatedLinks(links, id)) == Related(ResolveAll(links), id)
    decreases |links|
  {
    if links != [] {
      var n := |links| - 1;
      RelatedLinksResolve(links[..n], id);
      assert ResolveAll(links)[..n] == ResolveAll(links[..n]);
      var extra := if Touches(Resolve(links[n]), id) then [links[n]] else [];
      assert ResolveAll(RelatedLinks(links[..n], id) + extra) == ResolveAll(RelatedLinks(links[..n], id)) + ResolveAll(extra);
    }
  }

  /** The ids listed under "Related Skills", one per related link, in link order. */
  function RelatedIds(links: seq<SkillLink>, id: string): (r: seq<string>)
    ensures |r| == |RelatedLinks(links, id)|
  {
    var related := RelatedLinks(links, id);
    seq(|related|, i requires 0 <= i < |related| => OtherEnd(Resolve(related[i]), id))
  }

  /**
   * Each listed id is the other end of a link touching the selected skill, and every link
   * touching it is listed; the list is empty exactly when no link touches it.
   */
  lemma RelatedIdsSpec(links: seq<SkillLink>, id: string)
    ensures forall i | 0 <= i < |RelatedIds(links, id)| ::
              var l := Resolve(RelatedLinks(links, id)[i]);
              Touches(l, id) && (l == Link(id, RelatedIds(links, id)[i]) || l == Link(RelatedIds(links, id)[i], id))
    ensures forall l | l in links && Touches(Resolve(l), id) :: Resolve(l) in ResolveAll(RelatedLinks(links, id))
    ensures RelatedIds(links, id) == [] <==> forall i | 0 <= i < |links| :: !Touches(Resolve(links[i]), id)
  {
    RelatedLinksResolve(links, id);
    var resolved := ResolveAll(links);
    RelatedComplete(resolved, id);
    RelatedEmptyIff(resolved, id);
    forall l | l in links && Touches(Resolve(l), id)
      ensures Resolve(l) in ResolveAll(RelatedLinks(links, id))
    {
      var i :| 0 <= i < |links| && links[i] == l;
      assert resolved[i] == Resolve(l);
    }
    forall i | 0 <= i < |RelatedIds(links, id)|
      ensures Touches(Resolve(RelatedLinks(links, id)[i]), id)
    {
      assert ResolveAll(RelatedLinks(links, id))[i] in Related(resolved, id);
    }
  }

  /**
   * What each related entry shows: `relatedSkill?.name || relatedSkillId`, the name of the
   * first skill with the related id, or the id itself when there is none or its name is empty.
   */
  function RelatedSkillNames(links: seq<SkillLink>, skills: seq<Skill>, id: string): (r: seq<string>)
    ensures |r| == |RelatedIds(links, id)|
    ensures forall i | 0 <= i < |r| && (forall j | 0 <= j < |skills| :: skills[j].id != RelatedIds(links, id)[i]) ::
              r[i] == RelatedIds(links, id)[i]
    ensures forall i | 0 <= i < |r| && r[i] != RelatedIds(links, id)[i] ::
              exists j | 0 <= j < |skills| :: skills[j].id == RelatedIds(links, id)[i] && skills[j].name == r[i]
  {
    var ids := RelatedIds(links, id);
    seq(|ids|, i requires 0 <= i < |ids| => DisplayName(skills, ids[i]))
  }
}
