/**
 * The "Related Skills" panel of the goal page's two skill views: the links touching the
 * selected skill, each shown by the skill at its other end.
 */
module SkillLinks {
  import opened Wrappers

  /** A skill record; the flat view's `SkillNode` is one without `parent`. */
  datatype Skill = Skill(id: string, name: string, kind: string, status: string, parent: Option<string>)

  /** A link between two skill ids. */
  datatype Link = Link(source: string, target: string)

  predicate Touches(l: Link, id: string) {
    l.source == id || l.target == id
  }

  /** `links.filter(link => link.source === id || link.target === id)`. */
  function Related(links: seq<Link>, id: string): (r: seq<Link>)
    ensures |r| <= |links|
    ensures forall l | l in r :: Touches(l, id) && l in links
  {
    if links == [] then []
    else
      var n := |links| - 1;
      Related(links[..n], id) + (if Touches(links[n], id) then [links[n]] else [])
  }

  /** Every link touching the selected skill is listed. */
  lemma {:induction false} RelatedComplete(links: seq<Link>, id: string)
    ensures forall l | l in links && Touches(l, id) :: l in Related(links, id)
    decreases |links|
  {
    if links != [] {
      var n := |links| - 1;
      RelatedComplete(links[..n], id);
      assert links == links[..n] + [links[n]];
    }
  }

  /** The filter keeps the original order: it distributes over concatenation. */
  lemma {:induction false} RelatedAppend(a: seq<Link>, b: seq<Link>, id: string)
    ensures Related(a + b, id) == Related(a, id) + Related(b, id)
    decreases |b|
  {
    if b == [] {
      assert a + b == a;
    } else {
      var n := |b| - 1;
      assert (a + b)[..|a + b| - 1] == a + b[..n];
      RelatedAppend(a, b[..n], id);
    }
  }

  /** "No related skills" is shown exactly when no link touches the selected skill. */
  lemma {:induction false} RelatedEmptyIff(links: seq<Link>, id: string)
    ensures Related(links, id) == [] <==> forall i | 0 <= i < |links| :: !Touches(links[i], id)
    decreases |links|
  {
    if links != [] {
      var n := |links| - 1;
      RelatedEmptyIff(links[..n], id);
      if Related(links, id) == [] {
        forall i | 0 <= i < |links| ensures !Touches(links[i], id) {
          if i < n {
            assert links[..n][i] == links[i];
          }
        }
      } else if forall i | 0 <= i < |links| :: !Touches(links[i], id) {
        forall i | 0 <= i < n ensures !Touches(links[..n][i], id) {
          assert links[..n][i] == links[i];
        }
      }
    }
  }

  /** The related id: the target when the selected skill is the source, otherwise the source. */
  function OtherEnd(l: Link, id: string): (r: string)
    ensures Touches(l, id) ==> l == Link(id, r) || l == Link(r, id)
  {
    if l.source == id then l.target else l.source
  }

  /** `skills.find(s => s.id === id)`: the first skill with that id. */
  function Find(skills: seq<Skill>, id: string): (r: Option<Skill>)
    ensures r.None? <==> forall i | 0 <= i < |skills| :: skills[i].id != id
    ensures r.Some? ==> exists i | 0 <= i < |skills| :: skills[i] == r.value && r.value.id == id &&
                                                       forall j | 0 <= j < i :: skills[j].id != id
  {
    if skills == [] then None
    else if skills[0].id == id then Some(skills[0])
    else
      var rest := Find(skills[1..], id);
      if rest.Some? then
        var i :| 0 <= i < |skills[1..]| && skills[1..][i] == rest.value && rest.value.id == id &&
                 forall j | 0 <= j < i :: skills[1..][j].id != id;
        assert skills[i + 1] == rest.value;
        rest
      else rest
  }

  /** `relatedSkill?.name || relatedSkillId`: the name of the first skill with that id, or the id itself. */
  function DisplayName(skills: seq<Skill>, id: string): (r: string)
    ensures (forall i | 0 <= i < |skills| :: skills[i].id != id) ==> r == id
    ensures r != id ==> exists i | 0 <= i < |skills| :: skills[i].id == id && skills[i].name == r
  {
    match Find(skills, id)
    case None => id
    case Some(s) => if s.name != "" then s.name else id
  }
}
