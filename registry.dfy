/** Template and node lookup: `Array.find` over the ordered input lists. */
module Registry {
  import opened Wrappers
  import opened Schema

  /** Template `t` is the one a lookup for `id` of kind `k` accepts. */
  predicate Matches(t: Template, id: string, k: Kind) {
    t.id == id && t.Kind() == k
  }

  /** Index `i` holds the first template in `ts` that matches `id` and `k`. */
  predicate FirstMatch(ts: seq<Template>, id: string, k: Kind, i: int) {
    0 <= i < |ts| && Matches(ts[i], id, k) && forall j :: 0 <= j < i ==> !Matches(ts[j], id, k)
  }

  /** The first template in list order with this id and kind, or nothing. */
  function FindTemplate(ts: seq<Template>, id: string, k: Kind): (r: Option<Template>)
    ensures r.None? <==> forall i :: 0 <= i < |ts| ==> !Matches(ts[i], id, k)
    ensures r.Some? ==> r.value in ts && Matches(r.value, id, k)
    ensures forall i :: FirstMatch(ts, id, k, i) ==> r == Some(ts[i])
  {
    if ts == [] then None
    else if Matches(ts[0], id, k) then Some(ts[0])
    else
      var r := FindTemplate(ts[1..], id, k);
      assert forall i :: FirstMatch(ts, id, k, i) ==> FirstMatch(ts[1..], id, k, i - 1);
      r
  }

  /** `getNodeTemplate`: never returns a link template. */
  function GetNodeTemplate(ts: seq<Template>, id: string): (r: Option<Template>)
    ensures r.Some? ==> r.value.NodeT? && r.value.id == id && r.value in ts
    ensures r.None? <==> forall i :: 0 <= i < |ts| ==> !(ts[i].NodeT? && ts[i].id == id)
    ensures forall i :: FirstMatch(ts, id, NodeKind, i) ==> r == Some(ts[i])
  {
    FindTemplate(ts, id, NodeKind)
  }

  /** `getLinkTemplate`: never returns a node template. */
  function GetLinkTemplate(ts: seq<Template>, id: string): (r: Option<Template>)
    ensures r.Some? ==> r.value.LinkT? && r.value.id == id && r.value in ts
    ensures r.None? <==> forall i :: 0 <= i < |ts| ==> !(ts[i].LinkT? && ts[i].id == id)
    ensures forall i :: FirstMatch(ts, id, LinkKind, i) ==> r == Some(ts[i])
  {
    FindTemplate(ts, id, LinkKind)
  }

  /** Searching a concatenation: a match in the first part wins over any in the second. */
  lemma {:induction false} FindTemplateAppend(a: seq<Template>, b: seq<Template>, id: string, k: Kind)
    ensures FindTemplate(a + b, id, k) == if FindTemplate(a, id, k).Some? then FindTemplate(a, id, k) else FindTemplate(b, id, k)
  {
    if a != [] {
      assert (a + b)[1..] == a[1..] + b;
      FindTemplateAppend(a[1..], b, id, k);
    } else {
      assert a + b == b;
    }
  }

  /**
   * A template of the other kind is invisible to a lookup, wherever it sits:
   * a node template sharing a link template's id never shadows it.
   */
  lemma OtherKindIgnored(a: seq<Template>, t: Template, b: seq<Template>, id: string, k: Kind)
    requires t.Kind() != k
    ensures FindTemplate(a + [t] + b, id, k) == FindTemplate(a + b, id, k)
  {
    FindTemplateAppend(a + [t], b, id, k);
    FindTemplateAppend(a, [t], id, k);
    FindTemplateAppend(a, b, id, k);
  }

  /** Index `i` holds the first node in `nodes` whose id is `id`. */
  predicate FirstNode(nodes: seq<Node>, id: string, i: int) {
    0 <= i < |nodes| && nodes[i].id == id && forall j :: 0 <= j < i ==> nodes[j].id != id
  }

  /** `nodes.find(n => n.id === id)`. */
  function FindNode(nodes: seq<Node>, id: string): (r: Option<Node>)
    ensures r.None? <==> forall i :: 0 <= i < |nodes| ==> nodes[i].id != id
    ensures r.Some? ==> r.value in nodes && r.value.id == id
    ensures forall i :: FirstNode(nodes, id, i) ==> r == Some(nodes[i])
  {
    if nodes == [] then None
    else if nodes[0].id == id then Some(nodes[0])
    else
      var r := FindNode(nodes[1..], id);
      assert forall i :: FirstNode(nodes, id, i) ==> FirstNode(nodes[1..], id, i - 1);
      r
  }
}
