/** The click handler's effect on the info panel. The ray cast is not
    modelled: its result arrives as the list of hit planes, given by index
    and in the order the scene-graph library reports them. */
module Selection {
  import opened Geometry

  /** What the info panel shows: the title and description text and whether
      the panel is displayed. */
  datatype Panel = Panel(title: string, desc: string, visible: bool)

  /** Every hit names a plane of the gallery: the ray cast only tests the
      gallery's own meshes. */
  predicate HitsIn(hits: seq<nat>, n: nat)
  {
    forall k :: 0 <= k < |hits| ==> hits[k] < n
  }

  /** The panel that shows the metadata of `p`. */
  function Showing(p: Plane): (r: Panel)
  {
    Panel(p.meta.title, p.meta.desc, true)
  }

  /** A click: with at least one hit, the panel becomes visible and shows the
      first hit's title and description; with none, nothing changes (a miss
      does not hide or clear the panel). */
  function Click(panel: Panel, ps: seq<Plane>, hits: seq<nat>): (r: Panel)
    requires HitsIn(hits, |ps|)
    ensures |hits| == 0 ==> r == panel
    ensures |hits| > 0 ==> r.visible
    ensures |hits| > 0 ==> r.title == ps[hits[0]].meta.title && r.desc == ps[hits[0]].meta.desc
  {
    if |hits| > 0 then Showing(ps[hits[0]]) else panel
  }

  /** A click never hides the panel. */
  lemma ClickNeverHides(panel: Panel, ps: seq<Plane>, hits: seq<nat>)
    requires HitsIn(hits, |ps|)
    ensures panel.visible ==> Click(panel, ps, hits).visible
  {
  }

  /** Hits after the first one are never consulted. */
  lemma OnlyFirstHitMatters(panel: Panel, ps: seq<Plane>, hits: seq<nat>, more: seq<nat>)
    requires |hits| > 0 && HitsIn(hits, |ps|) && HitsIn(more, |ps|)
    ensures Click(panel, ps, hits + more) == Click(panel, ps, hits[..1])
  {
  }

  /** Repeating a click changes nothing more. */
  lemma ClickIdempotent(panel: Panel, ps: seq<Plane>, hits: seq<nat>)
    requires HitsIn(hits, |ps|)
    ensures Click(Click(panel, ps, hits), ps, hits) == Click(panel, ps, hits)
  {
  }

  /** A click that hits something forgets whatever the panel showed before. */
  lemma HitOverwrites(panel: Panel, ps: seq<Plane>, h1: seq<nat>, h2: seq<nat>)
    requires HitsIn(h1, |ps|) && HitsIn(h2, |ps|) && |h2| > 0
    ensures Click(Click(panel, ps, h1), ps, h2) == Click(panel, ps, h2)
  {
  }

  /** The panel only changes to show a gallery plane: after a click it is
      either unchanged or shows the metadata of some plane. */
  lemma ClickShowsAPlane(panel: Panel, ps: seq<Plane>, hits: seq<nat>)
    requires HitsIn(hits, |ps|)
    ensures var r := Click(panel, ps, hits);
            r == panel || exists j :: 0 <= j < |ps| && r == Showing(ps[j])
  {
    if |hits| > 0 {
      assert Click(panel, ps, hits) == Showing(ps[hits[0]]);
    }
  }
}
