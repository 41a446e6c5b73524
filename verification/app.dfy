/** The page as a state machine: the gallery's planes and the info panel,
    driven by the two layout buttons and by clicks on the canvas. */
module App {
  import opened Geometry
  import opened Layout
  import opened Gallery
  import opened Selection

  datatype State = State(planes: seq<Plane>, panel: Panel)

  /** The user events the page listens to. Every click, including a click
      on one of the two buttons, reaches the window's click listener, which
      ray-casts at the click's screen point; so each command carries that
      ray cast's hit list. A button's own listener runs first, because the
      event reaches the button before it bubbles up to the window. A cloud
      press also carries the random points it draws. */
  datatype Command =
    | PressCross(hits: seq<nat>)
    | PressCloud(place: nat -> Vec3, hits: seq<nat>)
    | ClickOn(hits: seq<nat>)

  /** A command the page can receive in a gallery of `n` planes. */
  predicate Admissible(c: Command, n: nat)
  {
    HitsIn(c.hits, n)
  }

  predicate AllAdmissible(cs: seq<Command>, n: nat)
  {
    forall k :: 0 <= k < |cs| ==> Admissible(cs[k], n)
  }

  /** Start-up: the gallery built from the image list at random points, and
      the panel as the page's markup sets it. */
  function Init(images: seq<Image>, place: nat -> Vec3, panel: Panel): (s: State)
    ensures s.planes == Build(images, place)
    ensures |s.planes| == |images|
    ensures s.panel == panel
  {
    State(Build(images, place), panel)
  }

  /** The layout change a command makes, if any. */
  function Arrange(ps: seq<Plane>, c: Command): (r: seq<Plane>)
  {
    match c
    case PressCross(_) => ArrangeInCross(ps)
    case PressCloud(place, _) => ArrangeInCloud(ps, place)
    case ClickOn(_) => ps
  }

  /** One click event, handled to completion: first the button's layout
      change, if the click was on a button, then the selection update of the
      window's click listener. */
  function Step(s: State, c: Command): (t: State)
    requires Admissible(c, |s.planes|)
    ensures SameButPositions(s.planes, t.planes)
    ensures c.PressCross? ==> t.planes == ArrangeInCross(s.planes)
    ensures c.PressCloud? ==> t.planes == ArrangeInCloud(s.planes, c.place)
    ensures c.ClickOn? ==> t.planes == s.planes
    ensures |c.hits| == 0 ==> t.panel == s.panel
    ensures |c.hits| > 0 ==> t.panel == Showing(s.planes[c.hits[0]])
  {
    var planes := Arrange(s.planes, c);
    State(planes, Click(s.panel, planes, c.hits))
  }

  /** A sequence of events, handled in order. No event adds, removes or
      relabels a plane, or turns one. */
  function Run(s: State, cs: seq<Command>): (t: State)
    requires AllAdmissible(cs, |s.planes|)
    ensures SameButPositions(s.planes, t.planes)
    decreases |cs|
  {
    if |cs| == 0 then s
    else
      var mid := Run(s, cs[..|cs| - 1]);
      Step(mid, cs[|cs| - 1])
  }

  /** A press of the cross button over a plane moves the planes to the grid
      and also shows that plane's title and description. */
  lemma CrossPressOverPlane(s: State, hits: seq<nat>)
    requires HitsIn(hits, |s.planes|) && |hits| > 0
    ensures Step(s, PressCross(hits)).planes == ArrangeInCross(s.planes)
    ensures Step(s, PressCross(hits)).panel
            == Panel(s.planes[hits[0]].meta.title, s.planes[hits[0]].meta.desc, true)
  {
  }

  /** Whatever happened before, pressing the cross button leaves the planes
      exactly where the cross layout of the starting planes puts them. */
  lemma CrossResetsHistory(s: State, cs: seq<Command>, hits: seq<nat>)
    requires AllAdmissible(cs, |s.planes|) && HitsIn(hits, |s.planes|)
    ensures AllAdmissible(cs + [PressCross(hits)], |s.planes|)
    ensures Run(s, cs + [PressCross(hits)]).planes == ArrangeInCross(s.planes)
  {
    var all := cs + [PressCross(hits)];
    assert all[..|all| - 1] == cs;
    CrossForgetsPositions(Run(s, cs).planes, s.planes);
  }

  /** The click's ray cast hit no plane. */
  predicate KeepsPanel(c: Command)
  {
    |c.hits| == 0
  }

  /** Clicks, on a button or elsewhere, whose ray cast hits no plane leave
      the panel as it was. */
  lemma {:induction false} MissesKeepPanel(s: State, cs: seq<Command>)
    requires AllAdmissible(cs, |s.planes|)
    requires forall k :: 0 <= k < |cs| ==> KeepsPanel(cs[k])
    ensures Run(s, cs).panel == s.panel
  {
    if |cs| > 0 {
      var init := cs[..|cs| - 1];
      MissesKeepPanel(s, init);
    }
  }

  /** The panel is hidden, or it shows the metadata of a gallery plane. */
  ghost predicate PanelFromGallery(s: State)
  {
    s.panel.visible ==> exists j :: 0 <= j < |s.planes| && s.panel == Showing(s.planes[j])
  }

  /** Starting from a panel that is hidden or shows a plane, the panel only
      ever shows metadata of the gallery's own planes. */
  lemma {:induction false} PanelStaysFromGallery(s: State, cs: seq<Command>)
    requires AllAdmissible(cs, |s.planes|)
    requires PanelFromGallery(s)
    ensures PanelFromGallery(Run(s, cs))
  {
    if |cs| > 0 {
      var init := cs[..|cs| - 1];
      var c := cs[|cs| - 1];
      PanelStaysFromGallery(s, init);
      var mid := Run(s, init);
      var t := Step(mid, c);
      assert t == Run(s, cs);
      if t.panel.visible {
        if |c.hits| > 0 {
          assert t.panel == Showing(t.planes[c.hits[0]]);
        } else {
          var j :| 0 <= j < |mid.planes| && mid.panel == Showing(mid.planes[j]);
          assert t.panel == Showing(t.planes[j]);
        }
      }
    }
  }

  /** A click on a freshly built gallery shows the configured title and
      description of the first image hit, and shows the panel. */
  lemma ClickShowsImage(images: seq<Image>, place: nat -> Vec3, panel: Panel, hits: seq<nat>)
    requires |hits| > 0 && HitsIn(hits, |images|)
    ensures Admissible(ClickOn(hits), |Init(images, place, panel).planes|)
    ensures Step(Init(images, place, panel), ClickOn(hits)).panel
            == Panel(images[hits[0]].title, images[hits[0]].desc, true)
  {
  }
}
