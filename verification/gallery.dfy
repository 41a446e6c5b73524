/** Construction of the gallery: one plane per configured image, in order,
    each carrying that image's title and description. */
module Gallery {
  import opened Geometry
  import opened Layout

  /** The metadata a plane built from `img` carries. */
  function MetaOf(img: Image): (m: Meta)
  {
    Meta(img.title, img.desc)
  }

  /** The image list loop: a fresh mesh per image, placed at the arbitrary
      starting point `place(i)`, with the default rotation and the image's
      title and description as its metadata. An empty list gives an empty
      gallery. */
  function Build(images: seq<Image>, place: nat -> Vec3): (ps: seq<Plane>)
    ensures |ps| == |images|
    ensures forall i :: 0 <= i < |ps| ==> ps[i].position == place(i)
    ensures forall i :: 0 <= i < |ps| ==> ps[i].rotation == DefaultRotation
    ensures forall i :: 0 <= i < |ps| ==>
              ps[i].meta.title == images[i].title && ps[i].meta.desc == images[i].desc
  {
    if |images| == 0 then []
    else
      var init := Build(images[..|images| - 1], place);
      var last := |images| - 1;
      init + [Plane(place(last), DefaultRotation, MetaOf(images[last]))]
  }

  /** The titles shown by a list of planes, in order. */
  function Titles(ps: seq<Plane>): (ts: seq<string>)
  {
    seq(|ps|, i requires 0 <= i < |ps| => ps[i].meta.title)
  }

  /** The titles configured for a list of images, in order. */
  function ImageTitles(images: seq<Image>): (ts: seq<string>)
  {
    seq(|images|, i requires 0 <= i < |images| => images[i].title)
  }

  /** Construction keeps the image order: the gallery lists exactly the
      configured titles, and no random start can change that. */
  lemma BuildKeepsOrder(images: seq<Image>, place: nat -> Vec3)
    ensures Titles(Build(images, place)) == ImageTitles(images)
  {
  }

  /** The random starting points are the only part of construction that
      varies: two builds of the same images differ only in positions. */
  lemma BuildDiffersOnlyInPositions(images: seq<Image>, p1: nat -> Vec3, p2: nat -> Vec3)
    ensures SameButPositions(Build(images, p1), Build(images, p2))
  {
  }

  /** After the cross button, the gallery no longer depends on the random
      start at all. */
  lemma CrossErasesRandomStart(images: seq<Image>, p1: nat -> Vec3, p2: nat -> Vec3)
    ensures ArrangeInCross(Build(images, p1)) == ArrangeInCross(Build(images, p2))
  {
    CrossForgetsPositions(Build(images, p1), Build(images, p2));
  }
}
