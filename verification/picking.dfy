/** The click handler: take the nearest intersection, walk up the parent
    chain from the hit object's parent to the first group tagged 'house', and
    show that house's address on the address card; hide the card when the ray
    hits nothing. */
module Picking {
  import opened Wrappers
  import opened SceneGraph

  /** One entry of `raycaster.intersectObjects(allHouses)`: its distance along
      the ray and the path of the object hit. The raycaster itself is not
      modelled; its result, nearest first, is an input. */
  datatype Hit = Hit(distance: real, target: Path)

  /** The address card element: whether it is displayed, its innerHTML and
      its `left`/`top` pixel position (unset until the first pick). */
  datatype Card = Card(shown: bool, html: string, left: Option<int>, top: Option<int>)

  /** The walk `while (parent) { if house: stop; parent = parent.parent }`
      started at the object at `candidate`: the path of the first object on
      the way up to the root that is tagged 'house'. */
  function FindHouse(root: Object3D, candidate: Path): (r: Option<Path>)
    ensures r.Some? ==>
      && |r.value| <= |candidate| && r.value == candidate[..|r.value|]
      && HouseAt(root, r.value)
      && forall k :: |r.value| < k <= |candidate| ==> !HouseAt(root, candidate[..k])
    ensures r.None? ==> forall k :: 0 <= k <= |candidate| ==> !HouseAt(root, candidate[..k])
    decreases |candidate|
  {
    if HouseAt(root, candidate) then Some(candidate)
    else if candidate == [] then None
    else
      var up := candidate[..|candidate| - 1];
      var r := FindHouse(root, up);
      assert forall k :: 0 <= k <= |up| ==> up[..k] == candidate[..k];
      assert candidate[..|candidate|] == candidate;
      r
  }

  /** The house the hit object belongs to: the walk starts at the object's
      parent, so an object is never its own house. */
  function HouseOf(root: Object3D, target: Path): Option<Path> {
    match Parent(target)
    case None => None
    case Some(p) => FindHouse(root, p)
  }

  /** `${address}`: an address never set renders as "undefined". */
  function AddressText(address: Option<string>): string {
    match address
    case Some(a) => a
    case None => "undefined"
  }

  /** The click handler, given the intersections (nearest first) and the
      click's client coordinates. */
  function Click(scene: Object3D, hits: seq<Hit>, card: Card, clientX: int, clientY: int): (r: Card)
    ensures |hits| == 0 ==> r == card.(shown := false)
    ensures |hits| > 0 && HouseOf(scene, hits[0].target).None? ==> r == card
    ensures |hits| > 0 && HouseOf(scene, hits[0].target).Some? ==>
      var h := NodeAt(scene, HouseOf(scene, hits[0].target).value).value;
      r == Card(true, "Address: " + AddressText(h.userData.address), Some(clientX), Some(clientY))
  {
    if |hits| > 0 then
      var target := hits[0].target;
      match HouseOf(scene, target)
      case Some(p) =>
        var address := NodeAt(scene, p).value.userData.address;
        Card(true, "Address: " + AddressText(address), Some(clientX), Some(clientY))
      case None => card
    else
      card.(shown := false)
  }

  /** From anywhere inside a well-formed house at `hp`, the walk up stops at
      the house itself. */
  lemma {:induction false} WalkStopsAtHouse(scene: Object3D, hp: Path, q: Path)
    requires NodeAt(scene, hp).Some? && WellFormedHouse(NodeAt(scene, hp).value)
    requires NodeAt(NodeAt(scene, hp).value, q).Some?
    ensures FindHouse(scene, hp + q) == Some(hp)
    decreases |q|
  {
    var h := NodeAt(scene, hp).value;
    NodeAtConcat(scene, hp, q);
    if q == [] {
      assert hp + q == hp;
    } else {
      var c := h.children[q[0]];
      assert c in h.children;
      NoHouseTagBelow(c, q[1..]);
      assert !HouseAt(scene, hp + q);
      var q' := q[..|q| - 1];
      assert (hp + q)[..|hp + q| - 1] == hp + q';
      NodeAtPrefix(h, q, |q| - 1);
      WalkStopsAtHouse(scene, hp, q');
    }
  }

  /** Every prefix of a path that leads somewhere leads somewhere. */
  lemma {:induction false} NodeAtPrefix(root: Object3D, p: Path, k: nat)
    requires NodeAt(root, p).Some? && k <= |p|
    ensures NodeAt(root, p[..k]).Some?
    decreases |p|
  {
    if k > 0 {
      assert p[..k][0] == p[0];
      assert p[..k][1..] == p[1..][..k - 1];
      NodeAtPrefix(root.children[p[0]], p[1..], k - 1);
    }
  }

  /** Clicking any part of a well-formed house, whether its base, a gable, a
      roof plane, a window, the simple door or a piece of the fancy door two
      levels down, shows that house's address, whatever the other hits. */
  lemma ClickOnHousePart(scene: Object3D, hp: Path, q: Path, d: real, rest: seq<Hit>,
                         card: Card, clientX: int, clientY: int)
    requires NodeAt(scene, hp).Some? && WellFormedHouse(NodeAt(scene, hp).value)
    requires q != [] && NodeAt(NodeAt(scene, hp).value, q).Some?
    ensures Click(scene, [Hit(d, hp + q)] + rest, card, clientX, clientY) ==
      Card(true, "Address: " + NodeAt(scene, hp).value.userData.address.value, Some(clientX), Some(clientY))
  {
    var h := NodeAt(scene, hp).value;
    var q' := q[..|q| - 1];
    assert (hp + q)[..|hp + q| - 1] == hp + q';
    NodeAtPrefix(h, q, |q| - 1);
    WalkStopsAtHouse(scene, hp, q');
  }

  /** A ray that hits nothing hides the card and changes nothing else. */
  lemma ClickOnNothing(scene: Object3D, card: Card, clientX: int, clientY: int)
    ensures !Click(scene, [], card, clientX, clientY).shown
    ensures Click(scene, [], card, clientX, clientY).(shown := card.shown) == card
  {
  }

  /** Only the nearest intersection matters: the hits behind it never change
      the outcome. */
  lemma ClickUsesNearestOnly(scene: Object3D, first: Hit, rest: seq<Hit>, card: Card, clientX: int, clientY: int)
    ensures Click(scene, [first] + rest, card, clientX, clientY) == Click(scene, [first], card, clientX, clientY)
  {
  }

  /** Clicking twice with the same intersections leaves the card as one click
      did. */
  lemma ClickIdempotent(scene: Object3D, hits: seq<Hit>, card: Card, clientX: int, clientY: int)
    ensures var once := Click(scene, hits, card, clientX, clientY);
      Click(scene, hits, once, clientX, clientY) == once
  {
  }

  /** A hit with no tagged ancestor, such as the house group itself or an
      object outside every house, leaves the card exactly as it was. */
  lemma ClickWithoutHouseKeepsCard(scene: Object3D, hits: seq<Hit>, card: Card, clientX: int, clientY: int)
    requires |hits| > 0
    requires forall k :: 0 <= k < |hits[0].target| ==> !HouseAt(scene, hits[0].target[..k])
    ensures Click(scene, hits, card, clientX, clientY) == card
  {
    var o := hits[0].target;
    if o != [] {
      var p := o[..|o| - 1];
      assert forall k :: 0 <= k <= |p| ==> p[..k] == o[..k];
    }
  }
}
