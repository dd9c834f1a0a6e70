/** The slice of the three.js scene graph the town uses: groups and meshes
    arranged in a tree, each with a local transform and a `userData` record.

    An object is identified by its path, the child indices leading to it from
    the scene root. The object's `parent` is then the object at the path with
    its last index dropped, and the scene root is the one object without one. */
module SceneGraph {
  import opened Wrappers

  /** A position, size or scale in scene units. */
  datatype Vec3 = Vec3(x: real, y: real, z: real)

  const Origin := Vec3(0.0, 0.0, 0.0)

  function Uniform(s: real): Vec3 {
    Vec3(s, s, s)
  }

  /** Euler angles, each written as a multiple of pi radians
      (`Math.PI * 0.25` is 0.25, `3 * Math.PI / 2` is 1.5). */
  datatype Euler = Euler(x: real, y: real, z: real)

  const NoRotation := Euler(0.0, 0.0, 0.0)

  datatype Geometry =
    | Box(width: real, height: real, depth: real)   // BoxGeometry
    | Plane(width: real, height: real)              // PlaneGeometry
    | Circle(radius: real)                          // CircleGeometry
    | Triangle(a: Vec3, b: Vec3, c: Vec3)           // a one-face BufferGeometry

  /** A MeshStandardMaterial: its colour and whether it is double-sided. */
  datatype Material = Material(color: nat, doubleSided: bool)

  datatype Kind = Group | Mesh(geometry: Geometry, material: Material)

  /** The two `userData` properties the town reads and writes. */
  datatype UserData = UserData(tag: Option<string>, address: Option<string>)

  const NoUserData := UserData(None, None)

  /** An Object3D. `shadows` stands for castShadow and receiveShadow, which
      are set together on every part of a house, the only objects modelled. */
  datatype Object3D = Object3D(
    kind: Kind,
    position: Vec3,
    rotation: Euler,
    scale: Vec3,
    shadows: bool,
    userData: UserData,
    children: seq<Object3D>)

  /** `new THREE.Group()`: identity transform, no children. */
  function NewGroup(): Object3D {
    Object3D(Group, Origin, NoRotation, Uniform(1.0), false, NoUserData, [])
  }

  /** `new THREE.Mesh(geometry, material)`. */
  function NewMesh(g: Geometry, m: Material): Object3D {
    Object3D(Mesh(g, m), Origin, NoRotation, Uniform(1.0), false, NoUserData, [])
  }

  /** `object.add(child)`: the child becomes the last child. */
  function Add(o: Object3D, child: Object3D): (r: Object3D)
    ensures r.children == o.children + [child]
    ensures r.(children := o.children) == o
  {
    o.(children := o.children + [child])
  }

  const HouseTag := "house"

  /** `userData.type === 'house'`. */
  predicate IsHouse(o: Object3D) {
    o.userData.tag == Some(HouseTag)
  }

  /** Neither `o` nor anything below it carries the house tag. */
  predicate NoHouseTag(o: Object3D) {
    !IsHouse(o) && forall c | c in o.children :: NoHouseTag(c)
  }

  /** A house as the pick walk needs it: tagged, addressed, and the only
      tagged object of its own subtree. */
  predicate WellFormedHouse(h: Object3D) {
    && IsHouse(h)
    && h.userData.address.Some?
    && forall c | c in h.children :: NoHouseTag(c)
  }

  type Path = seq<nat>

  /** The object reached from `root` by following `p`, if there is one. */
  function NodeAt(root: Object3D, p: Path): Option<Object3D>
    decreases |p|
  {
    if p == [] then Some(root)
    else if p[0] < |root.children| then NodeAt(root.children[p[0]], p[1..])
    else None
  }

  /** The path of the parent of the object at `p`; the root has none. */
  function Parent(p: Path): Option<Path> {
    if p == [] then None else Some(p[..|p| - 1])
  }

  /** There is an object at `p` and it is tagged 'house'. */
  predicate HouseAt(root: Object3D, p: Path) {
    NodeAt(root, p).Some? && IsHouse(NodeAt(root, p).value)
  }

  /** Following `p` and then `q` is following `p + q`. */
  lemma {:induction false} NodeAtConcat(root: Object3D, p: Path, q: Path)
    ensures NodeAt(root, p + q) ==
      (if NodeAt(root, p).Some? then NodeAt(NodeAt(root, p).value, q) else None)
    decreases |p|
  {
    if p == [] {
      assert p + q == q;
    } else {
      assert (p + q)[0] == p[0];
      assert (p + q)[1..] == p[1..] + q;
      if p[0] < |root.children| {
        NodeAtConcat(root.children[p[0]], p[1..], q);
      }
    }
  }

  /** Nothing reachable inside an untagged subtree is tagged. */
  lemma {:induction false} NoHouseTagBelow(o: Object3D, q: Path)
    requires NoHouseTag(o)
    ensures NodeAt(o, q).Some? ==> !IsHouse(NodeAt(o, q).value)
    decreases |q|
  {
    if q != [] && q[0] < |o.children| {
      assert o.children[q[0]] in o.children;
      NoHouseTagBelow(o.children[q[0]], q[1..]);
    }
  }

  /** What an object is, for counting: a group or the shape of a mesh. */
  datatype PartKind = GroupPart | BoxPart | PlanePart | CirclePart | TrianglePart

  function KindOf(o: Object3D): PartKind {
    match o.kind
    case Group => GroupPart
    case Mesh(g, _) =>
      match g
      case Box(_, _, _) => BoxPart
      case Plane(_, _) => PlanePart
      case Circle(_) => CirclePart
      case Triangle(_, _, _) => TrianglePart
  }

  /** How many objects of kind `k` the trees in `os` hold, each object of
      each tree counted once. */
  function CountIn(os: seq<Object3D>, k: PartKind): nat
    decreases os
  {
    if |os| == 0 then 0
    else (if KindOf(os[0]) == k then 1 else 0) + CountIn(os[0].children, k) + CountIn(os[1..], k)
  }

  /** One step of the count: the first tree's root, its children, the rest. */
  lemma CountUnfold(os: seq<Object3D>, k: PartKind)
    requires |os| > 0
    ensures CountIn(os, k) ==
      (if KindOf(os[0]) == k then 1 else 0) + CountIn(os[0].children, k) + CountIn(os[1..], k)
  {
  }

  /** Counting a concatenation is adding the counts. */
  lemma {:induction false} CountInAppend(a: seq<Object3D>, b: seq<Object3D>, k: PartKind)
    ensures CountIn(a + b, k) == CountIn(a, k) + CountIn(b, k)
    decreases |a|
  {
    if |a| == 0 {
      assert a + b == b;
    } else {
      assert (a + b)[0] == a[0];
      assert (a + b)[1..] == a[1..] + b;
      CountInAppend(a[1..], b, k);
    }
  }
}
