/** HouseMod: the parametrised house builder. `Create` turns a style into a
    group holding a box base, two triangular gables, two roof planes, a door
    and zero, one or three windows, tagged 'house' and scaled uniformly. */
module HouseMod {
  import opened Wrappers
  import opened SceneGraph

  /** The options object `create` destructures; `None` is a property left
      undefined, which takes the default. */
  datatype StyleArgs = StyleArgs(
    baseColor: Option<nat>,
    triColor: Option<nat>,
    roofColor: Option<nat>,
    doorColor: Option<nat>,
    windowColor: Option<nat>,
    doorType: Option<string>,
    windowType: Option<string>,
    scale: Option<real>)

  /** `create()` or `create({})`. */
  const NoArgs := StyleArgs(None, None, None, None, None, None, None, None)

  /** A style with every option decided. The door and window types are free
      strings, as in the source: only the listed values have an effect. */
  datatype Style = Style(
    baseColor: nat,
    triColor: nat,
    roofColor: nat,
    doorColor: nat,
    windowColor: nat,
    doorType: string,
    windowType: string,
    scale: real)

  const DefaultStyle := Style(0xffffff, 0xffffff, 0x202020, 0xff0000, 0x537d90,
                              "fancy", "rectangular", 1.0)

  /** Destructuring with defaults: each undefined option takes its default. */
  function ResolveStyle(a: StyleArgs): Style {
    Style(a.baseColor.GetOr(DefaultStyle.baseColor),
          a.triColor.GetOr(DefaultStyle.triColor),
          a.roofColor.GetOr(DefaultStyle.roofColor),
          a.doorColor.GetOr(DefaultStyle.doorColor),
          a.windowColor.GetOr(DefaultStyle.windowColor),
          a.doorType.GetOr(DefaultStyle.doorType),
          a.windowType.GetOr(DefaultStyle.windowType),
          a.scale.GetOr(DefaultStyle.scale))
  }

  /** Each option is defaulted on its own: a property the options object
      gives is used as given, whatever the others are, and a missing one
      takes its documented default. */
  lemma ResolveStyleDefaults(a: StyleArgs)
    ensures ResolveStyle(a).baseColor == if a.baseColor.Some? then a.baseColor.value else 0xffffff
    ensures ResolveStyle(a).triColor == if a.triColor.Some? then a.triColor.value else 0xffffff
    ensures ResolveStyle(a).roofColor == if a.roofColor.Some? then a.roofColor.value else 0x202020
    ensures ResolveStyle(a).doorColor == if a.doorColor.Some? then a.doorColor.value else 0xff0000
    ensures ResolveStyle(a).windowColor == if a.windowColor.Some? then a.windowColor.value else 0x537d90
    ensures ResolveStyle(a).doorType == if a.doorType.Some? then a.doorType.value else "fancy"
    ensures ResolveStyle(a).windowType == if a.windowType.Some? then a.windowType.value else "rectangular"
    ensures ResolveStyle(a).scale == if a.scale.Some? then a.scale.value else 1.0
    ensures ResolveStyle(NoArgs) == DefaultStyle
  {
  }

  /** The five materials `create` makes: base, gable and roof are
      double-sided, door and window are not. */
  datatype Materials = Materials(base: Material, tri: Material, roof: Material,
                                 door: Material, window: Material)

  function MaterialsFor(s: Style): Materials {
    Materials(Material(s.baseColor, true), Material(s.triColor, true),
              Material(s.roofColor, true), Material(s.doorColor, false),
              Material(s.windowColor, false))
  }

  // The geometries the house is built from.
  const BaseBox := Box(3.0, 2.0, 4.0)
  const GableShape := Triangle(Vec3(-1.0, 0.0, 0.0), Vec3(0.5, 1.5, 0.0), Vec3(2.0, 0.0, 0.0))
  const RoofPlane := Plane(2.84, 4.5)
  const SimpleDoorPlane := Plane(1.0, 1.6)
  const FancyDoorPlane := Plane(1.0, 1.2)
  const FancyDoorArch := Circle(0.5)
  const WindowPane := Plane(1.0, 1.0)
  const WindowDisc := Circle(0.5)

  const DoorPosition := Vec3(0.5, -0.2, 2.1)

  /** SimpleDoor: one 1 x 1.6 plane. */
  function SimpleDoor(m: Materials): Object3D {
    NewMesh(SimpleDoorPlane, m.door)
  }

  /** FancyDoor: a group of a 1 x 1.2 plane and a radius-0.5 disc above it. */
  function FancyDoor(m: Materials): Object3D {
    var doorBase := NewMesh(FancyDoorPlane, m.door).(position := Vec3(0.0, -0.2, 0.0));
    var doorCurve := NewMesh(FancyDoorArch, m.door).(position := Vec3(0.0, 0.4, 0.0));
    Add(Add(NewGroup(), doorBase), doorCurve)
  }

  /** WindowCircle: a radius-0.5 disc. It takes the door's material, not the
      window's, exactly as the source does. */
  function WindowCircle(m: Materials): Object3D {
    NewMesh(WindowDisc, m.door)
  }

  /** HouseTriangle: the one-face gable. */
  function HouseTriangle(m: Materials): Object3D {
    NewMesh(GableShape, m.tri)
  }

  /** The door `create` picks: fancy only for exactly "fancy". */
  function Door(s: Style, m: Materials): Object3D {
    if s.doorType == "fancy" then FancyDoor(m) else SimpleDoor(m)
  }

  /** The windows `create` adds, in order. */
  function Windows(s: Style, m: Materials): seq<Object3D> {
    if s.windowType == "rectangular" then
      [ NewMesh(WindowPane, m.window).(position := Vec3(-0.75, 0.1, 2.1)),
        NewMesh(WindowPane, m.window).(position := Vec3(-1.6, 0.1, -1.1), rotation := Euler(0.5, 1.5, 0.0)),
        NewMesh(WindowPane, m.window).(position := Vec3(-1.6, 0.1, 1.1), rotation := Euler(0.5, 1.5, 0.0)) ]
    else if s.windowType == "circular" then
      [ WindowCircle(m).(position := Vec3(-0.75, 0.5, 2.1)) ]
    else
      []
  }

  /** How many windows a window type yields. */
  function WindowCount(windowType: string): nat {
    if windowType == "rectangular" then 3
    else if windowType == "circular" then 1
    else 0
  }

  /** The door slot of a house built by `Create`. */
  const DoorSlot := 5

  /** The children of a house before its windows: base, gables, roofs, door. */
  function Shell(s: Style, m: Materials): seq<Object3D> {
    [ NewMesh(BaseBox, m.base).(shadows := true),
      HouseTriangle(m).(shadows := true, position := Vec3(-0.5, 1.0, 2.0)),
      HouseTriangle(m).(shadows := true, position := Vec3(-0.5, 1.0, -2.0)),
      NewMesh(RoofPlane, m.roof).(position := Vec3(-1.0, 1.51, 0.0), rotation := Euler(0.5, 0.25, 0.0), shadows := true),
      NewMesh(RoofPlane, m.roof).(position := Vec3(1.0, 1.51, 0.0), rotation := Euler(0.5, -0.25, 0.0), shadows := true),
      Door(s, m).(position := DoorPosition) ]
  }

  /** HouseMod.create. */
  function Create(args: StyleArgs): (house: Object3D)
    ensures house.kind == Group && IsHouse(house) && house.userData.address == None
    ensures house.scale == Uniform(ResolveStyle(args).scale)
    ensures house.position == Origin && house.rotation == NoRotation && house.shadows
    ensures |house.children| == DoorSlot + 1 + WindowCount(ResolveStyle(args).windowType)
    ensures forall c | c in house.children :: NoHouseTag(c)
  {
    var s := ResolveStyle(args);
    var m := MaterialsFor(s);
    var house := NewGroup().(scale := Uniform(s.scale), shadows := true,
                             userData := UserData(Some(HouseTag), None));
    var r := house.(children := Shell(s, m) + Windows(s, m));
    assert forall c | c in Door(s, m).children :: NoHouseTag(c);
    r
  }

  /** A house built by `Create` is well formed for the pick walk once it
      has an address. */
  lemma AddressedHouseWellFormed(args: StyleArgs, address: string)
    ensures WellFormedHouse(Create(args).(userData := UserData(Some(HouseTag), Some(address))))
  {
  }

  /** The fancy door: a group of exactly a 1 x 1.2 plane and a radius-0.5
      disc, both in the given colour. */
  predicate IsFancyDoorShape(o: Object3D, color: nat) {
    && o.kind == Group
    && |o.children| == 2
    && o.children[0].kind == Mesh(FancyDoorPlane, Material(color, false))
    && o.children[1].kind == Mesh(FancyDoorArch, Material(color, false))
    && o.children[0].children == [] && o.children[1].children == []
  }

  /** The simple door: a single 1 x 1.6 plane in the given colour. */
  predicate IsSimpleDoorShape(o: Object3D, color: nat) {
    o.kind == Mesh(SimpleDoorPlane, Material(color, false)) && o.children == []
  }

  /** The base, gables and roof: one 3 x 2 x 4 box at the centre, two gables
      at the two short ends (z = 2 and z = -2), and two 2.84 x 4.5 roof
      planes that mirror each other across the ridge. */
  lemma {:induction false} HouseShell(args: StyleArgs)
    ensures var h := Create(args); var s := ResolveStyle(args);
      && h.children[0].kind == Mesh(Box(3.0, 2.0, 4.0), Material(s.baseColor, true))
      && h.children[0].position == Origin
      && h.children[1].kind == Mesh(GableShape, Material(s.triColor, true))
      && h.children[2].kind == Mesh(GableShape, Material(s.triColor, true))
      && h.children[1].position.z == 2.0 && h.children[2].position.z == -2.0
      && h.children[1].position.(z := 0.0) == h.children[2].position.(z := 0.0)
      && h.children[3].kind == Mesh(Plane(2.84, 4.5), Material(s.roofColor, true))
      && h.children[4].kind == Mesh(Plane(2.84, 4.5), Material(s.roofColor, true))
      && h.children[4].position == h.children[3].position.(x := -h.children[3].position.x)
      && h.children[4].rotation == h.children[3].rotation.(y := -h.children[3].rotation.y)
      && h.children[3].position.x != 0.0 && h.children[3].rotation.y != 0.0
  {
    var s := ResolveStyle(args);
    var m := MaterialsFor(s);
    assert Create(args).children == Shell(s, m) + Windows(s, m);
  }

  /** The door sits at (0.5, -0.2, 2.1) and is fancy exactly when the door
      type is "fancy" (the default); any other value gives the simple door. */
  lemma {:induction false} DoorShape(args: StyleArgs)
    ensures var door := Create(args).children[DoorSlot]; var s := ResolveStyle(args);
      && door.position == Vec3(0.5, -0.2, 2.1)
      && (IsFancyDoorShape(door, s.doorColor) <==> s.doorType == "fancy")
      && (IsSimpleDoorShape(door, s.doorColor) <==> s.doorType != "fancy")
  {
    var s := ResolveStyle(args);
    var m := MaterialsFor(s);
    assert Create(args).children == Shell(s, m) + Windows(s, m);
    assert Create(args).children[DoorSlot] == Door(s, m).(position := DoorPosition);
  }

  /** The windows follow the door: three 1 x 1 panes in the window colour
      exactly for "rectangular" (the default), one radius-0.5 disc exactly
      for "circular" (in the door colour), and none for any other value,
      "triangular" included. */
  lemma {:induction false} WindowShapes(args: StyleArgs)
    ensures var h := Create(args); var s := ResolveStyle(args);
      var ws := h.children[DoorSlot + 1..];
      && (|ws| == 3 <==> s.windowType == "rectangular")
      && (|ws| == 1 <==> s.windowType == "circular")
      && (|ws| == 0 <==> s.windowType != "rectangular" && s.windowType != "circular")
      && (s.windowType == "rectangular" ==>
            forall w | w in ws :: w.kind == Mesh(Plane(1.0, 1.0), Material(s.windowColor, false)))
      && (s.windowType == "circular" ==>
            ws[0].kind == Mesh(Circle(0.5), Material(s.doorColor, false)))
  {
    var s := ResolveStyle(args);
    var m := MaterialsFor(s);
    assert Create(args).children == Shell(s, m) + Windows(s, m);
    assert Create(args).children[DoorSlot + 1..] == Windows(s, m);
  }

  /** The scale is one transform on the whole group: changing it changes
      nothing else, so every part scales with the house. */
  lemma ScaleOnlyScalesGroup(args: StyleArgs, t: real)
    ensures Create(args.(scale := Some(t))) == Create(args).(scale := Uniform(t))
  {
  }

  /** Counted over the whole tree, a house has one group of its own plus one
      for a fancy door, exactly one box, two triangles, two roof planes plus
      one door plane plus three window panes when rectangular, and one disc
      for a fancy door's arch and one for a circular window. */
  lemma {:induction false} HouseCensus(args: StyleArgs)
    ensures var s := ResolveStyle(args); var h := [Create(args)];
      var fancy := if s.doorType == "fancy" then 1 else 0;
      && CountIn(h, GroupPart) == 1 + fancy
      && CountIn(h, BoxPart) == 1
      && CountIn(h, TrianglePart) == 2
      && CountIn(h, PlanePart) == 3 + (if s.windowType == "rectangular" then 3 else 0)
      && CountIn(h, CirclePart) == fancy + (if s.windowType == "circular" then 1 else 0)
  {
    var s := ResolveStyle(args);
    var m := MaterialsFor(s);
    var h := Create(args);
    assert h.children == Shell(s, m) + Windows(s, m);
    assert [h][1..] == [];
    forall k: PartKind
      ensures CountIn([h], k) == (if k == GroupPart then 1 else 0) + CountIn(Shell(s, m), k) + CountIn(Windows(s, m), k)
    {
      CountInAppend(Shell(s, m), Windows(s, m), k);
    }
    ShellCensus(s, m);
    WindowsCensus(s, m);
  }

  lemma ShellCensus(s: Style, m: Materials)
    ensures var fancy := if s.doorType == "fancy" then 1 else 0;
      && CountIn(Shell(s, m), GroupPart) == fancy
      && CountIn(Shell(s, m), BoxPart) == 1
      && CountIn(Shell(s, m), TrianglePart) == 2
      && CountIn(Shell(s, m), PlanePart) == 3
      && CountIn(Shell(s, m), CirclePart) == fancy
  {
    var sh := Shell(s, m);
    var door := sh[DoorSlot];
    forall k: PartKind
      ensures CountIn(sh, k) ==
        (if k == BoxPart then 1 else 0) + (if k == TrianglePart then 2 else 0)
        + (if k == PlanePart then 2 else 0) + CountIn([door], k)
    {
      CountUnfold(sh, k);
      CountUnfold(sh[1..], k);
      CountUnfold(sh[2..], k);
      CountUnfold(sh[3..], k);
      CountUnfold(sh[4..], k);
      assert sh[5..] == [door];
    }
    DoorCensus(s, m);
  }

  lemma DoorCensus(s: Style, m: Materials)
    ensures forall k: PartKind :: (CountIn([Door(s, m).(position := DoorPosition)], k) ==
      if s.doorType == "fancy" then
        (if k == GroupPart || k == PlanePart || k == CirclePart then 1 else 0)
      else (if k == PlanePart then 1 else 0))
  {
    var door := Door(s, m).(position := DoorPosition);
    forall k: PartKind
      ensures CountIn([door], k) ==
        if s.doorType == "fancy" then
          (if k == GroupPart || k == PlanePart || k == CirclePart then 1 else 0)
        else (if k == PlanePart then 1 else 0)
    {
      CountUnfold([door], k);
      if s.doorType == "fancy" {
        CountUnfold(door.children, k);
        CountUnfold(door.children[1..], k);
      }
    }
  }

  lemma WindowsCensus(s: Style, m: Materials)
    ensures
      && CountIn(Windows(s, m), GroupPart) == 0
      && CountIn(Windows(s, m), BoxPart) == 0
      && CountIn(Windows(s, m), TrianglePart) == 0
      && CountIn(Windows(s, m), PlanePart) == (if s.windowType == "rectangular" then 3 else 0)
      && CountIn(Windows(s, m), CirclePart) == (if s.windowType == "circular" then 1 else 0)
  {
    var ws := Windows(s, m);
    forall k: PartKind
      ensures CountIn(ws, k) ==
        if s.windowType == "rectangular" then (if k == PlanePart then 3 else 0)
        else if s.windowType == "circular" then (if k == CirclePart then 1 else 0)
        else 0
    {
      if s.windowType == "rectangular" {
        CountUnfold(ws, k);
        CountUnfold(ws[1..], k);
        CountUnfold(ws[2..], k);
      } else if s.windowType == "circular" {
        CountUnfold(ws, k);
      }
    }
  }

  /** `create()` with no options: white walls and gables, a dark roof, a red
      fancy door and three rectangular windows, at scale 1. */
  lemma DefaultHouse()
    ensures var h := Create(NoArgs);
      && |h.children| == 9
      && h.scale == Uniform(1.0)
      && h.children[0].kind == Mesh(BaseBox, Material(0xffffff, true))
      && h.children[3].kind == Mesh(RoofPlane, Material(0x202020, true))
      && IsFancyDoorShape(h.children[DoorSlot], 0xff0000)
  {
    DoorShape(NoArgs);
  }
}
