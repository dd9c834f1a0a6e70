/** Street layout: `createRandomHouse` draws a random style, builds the house,
    places it relative to a street group, gives it an address and registers
    it; a street row is a counting loop of such calls. */
module Street {
  import opened Wrappers
  import opened SceneGraph
  import opened HouseMod
  import opened Decimal

  /** The six `Math.random()` results one `createRandomHouse` call draws, in
      the order it draws them: base colour, roof colour, door colour, scale,
      door type, window type. */
  datatype Rolls = Rolls(base: real, roof: real, doorColor: real,
                         scale: real, doorType: real, windowType: real)

  /** `Math.random()` returns a number in [0, 1). */
  predicate ValidRoll(r: real) {
    0.0 <= r < 1.0
  }

  predicate ValidRolls(r: Rolls) {
    && ValidRoll(r.base) && ValidRoll(r.roof) && ValidRoll(r.doorColor)
    && ValidRoll(r.scale) && ValidRoll(r.doorType) && ValidRoll(r.windowType)
  }

  const BaseColors: seq<nat> := [0xffff99, 0x6699ff, 0xffccff, 0x9999ff, 0x33ffcc]
  const DoorColors: seq<nat> := [0x3333ff, 0xffcc33]
  const RoofColors: seq<nat> := [0x537d90, 0xff9966, 0x666666]
  const DoorTypes: seq<string> := ["simple", "fancy"]
  const WindowTypes: seq<string> := ["rectangular", "circular"]
  const RandomWindowColor: nat := 0x537d90

  /** `Math.floor(r * n)` for a roll `r`: an index into a palette of `n`. */
  function RollIndex(r: real, n: nat): (i: nat)
    requires ValidRoll(r) && 0 < n
    ensures i < n
    ensures i as real <= r * n as real < i as real + 1.0
  {
    assert r * n as real < n as real by {
      assert (1.0 - r) * n as real > 0.0;
    }
    (r * n as real).Floor
  }

  /** `palette[Math.floor(Math.random() * palette.length)]`. */
  function Choose<T>(palette: seq<T>, r: real): T
    requires ValidRoll(r) && 0 < |palette|
  {
    palette[RollIndex(r, |palette|)]
  }

  /** The options object `createRandomHouse` passes to `create`. */
  function RandomStyle(r: Rolls): (args: StyleArgs)
    requires ValidRolls(r)
    ensures var s := ResolveStyle(args);
      && s.baseColor in BaseColors
      && s.triColor == s.baseColor
      && s.roofColor in RoofColors
      && s.doorColor in DoorColors
      && s.windowColor == RandomWindowColor
      && s.doorType in DoorTypes
      && s.windowType in WindowTypes
      && 0.75 <= s.scale < 1.25
  {
    var baseAndTriColor := Choose(BaseColors, r.base);
    StyleArgs(
      baseColor := Some(baseAndTriColor),
      triColor := Some(baseAndTriColor),
      roofColor := Some(Choose(RoofColors, r.roof)),
      doorColor := Some(Choose(DoorColors, r.doorColor)),
      windowColor := Some(RandomWindowColor),
      doorType := Some(Choose(DoorTypes, r.doorType)),
      windowType := Some(Choose(WindowTypes, r.windowType)),
      scale := Some(r.scale * 0.5 + 0.75))
  }

  /** The roll that selects entry `i` of a palette of `n`. */
  function RollFor(i: nat, n: nat): (r: real)
    requires i < n
    ensures ValidRoll(r) && RollIndex(r, n) == i
  {
    var r := i as real / n as real;
    assert r * n as real == i as real;
    r
  }

  /** Every combination the palettes offer, at every scale in [0.75, 1.25),
      is drawn by some rolls: the random style reaches all of them. */
  lemma EveryRandomStyleReachable(b: nat, ro: nat, d: nat, dt: nat, wt: nat, scale: real)
    requires b < |BaseColors| && ro < |RoofColors| && d < |DoorColors|
    requires dt < |DoorTypes| && wt < |WindowTypes|
    requires 0.75 <= scale < 1.25
    ensures exists r: Rolls :: (ValidRolls(r) &&
      ResolveStyle(RandomStyle(r)) == Style(BaseColors[b], BaseColors[b], RoofColors[ro], DoorColors[d],
                                            RandomWindowColor, DoorTypes[dt], WindowTypes[wt], scale))
  {
    var r := Rolls(RollFor(b, |BaseColors|), RollFor(ro, |RoofColors|), RollFor(d, |DoorColors|),
                   (scale - 0.75) * 2.0, RollFor(dt, |DoorTypes|), RollFor(wt, |WindowTypes|));
    assert ValidRolls(r);
    assert ResolveStyle(RandomStyle(r)).scale == scale;
  }

  /** A random house always has windows, one disc or three panes, and never
      the triangular variant. */
  lemma RandomHouseWindows(r: Rolls)
    requires ValidRolls(r)
    ensures |Create(RandomStyle(r)).children| in {7, 9}
  {
  }

  /** `${name} ${n}`, the address the street loops build. */
  function Address(name: string, n: nat): string {
    name + " " + NatToString(n)
  }

  /** Two addresses on one street are equal only when their numbers are. */
  lemma AddressInjective(name: string, a: nat, b: nat)
    requires Address(name, a) == Address(name, b)
    ensures a == b
  {
    var k := |name| + 1;
    assert Address(name, a)[k..] == NatToString(a);
    assert Address(name, b)[k..] == NatToString(b);
    NatToStringInjective(a, b);
  }

  /** The placement half of `createRandomHouse`: the house `made` moved to
      the street group's position plus the offset, turned by `rotateY` and
      given `address`. */
  function Place(made: Object3D, groupPosition: Vec3, relativeX: real, relativeZ: real,
                 rotateY: real, address: string): Object3D
  {
    made.(position := Vec3(groupPosition.x + relativeX, 0.0, groupPosition.z + relativeZ),
          rotation := made.rotation.(y := rotateY),
          userData := made.userData.(address := Some(address)))
  }

  /** The houses `create` builds from a sequence of rolls, one per roll. */
  function RandomHouses(rolls: seq<Rolls>): (hs: seq<Object3D>)
    requires forall j :: 0 <= j < |rolls| ==> ValidRolls(rolls[j])
  {
    seq(|rolls|, j requires 0 <= j < |rolls| => Create(RandomStyle(rolls[j])))
  }

  /** createRandomHouse: builds the house, places it, adds it to the street
      group and appends it to the global list; returns the updated group and
      list along with the house. */
  method CreateRandomHouse(relativeX: real, relativeZ: real, street: Object3D, rotateY: real,
                           streetName: string, allHouses: seq<Object3D>, r: Rolls)
    returns (street': Object3D, allHouses': seq<Object3D>, house: Object3D)
    requires ValidRolls(r)
    ensures WellFormedHouse(house) && house.userData.address == Some(streetName)
    ensures house == Place(Create(RandomStyle(r)), street.position, relativeX, relativeZ, rotateY, streetName)
    ensures street' == Add(street, house)
    ensures allHouses' == allHouses + [house]
  {
    house := Create(RandomStyle(r));
    var globalX := street.position.x + relativeX;
    var globalZ := street.position.z + relativeZ;
    house := house.(position := Vec3(globalX, 0.0, globalZ),
                    rotation := house.rotation.(y := rotateY),
                    userData := house.userData.(address := Some(streetName)));
    AddressedHouseWellFormed(RandomStyle(r), streetName);
    street' := Add(street, house);
    allHouses' := allHouses + [house];
  }

  /** Each house of `row` is the one `createRandomHouse` made at its index:
      the house `made[j]` placed at offset `j * spacing` with address number
      `counter + 2 * j`. */
  predicate RowPlaced(row: seq<Object3D>, made: seq<Object3D>, groupPosition: Vec3, spacing: real,
                      relativeZ: real, rotateY: real, name: string, counter: nat)
  {
    && |row| <= |made|
    && forall j :: 0 <= j < |row| ==>
         row[j] == Place(made[j], groupPosition, j as real * spacing,
                         relativeZ, rotateY, Address(name, counter + 2 * j))
  }

  lemma RowPlacedStep(row: seq<Object3D>, house: Object3D, made: seq<Object3D>, groupPosition: Vec3,
                      spacing: real, relativeZ: real, rotateY: real, name: string, counter: nat)
    requires RowPlaced(row, made, groupPosition, spacing, relativeZ, rotateY, name, counter)
    requires |row| < |made|
    requires house == Place(made[|row|], groupPosition, |row| as real * spacing, relativeZ, rotateY,
                            Address(name, counter + 2 * |row|))
    ensures RowPlaced(row + [house], made, groupPosition, spacing, relativeZ, rotateY, name, counter)
  {
    var row' := row + [house];
    forall j | 0 <= j < |row'|
      ensures row'[j] == Place(made[j], groupPosition, j as real * spacing,
                               relativeZ, rotateY, Address(name, counter + 2 * j))
    {
      if j < |row| {
        assert row'[j] == row[j];
      }
    }
  }

  /** Each house of `row` is well formed and carries `name` followed by
      `counter + 2 * j` at index `j`. */
  predicate RowAddressed(row: seq<Object3D>, name: string, counter: nat) {
    forall j :: 0 <= j < |row| ==>
      WellFormedHouse(row[j]) && row[j].userData.address == Some(Address(name, counter + 2 * j))
  }

  lemma RowAddressedStep(row: seq<Object3D>, house: Object3D, name: string, counter: nat)
    requires RowAddressed(row, name, counter)
    requires WellFormedHouse(house) && house.userData.address == Some(Address(name, counter + 2 * |row|))
    ensures RowAddressed(row + [house], name, counter)
  {
    var row' := row + [house];
    forall j | 0 <= j < |row'|
      ensures WellFormedHouse(row'[j]) && row'[j].userData.address == Some(Address(name, counter + 2 * j))
    {
      if j < |row| {
        assert row'[j] == row[j];
      }
    }
  }

  /** One of the address loops: `count` calls of `createRandomHouse` at
      offsets `i * spacing` along the street, each named `name` followed by
      the counter, which steps by 2 and is returned for the next loop. */
  method PopulateStreet(street: Object3D, allHouses: seq<Object3D>, count: nat, spacing: real,
                        relativeZ: real, rotateY: real, name: string, counter: nat, rolls: seq<Rolls>)
    returns (street': Object3D, allHouses': seq<Object3D>, counter': nat)
    requires |rolls| == count && forall i :: 0 <= i < |rolls| ==> ValidRolls(rolls[i])
    ensures counter' == counter + 2 * count
    ensures street' == street.(children := street'.children)
    ensures |street'.children| == |street.children| + count
    ensures street'.children[..|street.children|] == street.children
    ensures allHouses' == allHouses + street'.children[|street.children|..]
    ensures RowPlaced(street'.children[|street.children|..], RandomHouses(rolls), street.position,
                      spacing, relativeZ, rotateY, name, counter)
    ensures RowAddressed(street'.children[|street.children|..], name, counter)
  {
    ghost var made := RandomHouses(rolls);
    var added: seq<Object3D> := [];
    street', allHouses', counter' := street, allHouses, counter;
    var i := 0;
    while i < count
      invariant 0 <= i <= count
      invariant counter' == counter + 2 * i
      invariant |added| == i
      invariant street' == street.(children := street.children + added)
      invariant allHouses' == allHouses + added
      invariant RowPlaced(added, made, street.position, spacing, relativeZ, rotateY, name, counter)
      invariant RowAddressed(added, name, counter)
    {
      var house;
      assert street'.position == street.position;
      ghost var made_i := made[|added|];
      assert made_i == Create(RandomStyle(rolls[i]));
      ghost var offset := |added| as real * spacing;
      assert offset == i as real * spacing;
      ghost var address := Address(name, counter + 2 * |added|);
      assert address == Address(name, counter');
      street', allHouses', house := CreateRandomHouse(i as real * spacing, relativeZ, street', rotateY,
                                                      Address(name, counter'), allHouses', rolls[i]);
      assert house == Place(made_i, street.position, offset, relativeZ, rotateY, address);
      RowPlacedStep(added, house, made, street.position, spacing, relativeZ, rotateY, name, counter);
      RowAddressedStep(added, house, name, counter);
      added := added + [house];
      counter' := counter' + 2;
      i := i + 1;
    }
    assert street'.children == street.children + added;
    assert street'.children[|street.children|..] == added;
  }

  /** Where a child of an unturned, unscaled group ends up in the world:
      the group's position plus the child's own. */
  function WorldPosition(group: Object3D, child: Object3D): Vec3
    requires group.rotation == NoRotation && group.scale == Uniform(1.0)
  {
    Vec3(group.position.x + child.position.x, group.position.y + child.position.y,
         group.position.z + child.position.z)
  }

  /** `createRandomHouse` already adds the group's position to the offset,
      and the house then sits inside that group, so in an unturned group the
      offset is applied twice: the house lands at twice the group's position
      plus the offset. */
  lemma GroupOffsetAppliedTwice(group: Object3D, made: Object3D, relativeX: real, relativeZ: real,
                                rotateY: real, address: string)
    requires group.rotation == NoRotation && group.scale == Uniform(1.0)
    ensures var h := Place(made, group.position, relativeX, relativeZ, rotateY, address);
      WorldPosition(group, h) ==
      Vec3(2.0 * group.position.x + relativeX, group.position.y, 2.0 * group.position.z + relativeZ)
  {
  }
}
