/** The town: eight street groups filled by the eight address loops, and the
    global list of every house, in creation order. */
module Town {
  import opened Wrappers
  import opened SceneGraph
  import opened HouseMod
  import opened Street
  import opened Picking

  const North := "North Street"
  const South := "South Street"
  const West := "West Street"
  const East := "East Street"

  /** How many houses the eight loops create: 7 + 9 + 9 + 10 + 10 + 10 + 10 + 15. */
  const TownSize := 80

  /** The street name of the `k`-th house created. */
  function PlannedName(k: nat): string
    requires k < TownSize
  {
    if k < 16 then North
    else if k < 35 then South
    else if k < 55 then West
    else East
  }

  /** The address number of the `k`-th house created, in closed form: the
      North Street counter runs on from the west row into the east row, and
      every other row restarts at 1 or 2. */
  function PlannedNumber(k: nat): nat
    requires k < TownSize
  {
    if k < 16 then 1 + 2 * k
    else if k < 25 then 1 + 2 * (k - 16)
    else if k < 35 then 2 + 2 * (k - 25)
    else if k < 45 then 1 + 2 * (k - 35)
    else if k < 55 then 2 + 2 * (k - 45)
    else if k < 65 then 1 + 2 * (k - 55)
    else 2 + 2 * (k - 65)
  }

  function PlannedAddress(k: nat): string
    requires k < TownSize
  {
    Address(PlannedName(k), PlannedNumber(k))
  }

  /** The numbers on each street: North Street has the odd numbers 1 to 31;
      South Street the odd ones to 17 and the even ones to 20; West Street
      the odd ones to 19 and the even ones to 20; East Street the odd ones to
      19 and the even ones to 30. */
  lemma StreetNumbers(name: string, n: nat)
    ensures (exists k :: 0 <= k < TownSize && PlannedName(k) == name && PlannedNumber(k) == n) <==>
      || (name == North && 1 <= n <= 31 && n % 2 == 1)
      || (name == South && ((1 <= n <= 17 && n % 2 == 1) || (2 <= n <= 20 && n % 2 == 0)))
      || (name == West && ((1 <= n <= 19 && n % 2 == 1) || (2 <= n <= 20 && n % 2 == 0)))
      || (name == East && ((1 <= n <= 19 && n % 2 == 1) || (2 <= n <= 30 && n % 2 == 0)))
  {
    NamesDiffer();
    if name == North && 1 <= n <= 31 && n % 2 == 1 {
      var k := (n - 1) / 2;
      assert PlannedName(k) == name && PlannedNumber(k) == n;
    } else if name == South && 1 <= n <= 17 && n % 2 == 1 {
      var k := 16 + (n - 1) / 2;
      assert PlannedName(k) == name && PlannedNumber(k) == n;
    } else if name == South && 2 <= n <= 20 && n % 2 == 0 {
      var k := 25 + (n - 2) / 2;
      assert PlannedName(k) == name && PlannedNumber(k) == n;
    } else if name == West && 1 <= n <= 19 && n % 2 == 1 {
      var k := 35 + (n - 1) / 2;
      assert PlannedName(k) == name && PlannedNumber(k) == n;
    } else if name == West && 2 <= n <= 20 && n % 2 == 0 {
      var k := 45 + (n - 2) / 2;
      assert PlannedName(k) == name && PlannedNumber(k) == n;
    } else if name == East && 1 <= n <= 19 && n % 2 == 1 {
      var k := 55 + (n - 1) / 2;
      assert PlannedName(k) == name && PlannedNumber(k) == n;
    } else if name == East && 2 <= n <= 30 && n % 2 == 0 {
      var k := 65 + (n - 2) / 2;
      assert PlannedName(k) == name && PlannedNumber(k) == n;
    }
  }

  lemma NamesDiffer()
    ensures North[0] == 'N' && South[0] == 'S' && West[0] == 'W' && East[0] == 'E'
  {
  }

  /** An address starts with its street name. */
  lemma AddressStartsWithName(name: string, n: nat)
    requires |name| > 0
    ensures Address(name, n)[0] == name[0]
  {
  }

  /** No two houses are planned with the same address: the street names
      differ in their first letter, and on one street the numbers differ. */
  lemma PlannedAddressesDistinct(i: nat, j: nat)
    requires i < j < TownSize
    ensures PlannedAddress(i) != PlannedAddress(j)
  {
    NamesDiffer();
    if PlannedName(i) == PlannedName(j) {
      assert PlannedNumber(i) != PlannedNumber(j);
      if PlannedAddress(i) == PlannedAddress(j) {
        AddressInjective(PlannedName(i), PlannedNumber(i), PlannedNumber(j));
      }
    } else {
      AddressStartsWithName(PlannedName(i), PlannedNumber(i));
      AddressStartsWithName(PlannedName(j), PlannedNumber(j));
    }
  }

  /** Every house in every street group of the scene is well formed. */
  predicate TownWellFormed(scene: Object3D) {
    forall s, i :: 0 <= s < |scene.children| && 0 <= i < |scene.children[s].children| ==>
      WellFormedHouse(scene.children[s].children[i])
  }

  /** A street group at a given position, before any house is added. */
  function StreetGroup(x: real, z: real): Object3D {
    NewGroup().(position := Vec3(x, 0.0, z))
  }

  /** The street setup, the eight address loops, the later moves of the
      west and east groups, and the scene's street groups, in source order. */
  method BuildTown(rolls: seq<Rolls>) returns (scene: Object3D, allHouses: seq<Object3D>)
    requires |rolls| == TownSize && forall i :: 0 <= i < |rolls| ==> ValidRolls(rolls[i])
    ensures |allHouses| == TownSize
    ensures forall k :: 0 <= k < TownSize ==>
      WellFormedHouse(allHouses[k]) && allHouses[k].userData.address == Some(PlannedAddress(k))
    ensures forall i, j :: 0 <= i < j < TownSize ==>
      allHouses[i].userData.address != allHouses[j].userData.address
    ensures |scene.children| == 8
    ensures allHouses == scene.children[0].children + scene.children[1].children
      + scene.children[2].children + scene.children[3].children + scene.children[4].children
      + scene.children[5].children + scene.children[6].children + scene.children[7].children
    ensures RowPlaced(scene.children[0].children, RandomHouses(rolls[0..7]), Vec3(-30.0, 0.0, 8.0), 8.0, 0.0, 1.0, North, 1)
    ensures RowPlaced(scene.children[1].children, RandomHouses(rolls[7..16]), Vec3(-30.0, 0.0, -8.0), 6.0, 0.0, 0.0, North, 15)
    ensures RowPlaced(scene.children[2].children, RandomHouses(rolls[16..25]), Vec3(6.0, 0.0, 8.0), 8.0, 0.0, 1.0, South, 1)
    ensures RowPlaced(scene.children[3].children, RandomHouses(rolls[25..35]), Vec3(6.0, 0.0, -8.0), 6.0, 0.0, 0.0, South, 2)
    ensures RowPlaced(scene.children[4].children, RandomHouses(rolls[35..45]), Origin, 8.0, 15.0, 1.0, West, 1)
    ensures RowPlaced(scene.children[5].children, RandomHouses(rolls[45..55]), Origin, 8.0, 15.0, 0.0, West, 2)
    ensures RowPlaced(scene.children[6].children, RandomHouses(rolls[55..65]), Origin, 8.0, -25.0, 1.0, East, 1)
    ensures RowPlaced(scene.children[7].children, RandomHouses(rolls[65..80]), Origin, 5.0, 15.0, 0.0, East, 2)
    ensures TownWellFormed(scene)
    ensures scene.children[0].position == Vec3(-30.0, 0.0, 8.0) && scene.children[1].position == Vec3(-30.0, 0.0, -8.0)
    ensures scene.children[2].position == Vec3(6.0, 0.0, 8.0) && scene.children[3].position == Vec3(6.0, 0.0, -8.0)
    ensures forall s :: 0 <= s < 4 ==> scene.children[s].rotation == NoRotation && scene.children[s].scale == Uniform(1.0)
    ensures scene.children[4].position == Vec3(0.0, 0.0, 99.0) && scene.children[4].rotation == Euler(0.0, 0.5, 0.0)
    ensures scene.children[5].position == Vec3(-30.0, 0.0, 99.0) && scene.children[5].rotation == Euler(0.0, 0.5, 0.0)
    ensures scene.children[6].position == Vec3(-40.0, 0.0, -99.0) && scene.children[6].rotation == Euler(0.0, 1.5, 0.0)
    ensures scene.children[7].position == Vec3(30.0, 0.0, -99.0) && scene.children[7].rotation == Euler(0.0, 1.5, 0.0)
  {
    var north, all := NorthStreet(rolls[..16]);
    var south, all' := SouthStreet(rolls[16..35], all);
    var westEast, all'' := WestAndEastStreets(rolls[35..], all');
    assert rolls[..16][0..7] == rolls[0..7] && rolls[..16][7..16] == rolls[7..16];
    assert rolls[16..35][0..9] == rolls[16..25] && rolls[16..35][9..19] == rolls[25..35];
    assert rolls[35..][0..10] == rolls[35..45] && rolls[35..][10..20] == rolls[45..55];
    assert rolls[35..][20..30] == rolls[55..65] && rolls[35..][30..45] == rolls[65..80];
    var streets := north + south + westEast;
    assert streets[0] == north[0] && streets[1] == north[1];
    assert streets[2] == south[0] && streets[3] == south[1];
    assert streets[4] == westEast[0] && streets[5] == westEast[1];
    assert streets[6] == westEast[2] && streets[7] == westEast[3];
    scene := NewGroup().(children := streets);
    allHouses := all'';
    var rows := seq(8, s requires 0 <= s < 8 => streets[s].children);
    TownAddresses(rows, allHouses);
    forall s, i | 0 <= s < |scene.children| && 0 <= i < |scene.children[s].children|
      ensures WellFormedHouse(scene.children[s].children[i])
    {
      assert scene.children[s].children == rows[s];
    }
  }

  /** The two North Street loops. The counter is not reset between them, so
      the east row goes on from 15. */
  method NorthStreet(rolls: seq<Rolls>) returns (streets: seq<Object3D>, all: seq<Object3D>)
    requires |rolls| == 16 && forall i :: 0 <= i < |rolls| ==> ValidRolls(rolls[i])
    ensures |streets| == 2
    ensures all == streets[0].children + streets[1].children
    ensures |streets[0].children| == 7 && |streets[1].children| == 9
    ensures RowPlaced(streets[0].children, RandomHouses(rolls[0..7]), Vec3(-30.0, 0.0, 8.0), 8.0, 0.0, 1.0, North, 1)
    ensures RowPlaced(streets[1].children, RandomHouses(rolls[7..16]), Vec3(-30.0, 0.0, -8.0), 6.0, 0.0, 0.0, North, 15)
    ensures RowAddressed(streets[0].children, North, 1) && RowAddressed(streets[1].children, North, 15)
    ensures streets[0].position == Vec3(-30.0, 0.0, 8.0) && streets[1].position == Vec3(-30.0, 0.0, -8.0)
    ensures forall s :: 0 <= s < 2 ==> streets[s].rotation == NoRotation && streets[s].scale == Uniform(1.0)
  {
    var northStreetWest := StreetGroup(-30.0, 8.0);
    var northStreetEast := StreetGroup(-30.0, -8.0);
    all := [];
    var addressCounter := 1;
    northStreetWest, all, addressCounter :=
      PopulateStreet(northStreetWest, all, 7, 8.0, 0.0, 1.0, North, addressCounter, rolls[0..7]);
    assert addressCounter == 15;
    northStreetEast, all, addressCounter :=
      PopulateStreet(northStreetEast, all, 9, 6.0, 0.0, 0.0, North, addressCounter, rolls[7..16]);
    streets := [northStreetWest, northStreetEast];
    assert forall s :: 0 <= s < 2 ==> streets[s].children[0..] == streets[s].children;
  }

  /** The two South Street loops: odd numbers from 1, then even from 2. */
  method SouthStreet(rolls: seq<Rolls>, all: seq<Object3D>) returns (streets: seq<Object3D>, all': seq<Object3D>)
    requires |rolls| == 19 && forall i :: 0 <= i < |rolls| ==> ValidRolls(rolls[i])
    ensures |streets| == 2
    ensures all' == all + streets[0].children + streets[1].children
    ensures |streets[0].children| == 9 && |streets[1].children| == 10
    ensures RowPlaced(streets[0].children, RandomHouses(rolls[0..9]), Vec3(6.0, 0.0, 8.0), 8.0, 0.0, 1.0, South, 1)
    ensures RowPlaced(streets[1].children, RandomHouses(rolls[9..19]), Vec3(6.0, 0.0, -8.0), 6.0, 0.0, 0.0, South, 2)
    ensures RowAddressed(streets[0].children, South, 1) && RowAddressed(streets[1].children, South, 2)
    ensures streets[0].position == Vec3(6.0, 0.0, 8.0) && streets[1].position == Vec3(6.0, 0.0, -8.0)
    ensures forall s :: 0 <= s < 2 ==> streets[s].rotation == NoRotation && streets[s].scale == Uniform(1.0)
  {
    var southStreetWest := StreetGroup(6.0, 8.0);
    var southStreetEast := StreetGroup(6.0, -8.0);
    all' := all;
    var addressCounter := 1;
    southStreetWest, all', addressCounter :=
      PopulateStreet(southStreetWest, all', 9, 8.0, 0.0, 1.0, South, addressCounter, rolls[0..9]);
    addressCounter := 2;
    southStreetEast, all', addressCounter :=
      PopulateStreet(southStreetEast, all', 10, 6.0, 0.0, 0.0, South, addressCounter, rolls[9..19]);
    streets := [southStreetWest, southStreetEast];
    assert forall s :: 0 <= s < 2 ==> streets[s].children[0..] == streets[s].children;
  }

  /** The four West and East Street loops, each group turned and moved once
      its houses are in place. */
  method WestAndEastStreets(rolls: seq<Rolls>, all: seq<Object3D>) returns (streets: seq<Object3D>, all': seq<Object3D>)
    requires |rolls| == 45 && forall i :: 0 <= i < |rolls| ==> ValidRolls(rolls[i])
    ensures |streets| == 4
    ensures all' == all + streets[0].children + streets[1].children + streets[2].children + streets[3].children
    ensures |streets[0].children| == 10 && |streets[1].children| == 10
    ensures |streets[2].children| == 10 && |streets[3].children| == 15
    ensures RowPlaced(streets[0].children, RandomHouses(rolls[0..10]), Origin, 8.0, 15.0, 1.0, West, 1)
    ensures RowPlaced(streets[1].children, RandomHouses(rolls[10..20]), Origin, 8.0, 15.0, 0.0, West, 2)
    ensures RowPlaced(streets[2].children, RandomHouses(rolls[20..30]), Origin, 8.0, -25.0, 1.0, East, 1)
    ensures RowPlaced(streets[3].children, RandomHouses(rolls[30..45]), Origin, 5.0, 15.0, 0.0, East, 2)
    ensures RowAddressed(streets[0].children, West, 1) && RowAddressed(streets[1].children, West, 2)
    ensures RowAddressed(streets[2].children, East, 1) && RowAddressed(streets[3].children, East, 2)
    ensures streets[0].position == Vec3(0.0, 0.0, 99.0) && streets[0].rotation == Euler(0.0, 0.5, 0.0)
    ensures streets[1].position == Vec3(-30.0, 0.0, 99.0) && streets[1].rotation == Euler(0.0, 0.5, 0.0)
    ensures streets[2].position == Vec3(-40.0, 0.0, -99.0) && streets[2].rotation == Euler(0.0, 1.5, 0.0)
    ensures streets[3].position == Vec3(30.0, 0.0, -99.0) && streets[3].rotation == Euler(0.0, 1.5, 0.0)
  {
    var westStreetSouth := StreetGroup(0.0, 0.0);
    var westStreetNorth := StreetGroup(0.0, 0.0);
    var eastStreetNorth := StreetGroup(0.0, 0.0);
    var eastStreetSouth := StreetGroup(0.0, 0.0);
    all' := all;
    var addressCounter := 1;
    westStreetSouth, all', addressCounter :=
      PopulateStreet(westStreetSouth, all', 10, 8.0, 15.0, 1.0, West, addressCounter, rolls[0..10]);
    westStreetSouth := westStreetSouth.(rotation := westStreetSouth.rotation.(y := 0.5),
                                        position := Vec3(0.0, 0.0, 99.0));
    addressCounter := 2;
    westStreetNorth, all', addressCounter :=
      PopulateStreet(westStreetNorth, all', 10, 8.0, 15.0, 0.0, West, addressCounter, rolls[10..20]);
    westStreetNorth := westStreetNorth.(rotation := westStreetNorth.rotation.(y := 0.5),
                                        position := Vec3(-30.0, 0.0, 99.0));
    addressCounter := 1;
    eastStreetNorth, all', addressCounter :=
      PopulateStreet(eastStreetNorth, all', 10, 8.0, -25.0, 1.0, East, addressCounter, rolls[20..30]);
    eastStreetNorth := eastStreetNorth.(rotation := eastStreetNorth.rotation.(y := 1.5),
                                        position := Vec3(-40.0, 0.0, -99.0));
    addressCounter := 2;
    eastStreetSouth, all', addressCounter :=
      PopulateStreet(eastStreetSouth, all', 15, 5.0, 15.0, 0.0, East, addressCounter, rolls[30..45]);
    eastStreetSouth := eastStreetSouth.(rotation := eastStreetSouth.rotation.(y := 1.5),
                                        position := Vec3(30.0, 0.0, -99.0));
    streets := [westStreetSouth, westStreetNorth, eastStreetNorth, eastStreetSouth];
    assert forall s :: 0 <= s < 4 ==> streets[s].children[0..] == streets[s].children;
  }

  /** The eight rows, concatenated in loop order, follow the plan, so no two
      houses of the town share an address. */
  lemma TownAddresses(rows: seq<seq<Object3D>>, all: seq<Object3D>)
    requires |rows| == 8
    requires |rows[0]| == 7 && |rows[1]| == 9 && |rows[2]| == 9 && |rows[3]| == 10
    requires |rows[4]| == 10 && |rows[5]| == 10 && |rows[6]| == 10 && |rows[7]| == 15
    requires all == rows[0] + rows[1] + rows[2] + rows[3] + rows[4] + rows[5] + rows[6] + rows[7]
    requires RowAddressed(rows[0], North, 1) && RowAddressed(rows[1], North, 15)
    requires RowAddressed(rows[2], South, 1) && RowAddressed(rows[3], South, 2)
    requires RowAddressed(rows[4], West, 1) && RowAddressed(rows[5], West, 2)
    requires RowAddressed(rows[6], East, 1) && RowAddressed(rows[7], East, 2)
    ensures |all| == TownSize
    ensures forall k :: 0 <= k < TownSize ==>
      WellFormedHouse(all[k]) && all[k].userData.address == Some(PlannedAddress(k))
    ensures forall i, j :: 0 <= i < j < TownSize ==>
      all[i].userData.address != all[j].userData.address
  {
    TownRowsPlanned(rows, all);
    PlannedHousesDistinct(all);
  }

  /** House `k` of the concatenated rows is well formed and carries the
      `k`-th planned address. */
  lemma TownRowsPlanned(rows: seq<seq<Object3D>>, all: seq<Object3D>)
    requires |rows| == 8
    requires |rows[0]| == 7 && |rows[1]| == 9 && |rows[2]| == 9 && |rows[3]| == 10
    requires |rows[4]| == 10 && |rows[5]| == 10 && |rows[6]| == 10 && |rows[7]| == 15
    requires all == rows[0] + rows[1] + rows[2] + rows[3] + rows[4] + rows[5] + rows[6] + rows[7]
    requires RowAddressed(rows[0], North, 1) && RowAddressed(rows[1], North, 15)
    requires RowAddressed(rows[2], South, 1) && RowAddressed(rows[3], South, 2)
    requires RowAddressed(rows[4], West, 1) && RowAddressed(rows[5], West, 2)
    requires RowAddressed(rows[6], East, 1) && RowAddressed(rows[7], East, 2)
    ensures |all| == TownSize
    ensures forall k :: 0 <= k < TownSize ==>
      WellFormedHouse(all[k]) && all[k].userData.address == Some(PlannedAddress(k))
  {
    forall k | 0 <= k < TownSize
      ensures WellFormedHouse(all[k]) && all[k].userData.address == Some(PlannedAddress(k))
    {
      if k < 7 { assert all[k] == rows[0][k]; }
      else if k < 16 { assert all[k] == rows[1][k - 7]; }
      else if k < 25 { assert all[k] == rows[2][k - 16]; }
      else if k < 35 { assert all[k] == rows[3][k - 25]; }
      else if k < 45 { assert all[k] == rows[4][k - 35]; }
      else if k < 55 { assert all[k] == rows[5][k - 45]; }
      else if k < 65 { assert all[k] == rows[6][k - 55]; }
      else { assert all[k] == rows[7][k - 65]; }
    }
  }

  /** Houses that carry the planned addresses in order carry distinct
      addresses. */
  lemma PlannedHousesDistinct(all: seq<Object3D>)
    requires |all| == TownSize
    requires forall k :: 0 <= k < TownSize ==> all[k].userData.address == Some(PlannedAddress(k))
    ensures forall i, j :: 0 <= i < j < TownSize ==>
      all[i].userData.address != all[j].userData.address
  {
    forall i, j | 0 <= i < j < TownSize
      ensures all[i].userData.address != all[j].userData.address
    {
      PlannedAddressesDistinct(i, j);
    }
  }

  /** In a town whose street groups hold well-formed houses, clicking any
      part of the `i`-th house of street group `s` shows that house's
      address. */
  lemma ClickInTown(scene: Object3D, s: nat, i: nat, q: Path, d: real, rest: seq<Hit>,
                    card: Card, clientX: int, clientY: int)
    requires TownWellFormed(scene)
    requires s < |scene.children| && i < |scene.children[s].children|
    requires q != [] && NodeAt(scene.children[s].children[i], q).Some?
    ensures Click(scene, [Hit(d, [s, i] + q)] + rest, card, clientX, clientY) ==
      Card(true, "Address: " + scene.children[s].children[i].userData.address.value,
           Some(clientX), Some(clientY))
  {
    var h := scene.children[s].children[i];
    assert [s, i][1..] == [i];
    assert NodeAt(scene, [s, i]) == Some(h) by {
      assert NodeAt(scene.children[s], [i]) == NodeAt(h, []);
    }
    ClickOnHousePart(scene, [s, i], q, d, rest, card, clientX, clientY);
  }
}
