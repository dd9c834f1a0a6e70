/** The two mode switches behind the UI buttons. */
module Modes {
  import opened SceneGraph

  /** Which camera controller is enabled. */
  datatype Controls = Controls(orbitEnabled: bool, firstPersonEnabled: bool)

  /** toggleControlsMode: "orbit" turns orbit controls on and first-person
      controls off; any other mode does the reverse. The previous state does
      not matter. */
  function ToggleControlsMode(c: Controls, mode: string): (r: Controls)
    ensures r.orbitEnabled != r.firstPersonEnabled
    ensures r.orbitEnabled <==> mode == "orbit"
  {
    if mode == "orbit" then c.(orbitEnabled := true, firstPersonEnabled := false)
    else c.(orbitEnabled := false, firstPersonEnabled := true)
  }

  /** Orbit controls are enabled on construction, first-person controls are
      switched off, and start-up calls `toggleControlsMode('orbit')`. */
  const StartupControls := ToggleControlsMode(Controls(true, false), "orbit")

  /** After any sequence of button presses exactly one controller is
      enabled, and it is the one the last press chose. */
  lemma {:induction false} ExactlyOneController(modes: seq<string>)
    requires |modes| > 0
    ensures var c := ApplyControls(StartupControls, modes);
      c.orbitEnabled != c.firstPersonEnabled && (c.orbitEnabled <==> modes[|modes| - 1] == "orbit")
  {
    var prefix := modes[..|modes| - 1];
    assert modes == prefix + [modes[|modes| - 1]];
    ApplyControlsAppend(StartupControls, prefix, modes[|modes| - 1]);
  }

  function ApplyControls(c: Controls, modes: seq<string>): Controls
    decreases |modes|
  {
    if modes == [] then c else ApplyControls(ToggleControlsMode(c, modes[0]), modes[1..])
  }

  lemma {:induction false} ApplyControlsAppend(c: Controls, modes: seq<string>, last: string)
    ensures ApplyControls(c, modes + [last]) == ToggleControlsMode(ApplyControls(c, modes), last)
    decreases |modes|
  {
    if modes == [] {
      assert modes + [last] == [last];
    } else {
      assert (modes + [last])[1..] == modes[1..] + [last];
      ApplyControlsAppend(ToggleControlsMode(c, modes[0]), modes[1..], last);
    }
  }

  /** The lighting state the mode switch writes: the daylight flag, how many
      `requestAnimationFrame` chains of `animateDaylight` are running, and
      what `setStaticLight` sets (sun position and the three intensities). */
  datatype Lighting = Lighting(
    useDaylight: bool,
    daylightLoops: nat,
    dayTime: real,
    sunPosition: Vec3,
    sunIntensity: real,
    ambientIntensity: real,
    hemiIntensity: real)

  /** setStaticLight. */
  function SetStaticLight(l: Lighting): Lighting {
    l.(sunPosition := Vec3(50.0, 70.0, 70.0), sunIntensity := 0.6,
       ambientIntensity := 1.0, hemiIntensity := 1.0)
  }

  /** toggleLightMode, as written: "daylight" sets the flag and calls
      `animateDaylight` on the spot. With the flag already set, that call
      takes one step of the time of day, and it always schedules itself
      again, so each call starts one more animation chain. Any other mode
      clears the flag and restores the static light, and the running chains
      go on idling. */
  function ToggleLightMode(l: Lighting, mode: string): (r: Lighting)
    ensures r.useDaylight <==> mode == "daylight"
    ensures mode == "daylight" ==> r.daylightLoops == l.daylightLoops + 1
    ensures mode == "daylight" ==> r.dayTime == AdvanceDayTime(l.dayTime)
    ensures mode != "daylight" ==> r == SetStaticLight(l).(useDaylight := false)
  {
    if mode == "daylight" then
      l.(useDaylight := true, daylightLoops := l.daylightLoops + 1, dayTime := AdvanceDayTime(l.dayTime))
    else SetStaticLight(l.(useDaylight := false))
  }

  /** One step of `animateDaylight` on the time of day: add 0.001 and wrap
      back to 0 once past 1. */
  function AdvanceDayTime(t: real): (r: real)
    ensures 0.0 <= t <= 1.0 ==> 0.0 <= r <= 1.0
    ensures t <= 0.999 ==> r == t + 0.001
    ensures t > 0.999 ==> r == 0.0
  {
    var next := t + 0.001;
    if next > 1.0 then 0.0 else next
  }

  /** One animation frame: every running chain calls `animateDaylight` once,
      and each call advances the time of day while daylight is on. Short of
      the wrap, the time moves by one step per running chain. */
  function Frame(l: Lighting): (r: Lighting)
    ensures r.daylightLoops == l.daylightLoops && r.useDaylight == l.useDaylight
    ensures !l.useDaylight || l.daylightLoops == 0 ==> r.dayTime == l.dayTime
    ensures l.useDaylight && l.dayTime + l.daylightLoops as real * 0.001 <= 1.0 ==>
      r.dayTime == l.dayTime + l.daylightLoops as real * 0.001
    ensures 0.0 <= l.dayTime <= 1.0 ==> 0.0 <= r.dayTime <= 1.0
  {
    l.(dayTime := if l.useDaylight then AdvanceBy(l.dayTime, l.daylightLoops) else l.dayTime)
  }

  /** `n` steps of the time of day in a row. */
  function AdvanceBy(t: real, n: nat): (r: real)
    ensures n == 0 ==> r == t
    ensures t + n as real * 0.001 <= 1.0 ==> r == t + n as real * 0.001
    ensures 0.0 <= t <= 1.0 ==> 0.0 <= r <= 1.0
  {
    if n == 0 then t else AdvanceDayTime(AdvanceBy(t, n - 1))
  }

  /** Start-up state: static light, no animation chain. */
  const StartupLighting := SetStaticLight(Lighting(false, 0, 0.0, Vec3(50.0, 70.0, 70.0), 0.6, 1.0, 1.0))

  function ApplyLight(l: Lighting, modes: seq<string>, toggle: (Lighting, string) -> Lighting): Lighting
    decreases |modes|
  {
    if modes == [] then l else ApplyLight(toggle(l, modes[0]), modes[1..], toggle)
  }

  /** `n` presses of the same button. */
  function Presses(mode: string, n: nat): (r: seq<string>)
    ensures |r| == n && forall i :: 0 <= i < n ==> r[i] == mode
  {
    if n == 0 then [] else [mode] + Presses(mode, n - 1)
  }

  /** As written, every press of "Daylight Simulation" adds one animation
      chain: after `n` presses, `n` more chains run than before. */
  lemma {:induction false} DaylightPressesStackLoops(l: Lighting, n: nat)
    ensures ApplyLight(l, Presses("daylight", n), ToggleLightMode).daylightLoops == l.daylightLoops + n
    decreases n
  {
    if n > 0 {
      assert Presses("daylight", n)[1..] == Presses("daylight", n - 1);
      DaylightPressesStackLoops(ToggleLightMode(l, "daylight"), n - 1);
    }
  }

  /** Pressing "Daylight Simulation" twice leaves two animation chains
      running, each advancing the time of day per frame, so the day runs at
      twice the speed: each press takes one step on the spot and the frame
      takes two more. */
  lemma DaylightTwiceStacksLoops()
    ensures var l := ApplyLight(StartupLighting, ["daylight", "daylight"], ToggleLightMode);
      l.daylightLoops == 2 && l.dayTime == 0.002 && Frame(l).dayTime == 0.004
  {
    assert ["daylight", "daylight"][1..] == ["daylight"];
    assert ["daylight"][1..] == [];
  }

  /** With the intended switch the same two presses leave one chain: the
      first press starts it with its step on the spot, the second changes
      nothing, and a frame advances the time of day by the single step. */
  lemma DaylightTwiceSingleLoop()
    ensures var l := ApplyLight(StartupLighting, ["daylight", "daylight"], ToggleLightModeSingleLoop);
      l.daylightLoops == 1 && l.dayTime == 0.001 && Frame(l).dayTime == 0.002
  {
    assert ["daylight", "daylight"][1..] == ["daylight"];
    assert ["daylight"][1..] == [];
  }

  /** The intended switch: call `animateDaylight`, which takes its first
      step and starts the chain, only when no chain runs yet; a chain that
      is already running picks the flag up at the next frame. */
  function ToggleLightModeSingleLoop(l: Lighting, mode: string): (r: Lighting)
    ensures r.useDaylight <==> mode == "daylight"
    ensures mode == "daylight" ==> r.daylightLoops == (if l.daylightLoops == 0 then 1 else l.daylightLoops)
    ensures mode == "daylight" ==> r.dayTime == (if l.daylightLoops == 0 then AdvanceDayTime(l.dayTime) else l.dayTime)
    ensures mode != "daylight" ==> r == SetStaticLight(l).(useDaylight := false)
  {
    if mode != "daylight" then SetStaticLight(l.(useDaylight := false))
    else if l.daylightLoops == 0 then
      l.(useDaylight := true, daylightLoops := 1, dayTime := AdvanceDayTime(l.dayTime))
    else l.(useDaylight := true)
  }

  /** With the intended switch, at most one animation chain ever runs,
      whatever buttons are pressed, and one runs once daylight was chosen. */
  lemma {:induction false} SingleLoopAtMostOne(l: Lighting, modes: seq<string>)
    requires l.daylightLoops <= 1
    ensures ApplyLight(l, modes, ToggleLightModeSingleLoop).daylightLoops <= 1
    ensures "daylight" in modes ==> ApplyLight(l, modes, ToggleLightModeSingleLoop).daylightLoops == 1
    decreases |modes|
  {
    if modes != [] {
      var l' := ToggleLightModeSingleLoop(l, modes[0]);
      SingleLoopAtMostOne(l', modes[1..]);
      if "daylight" in modes && modes[0] != "daylight" {
        assert "daylight" in modes[1..] by {
          var k :| 0 <= k < |modes| && modes[k] == "daylight";
          assert modes[1..][k - 1] == "daylight";
        }
      }
      if modes[0] == "daylight" {
        KeepsOneLoop(l', modes[1..]);
      }
    }
  }

  /** Once a chain runs under the intended switch, it stays the only one. */
  lemma {:induction false} KeepsOneLoop(l: Lighting, modes: seq<string>)
    requires l.daylightLoops == 1
    ensures ApplyLight(l, modes, ToggleLightModeSingleLoop).daylightLoops == 1
    decreases |modes|
  {
    if modes != [] {
      KeepsOneLoop(ToggleLightModeSingleLoop(l, modes[0]), modes[1..]);
    }
  }

  /** As written, the light mode is whatever the last press chose. */
  lemma {:induction false} LastPressDecidesLight(l: Lighting, modes: seq<string>)
    requires |modes| > 0
    ensures ApplyLight(l, modes, ToggleLightMode).useDaylight <==> modes[|modes| - 1] == "daylight"
    decreases |modes|
  {
    if |modes| > 1 {
      LastPressDecidesLight(ToggleLightMode(l, modes[0]), modes[1..]);
    } else {
      assert modes[1..] == [];
    }
  }
}
