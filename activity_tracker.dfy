/** pages/ActivityTrackerPage.tsx: a walk is tracked by appending each reported
    position to the path and adding the distance from the previous point, by
    counting seconds, and by keeping the calories at `MET x weight x hours` while
    tracking. The great-circle distance is an abstract non-negative function. */
module ActivityTracker {
  import opened Wrappers
  import Strings

  /** `LatLngTuple` */
  datatype LatLng = LatLng(lat: real, lng: real)

  datatype Intensity = Low | Moderate | High

  /** `MET_VALUES[intensity]` */
  function Met(i: Intensity): (m: real)
    ensures m > 0.0
    ensures i == Low ==> m == 2.5
    ensures i == Moderate ==> m == 4.0
    ensures i == High ==> m == 7.0
  {
    match i
    case Low => 2.5
    case Moderate => 4.0
    case High => 7.0
  }

  /** `met * weight * (elapsedTime / 3600)` */
  function Calories(met: real, weight: real, elapsed: nat): real
  {
    met * weight * (elapsed as real / 3600.0)
  }

  /** No time, no calories; with a positive weight every further second burns more. */
  lemma CaloriesGrow(i: Intensity, weight: real, e1: nat, e2: nat)
    ensures Calories(Met(i), weight, 0) == 0.0
    ensures weight > 0.0 && e1 < e2 ==> Calories(Met(i), weight, e1) < Calories(Met(i), weight, e2)
  {
    var mw := Met(i) * weight;
    assert Calories(Met(i), weight, 0) == mw * 0.0;
    if weight > 0.0 && e1 < e2 {
      assert mw > 0.0;
      var h1 := e1 as real / 3600.0;
      var h2 := e2 as real / 3600.0;
      assert h1 < h2;
      assert mw * h1 < mw * h2;
    }
  }

  /** The running distance as the page builds it: each new point adds the distance
      from the point before it. */
  function PathDistance(dist: (LatLng, LatLng) -> real, path: seq<LatLng>): real
  {
    if |path| < 2 then 0.0
    else PathDistance(dist, path[..|path| - 1]) + dist(path[|path| - 2], path[|path| - 1])
  }

  /** The sum over consecutive pairs of the path, first pair first. */
  function PairSum(dist: (LatLng, LatLng) -> real, path: seq<LatLng>): real
  {
    if |path| < 2 then 0.0 else dist(path[0], path[1]) + PairSum(dist, path[1..])
  }

  /** The running distance is the sum over all consecutive pairs of the path. */
  lemma {:induction false} PathDistanceIsPairSum(dist: (LatLng, LatLng) -> real, path: seq<LatLng>)
    ensures PathDistance(dist, path) == PairSum(dist, path)
    decreases |path|
  {
    if |path| >= 3 {
      var init := path[..|path| - 1];
      PathDistanceIsPairSum(dist, init);
      PathDistanceIsPairSum(dist, path[1..]);
      PathDistanceIsPairSum(dist, init[1..]);
      assert path[1..][..|path[1..]| - 1] == init[1..];
      assert init[0] == path[0] && init[1] == path[1];
    }
  }

  ghost predicate NonNegative(dist: (LatLng, LatLng) -> real)
  {
    forall a, b :: dist(a, b) >= 0.0
  }

  /** With a non-negative pairwise distance the total is non-negative and never
      decreases as the path grows. */
  lemma {:induction false} PathDistanceGrows(dist: (LatLng, LatLng) -> real, path: seq<LatLng>, p: LatLng)
    requires NonNegative(dist)
    ensures PathDistance(dist, path) >= 0.0
    ensures PathDistance(dist, path + [p]) >= PathDistance(dist, path)
    decreases |path|
  {
    if |path| >= 2 {
      PathDistanceGrows(dist, path[..|path| - 1], path[|path| - 1]);
    }
    assert (path + [p])[..|path|] == path;
  }

  /** `formatTime`: hours, minutes and seconds, each padded to two digits. */
  function FormatTime(seconds: nat): string
  {
    Strings.PadTwo(seconds / 3600) + ":" + Strings.PadTwo(seconds % 3600 / 60) + ":" + Strings.PadTwo(seconds % 60)
  }

  /** Reads an `h:mm:ss` text back: hours before the last six characters. */
  function ParseTime(t: string): int
  {
    if |t| < 8 then 0
    else Strings.DigitsValue(t[..|t| - 6]) * 3600
         + Strings.DigitsValue(t[|t| - 5..|t| - 3]) * 60
         + Strings.DigitsValue(t[|t| - 2..])
  }

  /** The minutes and seconds fields are below 60 and the three fields add up to
      the input; the text reads back as the same number of seconds, has its colons
      at the fixed places from the end, and is exactly 8 characters below 100 hours. */
  lemma FormatTimeFields(seconds: nat)
    ensures seconds % 3600 / 60 < 60 && seconds % 60 < 60
    ensures seconds / 3600 * 3600 + seconds % 3600 / 60 * 60 + seconds % 60 == seconds
    ensures |FormatTime(seconds)| >= 8
    ensures FormatTime(seconds)[|FormatTime(seconds)| - 3] == ':' && FormatTime(seconds)[|FormatTime(seconds)| - 6] == ':'
    ensures ParseTime(FormatTime(seconds)) == seconds
    ensures seconds < 360000 <==> |FormatTime(seconds)| == 8
  {
    var h := seconds / 3600;
    var m := seconds % 3600 / 60;
    var s := seconds % 60;
    Strings.PadTwoValue(h);
    Strings.PadTwoValue(m);
    Strings.PadTwoValue(s);
    var ph, pm, ps := Strings.PadTwo(h), Strings.PadTwo(m), Strings.PadTwo(s);
    var t := FormatTime(seconds);
    assert t == ph + ":" + pm + ":" + ps;
    assert |pm| == 2 && |ps| == 2;
    assert t[..|t| - 6] == ph;
    assert t[|t| - 5..|t| - 3] == pm;
    assert t[|t| - 2..] == ps;
    if h >= 100 {
      PadTwoLong(h);
    }
  }

  /** A number of 100 or more takes more than two digits. */
  lemma {:induction false} PadTwoLong(n: nat)
    requires n >= 100
    ensures |Strings.PadTwo(n)| > 2
  {
    assert Strings.DecimalString(n) == Strings.DecimalString(n / 10) + [Strings.DigitChar(n % 10)];
    assert |Strings.DecimalString(n / 10)| >= 2 by {
      assert Strings.DecimalString(n / 10) == Strings.DecimalString(n / 100) + [Strings.DigitChar(n / 10 % 10)];
    }
  }

  /** The pace shown: minutes per kilometre, or none (shown as '0.00') before any
      distance is covered. */
  datatype Pace = NoPace | MinutesPerKm(value: real)

  function PaceOf(elapsed: nat, distance: real): (p: Pace)
    ensures p.MinutesPerKm? <==> distance > 0.0
    ensures p.MinutesPerKm? ==> p.value * distance * 60.0 == elapsed as real && p.value >= 0.0
  {
    if distance > 0.0 then MinutesPerKm(elapsed as real / 60.0 / distance) else NoPace
  }

  const LocationErrorMessage: string := "Could not get location. Please enable location services."

  /** The page's state and refs. Watch and interval handles are numbered by the
      page; `clearedWatches`/`clearedTimers` record the `clearWatch` and
      `clearInterval` calls. */
  class Tracker {
    const dist: (LatLng, LatLng) -> real   // `haversineDistance`
    var isTracking: bool
    var path: seq<LatLng>
    var distance: real
    var elapsedTime: nat
    var calories: real
    var error: Option<string>
    var weight: real
    var intensity: Intensity
    var watch: Option<nat>       // `watchIdRef`
    var timer: Option<nat>       // `timerIdRef`
    var mapShown: bool           // `mapRef`
    var handles: nat
    var clearedWatches: seq<nat>
    var clearedTimers: seq<nat>

    ghost predicate Valid()
      reads this
    {
      && NonNegative(dist)
      && distance == PathDistance(dist, path)
      && (isTracking ==> calories == Calories(Met(intensity), weight, elapsedTime))
      && (isTracking <==> timer.Some?)
      && (isTracking <==> watch.Some?)
      && (timer.Some? ==> timer.value < handles) && (watch.Some? ==> watch.value < handles)
    }

    constructor (dist: (LatLng, LatLng) -> real)
      requires NonNegative(dist)
      ensures Valid()
      ensures this.dist == dist && !isTracking && path == [] && distance == 0.0 && elapsedTime == 0
      ensures calories == 0.0 && error == None && weight == 70.0 && intensity == Moderate
      ensures watch == None && timer == None && !mapShown
      ensures clearedWatches == [] && clearedTimers == []
    {
      this.dist := dist;
      isTracking := false;
      path := [];
      distance := 0.0;
      elapsedTime := 0;
      calories := 0.0;
      error := None;
      weight := 70.0;
      intensity := Moderate;
      watch := None;
      timer := None;
      mapShown := false;
      handles := 0;
      clearedWatches := [];
      clearedTimers := [];
    }

    /** The mount effect: a saved weight or intensity replaces the default. */
    method LoadSettings(savedWeight: Option<real>, savedIntensity: Option<Intensity>)
      requires Valid() && !isTracking
      modifies this
      ensures Valid()
      ensures weight == (if savedWeight.Some? then savedWeight.value else old(weight))
      ensures intensity == (if savedIntensity.Some? then savedIntensity.value else old(intensity))
      ensures isTracking == old(isTracking) && calories == old(calories) && path == old(path)
      ensures distance == old(distance) && elapsedTime == old(elapsedTime) && error == old(error)
      ensures watch == old(watch) && timer == old(timer) && mapShown == old(mapShown) && handles == old(handles)
      ensures clearedWatches == old(clearedWatches) && clearedTimers == old(clearedTimers)
    {
      if savedWeight.Some? {
        weight := savedWeight.value;
      }
      if savedIntensity.Some? {
        intensity := savedIntensity.value;
      }
    }

    /** `handleWeightChange`; the calorie effect reruns while tracking. */
    method SetWeight(w: real)
      requires Valid()
      modifies this
      ensures Valid()
      ensures weight == w && intensity == old(intensity) && elapsedTime == old(elapsedTime)
      ensures isTracking == old(isTracking) && path == old(path) && distance == old(distance)
      ensures isTracking ==> calories == Calories(Met(intensity), w, elapsedTime)
      ensures !isTracking ==> calories == old(calories)
      ensures error == old(error) && watch == old(watch) && timer == old(timer) && mapShown == old(mapShown)
      ensures handles == old(handles) && clearedWatches == old(clearedWatches) && clearedTimers == old(clearedTimers)
    {
      weight := w;
      if isTracking {
        calories := Calories(Met(intensity), weight, elapsedTime);
      }
    }

    /** `handleIntensityChange`; the calorie effect reruns while tracking. */
    method SetIntensity(i: Intensity)
      requires Valid()
      modifies this
      ensures Valid()
      ensures intensity == i && weight == old(weight) && elapsedTime == old(elapsedTime)
      ensures isTracking == old(isTracking) && path == old(path) && distance == old(distance)
      ensures isTracking ==> calories == Calories(Met(i), weight, elapsedTime)
      ensures !isTracking ==> calories == old(calories)
      ensures error == old(error) && watch == old(watch) && timer == old(timer) && mapShown == old(mapShown)
      ensures handles == old(handles) && clearedWatches == old(clearedWatches) && clearedTimers == old(clearedTimers)
    {
      intensity := i;
      if isTracking {
        calories := Calories(Met(intensity), weight, elapsedTime);
      }
    }

    /** `startTracking` (offered only while not tracking): reset the counters and
        the path, clear the error, start the interval and the position watch. */
    method Start()
      requires Valid() && !isTracking
      modifies this
      ensures Valid()
      ensures isTracking && path == [] && distance == 0.0 && elapsedTime == 0 && calories == 0.0
      ensures error == None && timer == Some(old(handles)) && watch == Some(old(handles) + 1)
      ensures handles == old(handles) + 2
      ensures weight == old(weight) && intensity == old(intensity) && mapShown == old(mapShown)
      ensures clearedWatches == old(clearedWatches) && clearedTimers == old(clearedTimers)
    {
      error := None;
      distance := 0.0;
      path := [];
      calories := 0.0;
      elapsedTime := 0;
      isTracking := true;
      timer := Some(handles);
      watch := Some(handles + 1);
      handles := handles + 2;
      calories := Calories(Met(intensity), weight, elapsedTime);
      assert calories == Met(intensity) * weight * 0.0;
    }

    /** One second of the interval: exactly one more second, and the calories
        follow. */
    method Tick()
      requires Valid() && timer.Some?
      modifies this
      ensures Valid()
      ensures elapsedTime == old(elapsedTime) + 1
      ensures calories == Calories(Met(intensity), weight, elapsedTime)
      ensures weight > 0.0 ==> calories > old(calories)
      ensures isTracking == old(isTracking) && path == old(path) && distance == old(distance)
      ensures weight == old(weight) && intensity == old(intensity) && error == old(error)
      ensures watch == old(watch) && timer == old(timer) && mapShown == old(mapShown) && handles == old(handles)
      ensures clearedWatches == old(clearedWatches) && clearedTimers == old(clearedTimers)
    {
      elapsedTime := elapsedTime + 1;
      CaloriesGrow(intensity, weight, elapsedTime - 1, elapsedTime);
      calories := Calories(Met(intensity), weight, elapsedTime);
    }

    /** The position callback: append the point; from the second point on, add
        the distance from the previous one. The map is created or moved. */
    method Position(p: LatLng)
      requires Valid() && watch.Some?
      modifies this
      ensures Valid()
      ensures path == old(path) + [p]
      ensures distance == old(distance) + (if |old(path)| >= 1 then dist(old(path)[|old(path)| - 1], p) else 0.0)
      ensures distance >= old(distance)
      ensures mapShown
      ensures isTracking == old(isTracking) && elapsedTime == old(elapsedTime) && calories == old(calories)
      ensures error == old(error) && watch == old(watch) && timer == old(timer)
      ensures weight == old(weight) && intensity == old(intensity) && handles == old(handles)
      ensures clearedWatches == old(clearedWatches) && clearedTimers == old(clearedTimers)
    {
      var updated := path + [p];
      PathDistanceGrows(dist, path, p);
      if |updated| > 1 {
        var last := updated[|updated| - 2];
        assert updated[..|updated| - 1] == path;
        distance := distance + dist(last, p);
      }
      path := updated;
      mapShown := true;
    }

    /** `stopTracking`: stop, then clear and forget only those handles that are
        still held; a second call changes nothing. */
    method Stop()
      requires Valid()
      modifies this
      ensures Valid()
      ensures !isTracking && watch == None && timer == None && !mapShown
      ensures clearedWatches == old(clearedWatches) + (if old(watch).Some? then [old(watch).value] else [])
      ensures clearedTimers == old(clearedTimers) + (if old(timer).Some? then [old(timer).value] else [])
      ensures path == old(path) && distance == old(distance) && elapsedTime == old(elapsedTime)
      ensures calories == old(calories) && error == old(error)
      ensures weight == old(weight) && intensity == old(intensity) && handles == old(handles)
      ensures !old(isTracking) && !old(mapShown) ==>
                clearedWatches == old(clearedWatches) && clearedTimers == old(clearedTimers)
    {
      isTracking := false;
      if watch.Some? {
        clearedWatches := clearedWatches + [watch.value];
        watch := None;
      }
      if timer.Some? {
        clearedTimers := clearedTimers + [timer.value];
        timer := None;
      }
      mapShown := false;
    }

    /** The position error callback: show the message, then stop. */
    method PositionError()
      requires Valid() && watch.Some?
      modifies this
      ensures Valid()
      ensures error == Some(LocationErrorMessage)
      ensures !isTracking && watch == None && timer == None && !mapShown
      ensures clearedWatches == old(clearedWatches) + [old(watch).value]
      ensures clearedTimers == old(clearedTimers) + [old(timer).value]
      ensures path == old(path) && distance == old(distance) && elapsedTime == old(elapsedTime)
      ensures calories == old(calories) && weight == old(weight) && intensity == old(intensity)
      ensures handles == old(handles)
    {
      error := Some(LocationErrorMessage);
      Stop();
    }

    /** The pace the page shows for the current state. */
    function CurrentPace(): Pace
      reads this
    {
      PaceOf(elapsedTime, distance)
    }
  }
}
