/**
 * The driver app's location throttle (driver/hooks/useLocationTracking.tsx):
 * `shouldUpdateLocation` accepts a new fix when there is no previous location,
 * when more than `timeInterval` ms have passed since the last accepted fix, or
 * when the fix moved more than `distanceInterval` metres; every acceptance
 * stamps `lastUpdateTime`. The watch callback forwards accepted fixes to the
 * driver context only while the driver is online.
 *
 * The clock is a parameter, and so is the haversine distance: a non-negative
 * function of the two coordinate pairs. The `location` the callback compares
 * against is passed in explicitly, because the callback reads the value it
 * captured when the effect ran, not the current state.
 */
module LocationTracking {
  import opened Wrappers

  /** `LocationData`. */
  datatype Fix = Fix(latitude: real, longitude: real, heading: Option<real>, speed: Option<real>, accuracy: Option<real>, timestamp: int)

  type Metres = d: real | 0.0 <= d witness 0.0

  /** `calculateDistance(lat1, lon1, lat2, lon2)`. */
  type Haversine = (real, real, real, real) -> Metres

  const DefaultDistanceInterval: real := 50.0
  const DefaultTimeInterval: int := 5000

  /** The outcome of the gate: whether the fix is accepted, and the new `lastUpdateTime.current`. */
  datatype Decision = Decision(accept: bool, lastUpdateTime: int)

  /**
   * `shouldUpdateLocation` as a function of the captured previous location,
   * the new fix, the clock and the old `lastUpdateTime`. Both comparisons are
   * strict; the distance is consulted only when the time test fails.
   */
  function Gate(previous: Option<Fix>, next: Fix, now: int, last: int,
                timeInterval: int, distanceInterval: real, haversine: Haversine): (d: Decision)
    ensures previous.None? ==> d.accept
    ensures now - last > timeInterval ==> d.accept
    ensures previous.Some? && now - last <= timeInterval ==>
      (d.accept <==> haversine(previous.value.latitude, previous.value.longitude, next.latitude, next.longitude) > distanceInterval)
    ensures d.accept ==> d.lastUpdateTime == now
    ensures !d.accept ==> d.lastUpdateTime == last
  {
    if previous.None? || now - last > timeInterval then Decision(true, now)
    else if haversine(previous.value.latitude, previous.value.longitude, next.latitude, next.longitude) > distanceInterval
    then Decision(true, now)
    else Decision(false, last)
  }

  /** What a fix makes the hook emit: the `onLocationUpdate` argument and the `updateDriverLocation` coordinates. */
  datatype Emitted = Emitted(notified: Option<Fix>, sent: Option<(real, real)>)

  class LocationTracker {
    const distanceInterval: real
    const timeInterval: int
    /** `lastUpdateTime.current`. */
    var lastUpdateTime: int
    /** The `location` state. */
    var location: Option<Fix>

    /** The hook's options: an option left undefined takes its default (50 m, 5000 ms). */
    constructor (distanceInterval: Option<real>, timeInterval: Option<int>)
      ensures this.distanceInterval == if distanceInterval.Some? then distanceInterval.value else DefaultDistanceInterval
      ensures this.timeInterval == if timeInterval.Some? then timeInterval.value else DefaultTimeInterval
      ensures lastUpdateTime == 0 && location == None
    {
      this.distanceInterval := if distanceInterval.Some? then distanceInterval.value else DefaultDistanceInterval;
      this.timeInterval := if timeInterval.Some? then timeInterval.value else DefaultTimeInterval;
      lastUpdateTime := 0;
      location := None;
    }

    /** `shouldUpdateLocation(newLocation)`, comparing against the captured `previous`. */
    method ShouldUpdateLocation(previous: Option<Fix>, next: Fix, now: int, haversine: Haversine) returns (accept: bool)
      modifies this`lastUpdateTime
      ensures Decision(accept, lastUpdateTime) == Gate(previous, next, now, old(lastUpdateTime), timeInterval, distanceInterval, haversine)
    {
      var timeDiff := now - lastUpdateTime;
      if previous.None? || timeDiff > timeInterval {
        lastUpdateTime := now;
        return true;
      }
      var distance := haversine(previous.value.latitude, previous.value.longitude, next.latitude, next.longitude);
      if distance > distanceInterval {
        lastUpdateTime := now;
        return true;
      }
      return false;
    }

    /**
     * The first fix read when tracking starts: it becomes the location and is
     * always reported, and sent to the driver context iff online. It does not
     * touch `lastUpdateTime`.
     */
    method InitialFix(fix: Fix, isOnline: bool) returns (out: Emitted)
      modifies this`location
      ensures location == Some(fix)
      ensures out.notified == Some(fix)
      ensures out.sent == if isOnline then Some((fix.latitude, fix.longitude)) else None
    {
      location := Some(fix);
      out := Emitted(Some(fix), None);
      if isOnline {
        out := out.(sent := Some((fix.latitude, fix.longitude)));
      }
    }

    /**
     * The `watchPositionAsync` callback: a fix the gate accepts becomes the
     * location, is reported, and is sent on iff online; a rejected fix changes
     * nothing and emits nothing.
     */
    method OnWatchedFix(captured: Option<Fix>, next: Fix, now: int, isOnline: bool, haversine: Haversine) returns (out: Emitted)
      modifies this`lastUpdateTime, this`location
      ensures var d := Gate(captured, next, now, old(lastUpdateTime), timeInterval, distanceInterval, haversine);
        && lastUpdateTime == d.lastUpdateTime
        && location == (if d.accept then Some(next) else old(location))
        && out.notified == (if d.accept then Some(next) else None)
        && out.sent == (if d.accept && isOnline then Some((next.latitude, next.longitude)) else None)
    {
      out := Emitted(None, None);
      var accept := ShouldUpdateLocation(captured, next, now, haversine);
      if accept {
        location := Some(next);
        out := out.(notified := Some(next));
        if isOnline {
          out := out.(sent := Some((next.latitude, next.longitude)));
        }
      }
    }
  }
}
