/**
 * The driver-location relay of socket/server.js: a registry `drivers` from
 * driver id to last reported position, the per-message dispatch of the
 * WebSocket handler, and the two read-only HTTP reports.
 *
 * Transport is replaced by values: an inbound frame is an `Inbound` (JSON
 * parsing is not modelled: a frame that does not parse is `Malformed`), and the
 * frames a message makes the relay send are returned as a sequence. The clock
 * (`Date.now()`) and the geodesic distance are parameters.
 */
module Relay {
  import opened Wrappers
  import opened Nearby

  /** The `data` object of a `locationUpdate` frame. */
  datatype Coords = Coords(latitude: real, longitude: real)

  /**
   * A parsed inbound frame. `kind` is its `type` field; a field the frame does
   * not carry reads as a value no handler matches (`role`), or as `None` where
   * the handler would dereference it (`data`).
   */
  datatype Inbound =
    | Malformed
    | Envelope(kind: string, role: string, driver: string, data: Option<Coords>, latitude: real, longitude: real)

  datatype Outbound =
    | NearbyDrivers(drivers: seq<NearbyDriver>, count: nat)
    | Pong(timestamp: int)

  /** The body of `GET /health`; the ISO timestamp is a parameter. */
  datatype Health = Health(status: string, timestamp: string, activeConnections: nat, activeDrivers: nat)

  /** The body of `GET /drivers`. */
  datatype DriversReport = DriversReport(drivers: nat, locations: map<string, Pos>)

  /**
   * The one id under which an assignment to a plain JavaScript object adds no
   * own property: `drivers["__proto__"] = value` runs the inherited setter and
   * replaces the object's prototype instead.
   */
  const ProtoKey: string := "__proto__"

  /** Whether a `locationUpdate` frame with these fields adds or overwrites an own entry of `drivers`. */
  predicate Stores(role: string, driver: string, data: Option<Coords>)
  {
    role == "driver" && data.Some? && driver != ProtoKey
  }

  /**
   * The registry (the own enumerable properties of `drivers`) after a
   * `locationUpdate` frame with the given fields: a `"driver"` frame with a
   * `data` object stores exactly the new position under its id (last write
   * wins, no history); any other frame leaves it as it was. A driver frame
   * without `data` throws before the assignment, so it changes nothing either,
   * and neither does one for the id `"__proto__"`, which only swaps the
   * prototype (not modelled) and adds no own key.
   */
  function ApplyLocationUpdate(m: map<string, Pos>, role: string, driver: string, data: Option<Coords>, now: int): (m': map<string, Pos>)
    ensures Stores(role, driver, data) ==>
      driver in m' && m'[driver] == Pos(data.value.latitude, data.value.longitude, now)
    ensures forall k :: k != driver ==> (k in m' <==> k in m) && (k in m ==> m'[k] == m[k])
    ensures !Stores(role, driver, data) ==> m' == m
    ensures driver == ProtoKey ==> m' == m
    ensures ProtoKey !in m ==> ProtoKey !in m'
    ensures m.Keys <= m'.Keys
    ensures |m'| == if Stores(role, driver, data) && driver !in m then |m| + 1 else |m|
  {
    if role == "driver" && data.Some? && driver != ProtoKey then
      var m' := m[driver := Pos(data.value.latitude, data.value.longitude, now)];
      assert m'.Keys == m.Keys + {driver};
      m'
    else
      m
  }

  /** Two updates for the same driver: the second one is all that remains of either. */
  lemma LastWriteWins(m: map<string, Pos>, driver: string, first: Coords, second: Coords, t1: int, t2: int)
    ensures ApplyLocationUpdate(ApplyLocationUpdate(m, "driver", driver, Some(first), t1), "driver", driver, Some(second), t2)
         == ApplyLocationUpdate(m, "driver", driver, Some(second), t2)
  {
  }

  class RelayServer {
    /** The global `drivers` object. */
    var drivers: map<string, Pos>
    /** MAX_DISTANCE, read once at start-up. */
    const maxDistance: nat

    constructor (maxDistance: Option<nat>)
      ensures drivers == map[]
      ensures this.maxDistance == if maxDistance.Some? then maxDistance.value else DefaultMaxDistance
    {
      drivers := map[];
      this.maxDistance := if maxDistance.Some? then maxDistance.value else DefaultMaxDistance;
    }

    /** `handleLocationUpdate(ws, data)`. */
    method HandleLocationUpdate(role: string, driver: string, data: Option<Coords>, now: int)
      modifies this
      ensures drivers == ApplyLocationUpdate(old(drivers), role, driver, data, now)
    {
      if role == "driver" {
        if data.Some? {
          if driver != ProtoKey {
            drivers := drivers[driver := Pos(data.value.latitude, data.value.longitude, now)];
          }
          // else: the assignment replaces the prototype of `drivers` and adds no own key
        }
      }
    }

    /**
     * `handleRideRequest(ws, data)`: a `"user"` frame gets exactly one
     * `nearbyDrivers` reply listing the drivers within `maxDistance`, nearest
     * first, with `count` its length; any other role gets nothing.
     */
    method HandleRideRequest(role: string, lat: real, lon: real, dist: Metric) returns (reply: Option<Outbound>)
      ensures reply.Some? <==> role == "user"
      ensures reply.Some? ==>
        && reply.value.NearbyDrivers?
        && reply.value.count == |reply.value.drivers|
        && IsNearbyResult(drivers, lat, lon, maxDistance, dist, reply.value.drivers)
    {
      reply := None;
      if role == "user" {
        var es := Entries(drivers);
        var nearby := FindNearby(lat, lon, maxDistance, dist, es);
        FindNearbyCorrect(drivers, lat, lon, maxDistance, dist, es);
        reply := Some(NearbyDrivers(nearby, |nearby|));
      }
    }

    /**
     * The `message` handler: dispatch on `type`. Only `locationUpdate` changes
     * the registry and never removes an entry; `requestRide` and `ping` reply
     * at most once; an unknown type or a frame that fails to parse is dropped
     * without a reply.
     */
    method HandleMessage(msg: Inbound, now: int, dist: Metric) returns (replies: seq<Outbound>)
      modifies this
      ensures old(drivers).Keys <= drivers.Keys
      ensures msg.Envelope? && msg.kind == "locationUpdate" ==>
        replies == [] && drivers == ApplyLocationUpdate(old(drivers), msg.role, msg.driver, msg.data, now)
      ensures msg.Envelope? && msg.kind == "requestRide" ==>
        && drivers == old(drivers)
        && (msg.role == "user" <==> |replies| == 1)
        && (msg.role != "user" ==> replies == [])
        && (msg.role == "user" ==>
              && replies[0].NearbyDrivers?
              && replies[0].count == |replies[0].drivers|
              && IsNearbyResult(drivers, msg.latitude, msg.longitude, maxDistance, dist, replies[0].drivers))
      ensures msg.Envelope? && msg.kind == "ping" ==> replies == [Pong(now)] && drivers == old(drivers)
      ensures (msg.Malformed? || msg.kind !in {"locationUpdate", "requestRide", "ping"}) ==>
        replies == [] && drivers == old(drivers)
    {
      replies := [];
      if msg.Malformed? {
        return;
      }
      match msg.kind {
        case "locationUpdate" =>
          HandleLocationUpdate(msg.role, msg.driver, msg.data, now);
        case "requestRide" =>
          var reply := HandleRideRequest(msg.role, msg.latitude, msg.longitude, dist);
          if reply.Some? {
            replies := [reply.value];
          }
        case "ping" =>
          replies := [Pong(now)];
        case _ =>
      }
    }

    /** The `close` handler only logs: the driver's entry stays in the registry. */
    method HandleClose()
      ensures drivers == old(drivers)
    {
    }

    /** `GET /health`: `activeDrivers` is the number of registered drivers. */
    function HealthReport(activeConnections: nat, timestamp: string): (h: Health)
      reads this
      ensures h.status == "healthy" && h.activeConnections == activeConnections
      ensures h.activeDrivers == |drivers.Keys|
    {
      Health("healthy", timestamp, activeConnections, |drivers|)
    }

    /** `GET /drivers`: the count and a copy of the whole registry. */
    function DriversListing(): (d: DriversReport)
      reads this
      ensures d.locations == drivers && d.drivers == |d.locations.Keys|
    {
      DriversReport(|drivers|, drivers)
    }
  }
}
