/**
 * The driver app's offline action queue (driver/utils/offlineQueue.ts): actions
 * made while offline are appended to a stored queue; when the device is online
 * one pass executes every action, re-queues each failure with its retry count
 * raised by one while that count is below three, and drops the rest.
 *
 * AsyncStorage is the field `stored` (`None` when the key is absent), the
 * network check is a flag, and the outcome of each `api.post` is an oracle.
 */
module OfflineQueue {
  import opened Wrappers

  datatype ActionType =
    | UpdateLocation
    | UpdateStatus
    | CompleteRide
      /** A `type` string read back from storage that none of the cases name. */
    | Unrecognized(name: string)

  /** `payload` is kept opaque: its JSON text. */
  datatype QueuedAction = QueuedAction(id: string, kind: ActionType, payload: string, timestamp: int, retryCount: nat)

  /** Failures are re-queued only while `retryCount` is below this. */
  const MaxRetries: nat := 3

  /** `posts(a)` holds when the `api.post` that `a` issues resolves. */
  type PostOracle = QueuedAction -> bool

  /**
   * `executeAction(action)` completes without throwing: for the three known
   * types exactly when its request succeeds; an unrecognized type only logs a
   * warning, so it always completes.
   */
  function Execute(a: QueuedAction, posts: PostOracle): (ok: bool)
    ensures a.kind.Unrecognized? ==> ok
    ensures !a.kind.Unrecognized? ==> (ok <==> posts(a))
  {
    match a.kind
    case UpdateLocation => posts(a)
    case UpdateStatus => posts(a)
    case CompleteRide => posts(a)
    case Unrecognized(_) => true
  }

  /** The copy of a failed action that is put back: `{ ...action, retryCount: action.retryCount + 1 }`. */
  function Retried(a: QueuedAction): QueuedAction
  {
    a.(retryCount := a.retryCount + 1)
  }

  predicate Kept(a: QueuedAction, posts: PostOracle)
  {
    !Execute(a, posts) && a.retryCount < MaxRetries
  }

  /** `remainingActions` after one pass over `q`. */
  function Survivors(q: seq<QueuedAction>, posts: PostOracle): (r: seq<QueuedAction>)
    ensures |r| <= |q|
  {
    if q == [] then []
    else
      var last := q[|q| - 1];
      Survivors(q[..|q| - 1], posts) + if Kept(last, posts) then [Retried(last)] else []
  }

  /** The positions in `q` of the actions a pass keeps, in increasing order. */
  function KeptPositions(q: seq<QueuedAction>, posts: PostOracle): seq<nat>
  {
    if q == [] then []
    else
      KeptPositions(q[..|q| - 1], posts) + if Kept(q[|q| - 1], posts) then [|q| - 1] else []
  }

  /**
   * The survivors are the kept actions of `q`, in their original order, each
   * with its retry count raised by one: `idx` lists their positions, strictly
   * increasing, and every kept position is listed.
   */
  lemma {:induction false} SurvivorsInOrder(q: seq<QueuedAction>, posts: PostOracle)
    ensures var r, idx := Survivors(q, posts), KeptPositions(q, posts);
      && |idx| == |r|
      && (forall j :: 0 <= j < |idx| ==> idx[j] < |q| && Kept(q[idx[j]], posts) && r[j] == Retried(q[idx[j]]))
      && (forall j, k :: 0 <= j < k < |idx| ==> idx[j] < idx[k])
      && (forall i :: 0 <= i < |q| && Kept(q[i], posts) ==> i in idx)
  {
    if q != [] {
      var p := q[..|q| - 1];
      SurvivorsInOrder(p, posts);
      var rp, ip := Survivors(p, posts), KeptPositions(p, posts);
      assert forall j :: 0 <= j < |ip| ==> q[ip[j]] == p[ip[j]];
    }
  }

  /**
   * What one pass leaves: only failed actions, never one of unrecognized type,
   * each kept with its other fields unchanged and a retry count between 1 and
   * 3, and no more actions than it started with.
   */
  lemma {:induction false} SurvivorsBounds(q: seq<QueuedAction>, posts: PostOracle)
    ensures |Survivors(q, posts)| <= |q|
    ensures forall x :: x in Survivors(q, posts) ==>
      && (exists a :: a in q && !Execute(a, posts) && a.retryCount < MaxRetries && x == Retried(a))
      && !x.kind.Unrecognized?
      && 1 <= x.retryCount <= MaxRetries
  {
    if q != [] {
      var p := q[..|q| - 1];
      SurvivorsBounds(p, posts);
      assert forall a :: a in p ==> a in q;
    }
  }

  /** A pass in which every action succeeds empties the queue. */
  lemma {:induction false} AllSucceededEmpties(q: seq<QueuedAction>, posts: PostOracle)
    requires forall i :: 0 <= i < |q| ==> Execute(q[i], posts)
    ensures Survivors(q, posts) == []
  {
    if q != [] {
      AllSucceededEmpties(q[..|q| - 1], posts);
    }
  }

  class OfflineQueue {
    /** The value under OFFLINE_QUEUE_KEY; `None` when the key is absent. */
    var stored: Option<seq<QueuedAction>>

    constructor ()
      ensures stored == None
    {
      stored := None;
    }

    /** `getQueue()`: the stored queue, or `[]` when nothing is stored. */
    function GetQueue(): (q: seq<QueuedAction>)
      reads this
      ensures stored.None? ==> q == []
      ensures stored.Some? ==> q == stored.value
    {
      if stored.Some? then stored.value else []
    }

    /** `addToQueue(type, payload)`: appends one fresh action; `id` and `now` stand for the generated id and `Date.now()`. */
    method AddToQueue(kind: ActionType, payload: string, id: string, now: int)
      modifies this
      ensures stored == Some(old(GetQueue()) + [QueuedAction(id, kind, payload, now, 0)])
      ensures |GetQueue()| == |old(GetQueue())| + 1 && GetQueue()[..|old(GetQueue())|] == old(GetQueue())
    {
      var queue := GetQueue();
      queue := queue + [QueuedAction(id, kind, payload, now, 0)];
      stored := Some(queue);
    }

    /**
     * `processQueue()`: offline or with an empty queue nothing happens and
     * nothing is reported; otherwise the survivors of one pass replace the
     * stored queue and the number of actions that left it is reported.
     */
    method ProcessQueue(online: bool, posts: PostOracle) returns (processed: Option<nat>)
      modifies this
      ensures !online || old(GetQueue()) == [] ==> stored == old(stored) && processed == None
      ensures online && old(GetQueue()) != [] ==>
        && stored == Some(Survivors(old(GetQueue()), posts))
        && processed == Some(|old(GetQueue())| - |GetQueue()|)
    {
      processed := None;
      if !online {
        return;
      }
      var queue := GetQueue();
      if |queue| == 0 {
        return;
      }
      var remaining: seq<QueuedAction> := [];
      for i := 0 to |queue|
        invariant remaining == Survivors(queue[..i], posts)
      {
        var action := queue[i];
        assert queue[..i + 1][..i] == queue[..i];
        if !Execute(action, posts) {
          if action.retryCount < MaxRetries {
            remaining := remaining + [Retried(action)];
          }
        }
      }
      assert queue[..|queue|] == queue;
      SurvivorsBounds(queue, posts);
      stored := Some(remaining);
      processed := Some(|queue| - |remaining|);
    }

    /** `clearQueue()`: removes the stored key, so the queue reads back empty. */
    method ClearQueue()
      modifies this
      ensures stored == None && GetQueue() == []
    {
      stored := None;
    }
  }
}
