/**
 * `TourExecutionService`: a tourist's walk through a tour's key points.
 * `Start` opens an execution with the key points still to visit,
 * `CheckProximity` moves the next key point to the visited ones when the
 * tourist is within 10 metres of it and completes the execution when none
 * remain, and `Abandon` ends it. The distance (haversine in the source)
 * and the clock are inputs.
 */
module TourExecution {
  import opened Wrappers
  import TourModel

  /** `proximityRadiusMeters`. */
  const ProximityRadius: real := 10.0

  type Coordinates = TourModel.Coordinates
  type KeyPoint = TourModel.KeyPoint

  datatype KeyPointRef = KeyPointRef(id: string, title: string, coordinates: Coordinates, order: int)

  datatype VisitedKeyPoint = VisitedKeyPoint(ref: KeyPointRef, visitedAt: nat)

  datatype Status = Active | Completed | Abandoned

  /** A stored execution, including the completion times the service records beside the visits. */
  datatype Execution = Execution(
    id: string, tourId: string, userId: string, status: Status,
    position: Coordinates, startedAt: nat, lastActivityAt: nat, endedAt: Option<nat>,
    remaining: seq<KeyPointRef>, visited: seq<VisitedKeyPoint>,
    totalKeyPoints: int, nextKeyPointIndex: int, lastKnownCoords: Coordinates,
    completionTimes: seq<nat>)

  /** The reference an execution keeps for the key point at position `i` of the tour. */
  function RefAt(kps: seq<KeyPoint>, i: nat): KeyPointRef
    requires i < |kps|
  {
    KeyPointRef(kps[i].id, kps[i].title, kps[i].coordinates, i + 1)
  }

  /** The loop building `remaining`: every key point in repository order, numbered from 1. */
  method BuildRemaining(kps: seq<KeyPoint>) returns (remaining: seq<KeyPointRef>)
    ensures |remaining| == |kps|
    ensures forall i :: 0 <= i < |kps| ==> remaining[i] == RefAt(kps, i)
  {
    remaining := [];
    var i := 0;
    while i < |kps|
      invariant 0 <= i <= |kps| && |remaining| == i
      invariant forall j :: 0 <= j < i ==> remaining[j] == RefAt(kps, j)
    {
      remaining := remaining + [KeyPointRef(kps[i].id, kps[i].title, kps[i].coordinates, i + 1)];
      i := i + 1;
    }
  }

  /** The key point references, in the order the route visits them. */
  function Refs(kps: seq<KeyPoint>): (r: seq<KeyPointRef>)
    ensures |r| == |kps| && forall i :: 0 <= i < |kps| ==> r[i] == RefAt(kps, i)
  {
    seq(|kps|, i requires 0 <= i < |kps| => RefAt(kps, i))
  }

  /** The execution `Start` creates. */
  function NewExecution(newId: string, tourId: string, userId: string, loc: Coordinates, now: nat,
                        kps: seq<KeyPoint>): Execution
  {
    Execution(newId, tourId, userId, Active, loc, now, now, None, Refs(kps), [], |kps|, 0, loc, [])
  }

  /** The first execution in store order that is Active for the user (and for the tour, when given). */
  function FirstActive(execs: seq<Execution>, userId: string, tourId: Option<string>): (r: Option<nat>)
    ensures r.Some? ==> r.value < |execs| && IsActiveFor(execs[r.value], userId, tourId)
    ensures r.Some? ==> forall j :: 0 <= j < r.value ==> !IsActiveFor(execs[j], userId, tourId)
    ensures r.None? <==> forall j :: 0 <= j < |execs| ==> !IsActiveFor(execs[j], userId, tourId)
  {
    if |execs| == 0 then None
    else if IsActiveFor(execs[0], userId, tourId) then Some(0)
    else match FirstActive(execs[1..], userId, tourId)
      case None => None
      case Some(k) => Some(k + 1)
  }

  predicate IsActiveFor(e: Execution, userId: string, tourId: Option<string>)
  {
    e.userId == userId && e.status == Active && (tourId.None? || e.tourId == tourId.value)
  }

  const TourNotFound := "tour not found"
  const NotStartable := "tour not published or archived"
  const NoKeyPoints := "tour has no keypoints"
  const NoLocation := "no current location for user"
  const NoActive := "no active tour execution"
  const DuplicateId := "duplicate key"

  /** The decision `Start` takes before anything is written. */
  datatype StartPlan = Resume(index: nat) | Fail(message: string) | Create(loc: Coordinates)

  /**
   * The checks of `Start`, in order: an active execution of the same tour is
   * resumed; then the tour must exist and be Published or Archived, have key
   * points, and the user must have a current location.
   */
  function PlanStart(execs: seq<Execution>, tours: map<string, TourModel.Tour>, kps: seq<KeyPoint>,
                     locations: map<string, Coordinates>, userId: string, tourId: string): StartPlan
  {
    match FirstActive(execs, userId, Some(tourId))
    case Some(i) => Resume(i)
    case None =>
      if tourId !in tours then Fail(TourNotFound)
      else if !TourModel.Startable(tours[tourId].status) then Fail(NotStartable)
      else if |kps| == 0 then Fail(NoKeyPoints)
      else if userId !in locations then Fail(NoLocation)
      else Create(locations[userId])
  }

  ghost predicate UniqueIds(execs: seq<Execution>)
  {
    forall i, j :: 0 <= i < j < |execs| ==> execs[i].id != execs[j].id
  }

  predicate HasId(execs: seq<Execution>, id: string)
  {
    exists i :: 0 <= i < |execs| && execs[i].id == id
  }

  /** The executions collection, in store order; `_id` is unique. */
  class ExecutionStore {
    var executions: seq<Execution>

    ghost predicate Valid()
      reads this
    {
      UniqueIds(executions)
    }

    constructor ()
      ensures Valid() && executions == []
    {
      executions := [];
    }

    /** `Insert` (`InsertOne`): refused with a duplicate-key error when the id is taken. */
    method Insert(te: Execution) returns (err: Option<string>)
      requires Valid()
      modifies this
      ensures Valid()
      ensures HasId(old(executions), te.id) ==> err == Some(DuplicateId) && executions == old(executions)
      ensures !HasId(old(executions), te.id) ==> err.None? && executions == old(executions) + [te]
    {
      if exists i :: 0 <= i < |executions| && executions[i].id == te.id {
        return Some(DuplicateId);
      }
      executions := executions + [te];
      err := None;
    }

    /** `Update` (`ReplaceOne` by `_id`) of the execution read from position `i`. */
    method Replace(i: nat, te: Execution)
      requires Valid() && i < |executions| && te.id == executions[i].id
      modifies this
      ensures Valid() && executions == old(executions)[i := te]
    {
      executions := executions[i := te];
    }
  }

  /**
   * `Start`. Resuming returns the stored execution and writes nothing; a
   * failed check writes nothing; otherwise the new execution is inserted.
   * Re-storing the unchanged location is left out.
   */
  method Start(store: ExecutionStore, tours: map<string, TourModel.Tour>, kps: seq<KeyPoint>,
               locations: map<string, Coordinates>, userId: string, tourId: string, now: nat, newId: string)
    returns (r: Result<Execution, string>)
    requires store.Valid()
    modifies store
    ensures store.Valid()
    ensures match PlanStart(old(store.executions), tours, kps, locations, userId, tourId)
            case Resume(i) => r == Ok(old(store.executions)[i]) && store.executions == old(store.executions)
            case Fail(m) => r == Err(m) && store.executions == old(store.executions)
            case Create(loc) =>
              var te := NewExecution(newId, tourId, userId, loc, now, kps);
              if HasId(old(store.executions), newId) then
                r == Err(DuplicateId) && store.executions == old(store.executions)
              else
                r == Ok(te) && store.executions == old(store.executions) + [te]
  {
    var existing := FirstActive(store.executions, userId, Some(tourId));
    if existing.Some? {
      return Ok(store.executions[existing.value]);
    }
    if tourId !in tours {
      return Err(TourNotFound);
    }
    var tour := tours[tourId];
    if !(tour.status == TourModel.Published || tour.status == TourModel.Archived) {
      return Err(NotStartable);
    }
    if |kps| == 0 {
      return Err(NoKeyPoints);
    }
    var remaining := BuildRemaining(kps);
    if userId !in locations {
      return Err(NoLocation);
    }
    var loc := locations[userId];
    var te := Execution(newId, tourId, userId, Active, loc, now, now, None, remaining, [], |kps|, 0, loc, []);
    assert remaining == Refs(kps);
    var err := store.Insert(te);
    if err.Some? {
      return Err(err.value);
    }
    r := Ok(te);
  }

  /** A new execution is Active, has every key point ahead numbered 1..n, nothing visited, and starts at the location. */
  lemma NewExecutionShape(newId: string, tourId: string, userId: string, loc: Coordinates, now: nat,
                          kps: seq<KeyPoint>)
    ensures var e := NewExecution(newId, tourId, userId, loc, now, kps);
            && e.status == Active && e.visited == [] && e.completionTimes == []
            && |e.remaining| == e.totalKeyPoints == |kps| && e.nextKeyPointIndex == 0
            && (forall i :: 0 <= i < |kps| ==> e.remaining[i].id == kps[i].id && e.remaining[i].order == i + 1)
            && e.position == loc && e.startedAt == e.lastActivityAt == now && e.endedAt.None?
  {
  }

  /**
   * `Start` is idempotent per user and tour: once it has created an
   * execution, starting the same tour again resumes that execution.
   */
  lemma {:induction false} StartIdempotent(execs: seq<Execution>, tours: map<string, TourModel.Tour>,
                                           kps: seq<KeyPoint>, locations: map<string, Coordinates>,
                                           userId: string, tourId: string, now: nat, newId: string)
    requires PlanStart(execs, tours, kps, locations, userId, tourId).Create?
    ensures var te := NewExecution(newId, tourId, userId, locations[userId], now, kps);
            PlanStart(execs + [te], tours, kps, locations, userId, tourId) == Resume(|execs|)
  {
    var te := NewExecution(newId, tourId, userId, locations[userId], now, kps);
    var all := execs + [te];
    assert IsActiveFor(all[|execs|], userId, Some(tourId));
    var k := FirstActive(all, userId, Some(tourId));
    assert k == Some(|execs|) by {
      assert forall j :: 0 <= j < |execs| ==> all[j] == execs[j];
    }
  }

  /** A Draft tour, such as one fresh from `BeforeCreateTour`, cannot be started. */
  lemma DraftNotStarted(execs: seq<Execution>, tours: map<string, TourModel.Tour>, kps: seq<KeyPoint>,
                        locations: map<string, Coordinates>, userId: string, tourId: string)
    requires FirstActive(execs, userId, Some(tourId)).None?
    requires tourId in tours && tours[tourId].status == TourModel.Draft
    ensures PlanStart(execs, tours, kps, locations, userId, tourId) == Fail(NotStartable)
  {
  }

  /** `ProximityCheckResult`. */
  datatype ProximityResult = ProximityResult(
    reached: bool, distanceMeters: real, nextKeyPoint: Option<KeyPointRef>,
    remainingCount: int, justCompleted: Option<KeyPointRef>, completedSession: bool)

  /** What `CheckProximity` does to an execution, given the distance to its next key point. */
  function Proximity(te: Execution, coords: Coordinates, dist: real, now: nat): (Execution, ProximityResult)
  {
    var moved := te.(position := coords, lastActivityAt := now);
    if |te.remaining| == 0 then
      (moved.(status := Completed, endedAt := Some(now)),
       ProximityResult(false, 0.0, None, 0, None, true))
    else
      var next := te.remaining[0];
      if dist <= ProximityRadius then
        var rest := te.remaining[1..];
        var after := moved.(remaining := rest,
                            visited := te.visited + [VisitedKeyPoint(next, now)],
                            completionTimes := te.completionTimes + [now]);
        if |rest| == 0 then
          (after.(status := Completed, endedAt := Some(now)),
           ProximityResult(true, dist, Some(next), 0, Some(next), true))
        else
          (after, ProximityResult(true, dist, Some(next), |rest|, Some(next), false))
      else
        (moved, ProximityResult(false, dist, Some(next), |te.remaining|, None, false))
  }

  /** The route of an execution: the key points visited, then those still ahead. */
  function Route(te: Execution): seq<KeyPointRef>
  {
    VisitedRefs(te.visited) + te.remaining
  }

  function VisitedRefs(vs: seq<VisitedKeyPoint>): (r: seq<KeyPointRef>)
    ensures |r| == |vs| && forall i :: 0 <= i < |vs| ==> r[i] == vs[i].ref
  {
    if |vs| == 0 then [] else VisitedRefs(vs[..|vs| - 1]) + [vs[|vs| - 1].ref]
  }

  /**
   * A proximity check never reorders, loses or invents key points: the
   * route is the same before and after, only the boundary between visited
   * and remaining moves, by at most one.
   */
  lemma ProximityKeepsRoute(te: Execution, coords: Coordinates, dist: real, now: nat)
    ensures Route(Proximity(te, coords, dist, now).0) == Route(te)
    ensures var after := Proximity(te, coords, dist, now).0;
            |after.visited| + |after.remaining| == |te.visited| + |te.remaining|
  {
    var after := Proximity(te, coords, dist, now).0;
    if |te.remaining| > 0 && dist <= ProximityRadius {
      var next := te.remaining[0];
      var vs := te.visited + [VisitedKeyPoint(next, now)];
      assert vs[..|vs| - 1] == te.visited;
      assert VisitedRefs(vs) == VisitedRefs(te.visited) + [next];
      assert te.remaining == [next] + te.remaining[1..];
    }
  }

  /**
   * The outcome of a check: the next key point is reached exactly when one
   * remains and the distance is at most 10 m; the session is completed
   * exactly when nothing remains afterwards; the position and activity time
   * are always recorded.
   */
  lemma ProximityOutcome(te: Execution, coords: Coordinates, dist: real, now: nat)
    requires te.status == Active
    ensures var (after, res) := Proximity(te, coords, dist, now);
            && after.position == coords && after.lastActivityAt == now
            && (res.reached <==> |te.remaining| > 0 && dist <= ProximityRadius)
            && (res.reached ==> |after.visited| == |te.visited| + 1 && after.visited[|te.visited|].visitedAt == now
                                && res.justCompleted == Some(te.remaining[0]))
            && (!res.reached ==> after.remaining == te.remaining && after.visited == te.visited)
            && res.remainingCount == |after.remaining|
            && (res.completedSession <==> |after.remaining| == 0)
            && (res.completedSession <==> after.status == Completed)
            && (res.completedSession ==> after.endedAt == Some(now))
            && (!res.completedSession ==> after.status == te.status && after.endedAt == te.endedAt)
  {
  }

  /** Each visit has its completion time beside it: the two lists grow together. */
  lemma ProximityKeepsTimesAligned(te: Execution, coords: Coordinates, dist: real, now: nat)
    requires |te.completionTimes| == |te.visited|
    ensures var after := Proximity(te, coords, dist, now).0;
            |after.completionTimes| == |after.visited|
            && forall i :: 0 <= i < |after.visited| ==> i >= |te.visited| ==>
                 after.completionTimes[i] == after.visited[i].visitedAt
  {
  }

  /**
   * A tourist who reaches each key point in turn completes the tour after
   * exactly as many checks as there are key points still ahead, having
   * visited them in route order.
   */
  function Walk(te: Execution, coords: Coordinates, now: nat, steps: nat): Execution
    decreases steps
  {
    if steps == 0 then te else Walk(Proximity(te, coords, 0.0, now).0, coords, now, steps - 1)
  }

  lemma {:induction false} WalkCompletes(te: Execution, coords: Coordinates, now: nat)
    requires te.status == Active && |te.remaining| > 0
    ensures var done := Walk(te, coords, now, |te.remaining|);
            done.status == Completed && done.remaining == [] && VisitedRefs(done.visited) == Route(te)
    decreases |te.remaining|
  {
    var next := Proximity(te, coords, 0.0, now).0;
    ProximityKeepsRoute(te, coords, 0.0, now);
    if |te.remaining| > 1 {
      assert next.status == Active && |next.remaining| == |te.remaining| - 1;
      WalkCompletes(next, coords, now);
    } else {
      assert Walk(te, coords, now, 1) == next;
    }
  }

  /**
   * `CheckProximity`: works on the user's first active execution in store
   * order; `dist` is the distance from `coords` to its next key point.
   */
  method CheckProximity(store: ExecutionStore, userId: string, coords: Coordinates, dist: real, now: nat)
    returns (r: Result<ProximityResult, string>)
    requires store.Valid()
    modifies store
    ensures store.Valid()
    ensures match FirstActive(old(store.executions), userId, None)
            case None => r == Err(NoActive) && store.executions == old(store.executions)
            case Some(i) =>
              var (after, res) := Proximity(old(store.executions)[i], coords, dist, now);
              r == Ok(res) && store.executions == old(store.executions)[i := after]
  {
    var found := FirstActive(store.executions, userId, None);
    if found.None? {
      return Err(NoActive);
    }
    var i := found.value;
    var te := store.executions[i];
    var res := ProximityResult(false, 0.0, None, |te.remaining|, None, false);
    te := te.(position := coords, lastActivityAt := now);
    if |te.remaining| == 0 {
      te := te.(status := Completed, endedAt := Some(now));
      res := res.(completedSession := true);
      store.Replace(i, te);
      return Ok(res);
    }
    var next := te.remaining[0];
    res := res.(distanceMeters := dist, nextKeyPoint := Some(next));
    if dist <= ProximityRadius {
      te := te.(remaining := te.remaining[1..]);
      te := te.(visited := te.visited + [VisitedKeyPoint(next, now)]);
      te := te.(completionTimes := te.completionTimes + [now]);
      res := res.(reached := true, justCompleted := Some(next), remainingCount := |te.remaining|);
      if |te.remaining| == 0 {
        te := te.(status := Completed, endedAt := Some(now));
        res := res.(completedSession := true);
      }
    }
    store.Replace(i, te);
    r := Ok(res);
  }

  /** `Abandon` as a function of the execution. */
  function AbandonedAt(te: Execution, now: nat): Execution
  {
    te.(status := Abandoned, endedAt := Some(now), lastActivityAt := now)
  }

  /** `Abandon`: ends the user's first active execution in store order. */
  method Abandon(store: ExecutionStore, userId: string, now: nat) returns (err: Option<string>)
    requires store.Valid()
    modifies store
    ensures store.Valid()
    ensures match FirstActive(old(store.executions), userId, None)
            case None => err == Some(NoActive) && store.executions == old(store.executions)
            case Some(i) => err.None? && store.executions == old(store.executions)[i := AbandonedAt(old(store.executions)[i], now)]
  {
    var found := FirstActive(store.executions, userId, None);
    if found.None? {
      return Some(NoActive);
    }
    var te := store.executions[found.value];
    store.Replace(found.value, te.(status := Abandoned, endedAt := Some(now), lastActivityAt := now));
    err := None;
  }

  /**
   * Once abandoned, an execution no longer counts as the user's active one:
   * when it was the only one, further checks and abandons fail.
   */
  lemma {:induction false} AbandonEndsSession(execs: seq<Execution>, userId: string, now: nat)
    requires FirstActive(execs, userId, None).Some?
    requires forall j :: 0 <= j < |execs| && j != FirstActive(execs, userId, None).value ==>
               !IsActiveFor(execs[j], userId, None)
    ensures var i := FirstActive(execs, userId, None).value;
            FirstActive(execs[i := AbandonedAt(execs[i], now)], userId, None).None?
  {
    var i := FirstActive(execs, userId, None).value;
    var after := execs[i := AbandonedAt(execs[i], now)];
    assert forall j :: 0 <= j < |after| ==> !IsActiveFor(after[j], userId, None);
  }
}
