/**
 * The patrol / chase / search controller of the sentry (MonsterAIMovement).
 *
 * Every engine query is an input: the overlap-sphere hits of the frame (each
 * with its distance, its field-of-view dot product and the ray-cast answer
 * toward it), the frame time, and the navigation agent's remaining and
 * stopping distances. What the controller writes to the engine (the agent's
 * isStopped and speed, the animator's "Attacking" flag, the destination, the
 * "Search" trigger) is recorded in fields.
 *
 * The step functions below (CheckStateStep, ChaseStep, SearchStep,
 * PatrolStepAsWritten, TickStep) are the specification; the class Sentry updates its
 * fields statement by statement as MonsterAIMovement.cs does, and each of its methods
 * is proved to move its fields exactly as the matching step function says.
 */
module MonsterAIMovement {

  datatype Option<T> = None | Some(value: T)

  /** The behaviour state; a closed enumeration instead of a string tag. */
  datatype Mode = Patrol | Chase | Search

  /** One collider found by the overlap sphere, with the engine's answers about it this frame. */
  datatype Candidate = Candidate(
    dist: real,         // distance from the sentry to the collider
    dot: real,          // dot product of the sentry's forward and the direction to it
    ray: Option<bool>)  // ray cast toward it: None if nothing is hit, Some(b) if the first hit is tagged "Player" exactly when b

  /** What the engine supplies for one frame. */
  datatype Percept = Percept(
    dt: real,                  // Time.deltaTime
    hits: seq<Candidate>,      // Physics.OverlapSphere, in the order the engine returns them
    remainingDistance: real,   // agent.remainingDistance
    stoppingDistance: real)    // agent.stoppingDistance

  /** The serialized configuration; fovThreshold is Mathf.Cos(fieldOfView * Mathf.Deg2Rad). */
  datatype Config = Config(
    rangeOfView: real,
    fovThreshold: real,
    attackRange: real,
    searchDuration: real,
    lostSightDuration: real,
    patrolCount: nat)

  /** Where the navigation agent was last sent. */
  datatype Destination =
    | Configured                   // the destination set in the inspector, used by Start
    | Waypoint(index: nat)         // patrolPoints[index]
    | OnTarget(target: Candidate)  // the chased target

  /** Every field the controller reads or writes, as one value. */
  datatype Snapshot = Snapshot(
    state: Mode,
    wasChasing: bool,
    isSearching: bool,
    count: nat,
    destinationReached: bool,
    searchTimer: real,
    lostSightTimer: real,
    target: Option<Candidate>,
    isStopped: bool,       // agent.isStopped
    attacking: bool,       // animator bool "Attacking"
    speed: real,           // agent.speed
    destination: Destination,
    searchTriggers: nat)   // how many times the "Search" trigger has fired

  /** The state CheckState returns together with the fields it leaves behind. */
  datatype Decision = Decision(mode: Mode, next: Snapshot)

  /** The fields after a step, and whether the step stopped at an out-of-range waypoint read. */
  datatype Step = Step(next: Snapshot, outOfRange: bool)

  const PatrolSpeed: real := 2.0
  const ChaseSpeed: real := 6.0

  // ---------------------------------------------------------------------------
  // Perception
  // ---------------------------------------------------------------------------

  /**
   * The index CheckIfEnteredRange settles on: a left-to-right scan that takes
   * a hit only when it is strictly nearer than the best so far.
   */
  function Nearest(hits: seq<Candidate>): (k: Option<nat>)
    ensures k.None? <==> |hits| == 0
    ensures k.Some? ==> k.value < |hits|
    ensures k.Some? ==> forall j :: 0 <= j < |hits| ==> hits[k.value].dist <= hits[j].dist
    ensures k.Some? ==> forall j :: 0 <= j < k.value ==> hits[k.value].dist < hits[j].dist
  {
    if |hits| == 0 then None
    else
      var k := Nearest(hits[..|hits| - 1]);
      if k.None? || hits[|hits| - 1].dist < hits[k.value].dist then Some(|hits| - 1) else k
  }

  /** The target after a scan: the nearest hit, or none when nothing is in the sphere. */
  function Scan(hits: seq<Candidate>): (t: Option<Candidate>)
    ensures t.None? <==> |hits| == 0
    ensures t.Some? ==> t.value in hits
    ensures t.Some? ==> forall j :: 0 <= j < |hits| ==> t.value.dist <= hits[j].dist
  {
    match Nearest(hits)
    case None => None
    case Some(k) => Some(hits[k])
  }

  /**
   * IsTargetVisible: a target is seen when it is within range, inside the
   * field of view (the boundary counts as inside) and the first ray hit is
   * tagged "Player".
   */
  function IsTargetVisible(target: Option<Candidate>, cfg: Config): (v: bool)
    ensures v <==> target.Some? && target.value.dist <= cfg.rangeOfView
                   && target.value.dot >= cfg.fovThreshold && target.value.ray == Some(true)
    ensures target.Some? && target.value.ray.None? ==> !v
    ensures target.Some? && target.value.ray == Some(false) ==> !v
  {
    match target
    case None => false
    case Some(c) =>
      if c.dist > cfg.rangeOfView then false
      else if c.dot < cfg.fovThreshold then false
      else match c.ray
        case None => false
        case Some(isPlayer) => isPlayer
  }

  // ---------------------------------------------------------------------------
  // Behaviour steps
  // ---------------------------------------------------------------------------

  /** CheckState: decides the state of the frame and runs the lost-sight countdown. */
  function CheckStateStep(s: Snapshot, cfg: Config, p: Percept): (r: Decision)
    // a search in progress short-circuits everything: no scan, no timer
    ensures s.isSearching ==> r == Decision(Search, s)
    // only the target and the lost-sight timer can change
    ensures r.next == s.(target := r.next.target, lostSightTimer := r.next.lostSightTimer)
    ensures !s.isSearching ==> r.next.target == Scan(p.hits)
    // a visible target means Chase, and the timer is left as it was (not reset)
    ensures !s.isSearching && IsTargetVisible(Scan(p.hits), cfg) ==>
              r.mode == Chase && r.next.lostSightTimer == s.lostSightTimer
    // the timer moves only while chasing without sight; on running out it is reset and Search is chosen
    ensures r.next.lostSightTimer != s.lostSightTimer ==>
              !s.isSearching && !IsTargetVisible(Scan(p.hits), cfg) && s.wasChasing
    ensures !s.isSearching && !IsTargetVisible(Scan(p.hits), cfg) && s.wasChasing ==>
              if s.lostSightTimer - p.dt <= 0.0
              then r.mode == Search && r.next.lostSightTimer == cfg.lostSightDuration
              else r.mode == Chase && r.next.lostSightTimer == s.lostSightTimer - p.dt
    ensures !s.isSearching && !IsTargetVisible(Scan(p.hits), cfg) && !s.wasChasing ==> r.mode == Patrol
    // the timer stays in (0, lostSightDuration]
    ensures cfg.lostSightDuration > 0.0 && p.dt >= 0.0 && 0.0 < s.lostSightTimer <= cfg.lostSightDuration ==>
              0.0 < r.next.lostSightTimer <= cfg.lostSightDuration
  {
    if s.isSearching then Decision(Search, s)
    else
      var s1 := s.(target := Scan(p.hits));
      if IsTargetVisible(s1.target, cfg) then Decision(Chase, s1)
      else if s1.wasChasing then
        var t := s1.lostSightTimer - p.dt;
        if t <= 0.0 then Decision(Search, s1.(lostSightTimer := cfg.lostSightDuration))
        else Decision(Chase, s1.(lostSightTimer := t))
      else Decision(Patrol, s1)
  }

  /** Chase: act on the current target, whether it is visible or not. */
  function ChaseStep(s: Snapshot, cfg: Config): (r: Snapshot)
    ensures s.target.None? ==> r == s
    // only the agent, the attack flag, the destination and wasChasing change
    ensures r == s.(speed := r.speed, isStopped := r.isStopped, attacking := r.attacking,
                    wasChasing := r.wasChasing, destination := r.destination)
    ensures s.target.Some? ==> r.speed == ChaseSpeed
    // close enough: stop and attack, and forget the chase
    ensures s.target.Some? && s.target.value.dist <= cfg.attackRange ==>
              r.isStopped && r.attacking && !r.wasChasing && r.destination == s.destination
    // too far: move toward the target and keep chasing
    ensures s.target.Some? && s.target.value.dist > cfg.attackRange ==>
              !r.isStopped && !r.attacking && r.wasChasing && r.destination == OnTarget(s.target.value)
    // an attack and a chase in progress exclude each other
    ensures (s.wasChasing ==> !s.attacking) ==> (r.wasChasing ==> !r.attacking)
  {
    match s.target
    case None => s
    case Some(c) =>
      if c.dist <= cfg.attackRange then
        s.(speed := ChaseSpeed, isStopped := true, attacking := true, wasChasing := false)
      else
        s.(speed := ChaseSpeed, isStopped := false, attacking := false,
           destination := OnTarget(c), wasChasing := true)
  }

  /** Search: entry effects once per episode, a countdown, a rescan and the two exits. */
  function SearchStep(s: Snapshot, cfg: Config, p: Percept): (r: Snapshot)
    // the trigger fires only on entry
    ensures r.searchTriggers == if s.isSearching then s.searchTriggers else s.searchTriggers + 1
    // the timer is reset on entry, and decremented on the entry frame too
    ensures r.searchTimer == (if s.isSearching then s.searchTimer else cfg.searchDuration) - p.dt
    ensures r.target == Scan(p.hits)
    // both exits clear the search and the chase memory and let the agent move
    ensures IsTargetVisible(Scan(p.hits), cfg) || r.searchTimer <= 0.0 ==>
              !r.isSearching && !r.wasChasing && !r.isStopped
    // otherwise the search goes on with the agent stopped
    ensures !IsTargetVisible(Scan(p.hits), cfg) && r.searchTimer > 0.0 ==>
              r.isSearching && r.wasChasing == s.wasChasing && r.isStopped == (s.isStopped || !s.isSearching)
    // nothing else changes
    ensures r == s.(isSearching := r.isSearching, searchTimer := r.searchTimer, isStopped := r.isStopped,
                    searchTriggers := r.searchTriggers, target := r.target, wasChasing := r.wasChasing)
  {
    var s1 := if !s.isSearching
              then s.(isSearching := true, searchTimer := cfg.searchDuration, isStopped := true,
                      searchTriggers := s.searchTriggers + 1)
              else s;
    var s2 := s1.(searchTimer := s1.searchTimer - p.dt, target := Scan(p.hits));
    if IsTargetVisible(s2.target, cfg) then s2.(isSearching := false, wasChasing := false, isStopped := false)
    else if s2.searchTimer <= 0.0 then s2.(isSearching := false, wasChasing := false, isStopped := false)
    else s2
  }

  /**
   * The waypoint index after an arrival, with the wrap the patrol intends:
   * after the last waypoint comes the first.
   */
  function Advance(count: nat, n: nat): (c: nat)
    ensures n > 0 ==> c < n
    ensures n > 0 && count < n ==> c == (count + 1) % n
  {
    if count + 1 >= n then 0 else count + 1
  }

  /** The advance as MonsterAIMovement.cs writes it: the guard compares with the count, not the last index. */
  function AdvanceAsWritten(count: nat, n: nat): (c: nat)
    ensures count >= n ==> c == 0
    ensures count < n ==> c == count + 1
    ensures count <= n ==> c <= n
  {
    if count >= n then 0 else count + 1
  }

  /** An arrival is detected this frame, or is still pending from a frame that failed. */
  predicate Arrived(s: Snapshot, p: Percept) {
    s.destinationReached || p.remainingDistance <= p.stoppingDistance
  }

  /**
   * The rest of an arrival once count has moved to c: head for waypoint c.
   * Reading a waypoint outside the list throws in MonsterAIMovement.cs, which
   * ends the frame after count has moved and before destinationReached is
   * cleared.
   */
  function Arrive(s: Snapshot, cfg: Config, c: nat): (r: Step)
    ensures r.outOfRange <==> c >= cfg.patrolCount
    ensures r.next.count == c
    ensures !r.outOfRange ==> r.next.destination == Waypoint(c) && !r.next.destinationReached
    ensures r.outOfRange ==> r.next.destination == s.destination && r.next.destinationReached
    ensures r.next == s.(count := c, destination := r.next.destination, destinationReached := r.next.destinationReached)
  {
    if c < cfg.patrolCount then
      Step(s.(count := c, destination := Waypoint(c), destinationReached := false), false)
    else
      Step(s.(count := c, destinationReached := true), true)
  }

  /**
   * Patrol as MonsterAIMovement.cs writes it; this is the step the sentry
   * runs. Arriving at the last waypoint reads one past the end of the route.
   */
  function PatrolStepAsWritten(s: Snapshot, cfg: Config, p: Percept): (r: Step)
    ensures !Arrived(s, p) ==> r == Step(s, false)
    // only the index, the destination and the arrival flag change
    ensures r.next == s.(count := r.next.count, destination := r.next.destination,
                         destinationReached := r.next.destinationReached)
    // before the last waypoint: head for the next one
    ensures Arrived(s, p) && s.count + 1 < cfg.patrolCount ==>
              r == Step(s.(count := s.count + 1, destination := Waypoint(s.count + 1), destinationReached := false), false)
    // at the last waypoint: count reaches the length of the route and the read fails
    ensures Arrived(s, p) && s.count + 1 == cfg.patrolCount ==>
              r == Step(s.(count := cfg.patrolCount, destinationReached := true), true)
    // past the end of a non-empty route: wrap to the first waypoint
    ensures Arrived(s, p) && s.count >= cfg.patrolCount > 0 ==>
              r == Step(s.(count := 0, destination := Waypoint(0), destinationReached := false), false)
    // an empty route fails every arrival
    ensures Arrived(s, p) && cfg.patrolCount == 0 ==> r == Step(s.(count := 0, destinationReached := true), true)
  {
    if !Arrived(s, p) then Step(s, false)
    else Arrive(s, cfg, AdvanceAsWritten(s.count, cfg.patrolCount))
  }

  /** Patrol with the intended advance, which wraps right after the last waypoint. */
  function PatrolStep(s: Snapshot, cfg: Config, p: Percept): (r: Step)
    ensures !Arrived(s, p) ==> r == Step(s, false)
    ensures r.next == s.(count := r.next.count, destination := r.next.destination,
                         destinationReached := r.next.destinationReached)
    // with a non-empty route and an index in range, an arrival moves to the next waypoint, wrapping
    ensures Arrived(s, p) && s.count < cfg.patrolCount ==>
              r == Step(s.(count := (s.count + 1) % cfg.patrolCount,
                           destination := Waypoint((s.count + 1) % cfg.patrolCount),
                           destinationReached := false), false)
    ensures cfg.patrolCount > 0 ==> r.next.count < cfg.patrolCount || r.next.count == s.count
    // only an empty route makes the read fail
    ensures r.outOfRange <==> Arrived(s, p) && cfg.patrolCount == 0
  {
    if !Arrived(s, p) then Step(s, false)
    else Arrive(s, cfg, Advance(s.count, cfg.patrolCount))
  }

  /** The invariant the controller keeps from Start on. */
  predicate Inv(s: Snapshot, cfg: Config) {
    (s.isSearching ==> s.state == Search && s.isStopped && 0.0 < s.searchTimer <= cfg.searchDuration) &&
    (s.wasChasing ==> !s.attacking) &&
    (cfg.lostSightDuration > 0.0 ==> 0.0 < s.lostSightTimer <= cfg.lostSightDuration) &&
    s.count <= cfg.patrolCount &&
    // an arrival stays pending only after the read one past the end failed
    (s.destinationReached ==> s.count == cfg.patrolCount)
  }

  /** Update: one frame, the state chosen by CheckState and the matching behaviour. */
  function TickStep(s: Snapshot, cfg: Config, p: Percept): (r: Step)
    ensures r.next.state == CheckStateStep(s, cfg, p).mode
    // the Patrol branch sets the patrol speed and lets the agent move
    ensures r.next.state == Patrol ==> r.next.speed == PatrolSpeed && !r.next.isStopped
    ensures r.outOfRange ==> r.next.state == Patrol
    // the read fails exactly on a patrol arrival at the last waypoint, or on an empty route
    ensures Inv(s, cfg) ==>
              (r.outOfRange <==> r.next.state == Patrol && Arrived(s, p)
                                 && (s.count + 1 == cfg.patrolCount || cfg.patrolCount == 0))
    // the frame after a failed read wraps to the first waypoint
    ensures r.next.state == Patrol && Arrived(s, p) && s.count >= cfg.patrolCount > 0 ==>
              r.next.count == 0 && r.next.destination == Waypoint(0) && !r.next.destinationReached
    ensures Inv(s, cfg) && p.dt >= 0.0 ==> Inv(r.next, cfg)
    // in Search the agent is stopped exactly while the search goes on
    ensures Inv(s, cfg) && r.next.state == Search ==> r.next.isStopped == r.next.isSearching
  {
    var d := CheckStateStep(s, cfg, p);
    var s1 := d.next.(state := d.mode);
    match d.mode
    case Patrol => PatrolStepAsWritten(s1.(speed := PatrolSpeed, isStopped := false), cfg, p)
    case Search => Step(SearchStep(s1, cfg, p), false)
    case Chase => Step(ChaseStep(s1, cfg), false)
  }

  // ---------------------------------------------------------------------------
  // Several frames
  // ---------------------------------------------------------------------------

  /** The fields after a run of frames. */
  function Run(s: Snapshot, cfg: Config, ps: seq<Percept>): Snapshot
    decreases |ps|
  {
    if ps == [] then s else Run(TickStep(s, cfg, ps[0]).next, cfg, ps[1..])
  }

  /** The time that elapses over a run of frames. */
  function TotalTime(ps: seq<Percept>): real
    decreases |ps|
  {
    if ps == [] then 0.0 else ps[0].dt + TotalTime(ps[1..])
  }

  /** A frame in which time does not go backwards and the nearest candidate, if any, is not visible. */
  predicate Unseen(p: Percept, cfg: Config) {
    p.dt >= 0.0 && !IsTargetVisible(Scan(p.hits), cfg)
  }

  /** An unseen frame whose nearest candidate, if any, is beyond attack range. */
  predicate UnseenOutOfReach(p: Percept, cfg: Config) {
    Unseen(p, cfg) && (Scan(p.hits).None? || Scan(p.hits).value.dist > cfg.attackRange)
  }

  predicate AllUnseen(ps: seq<Percept>, cfg: Config) {
    forall i :: 0 <= i < |ps| ==> Unseen(ps[i], cfg)
  }

  predicate AllUnseenOutOfReach(ps: seq<Percept>, cfg: Config) {
    forall i :: 0 <= i < |ps| ==> UnseenOutOfReach(ps[i], cfg)
  }

  lemma {:induction false} TotalTimeNonNegative(ps: seq<Percept>, cfg: Config)
    requires AllUnseen(ps, cfg)
    ensures TotalTime(ps) >= 0.0
    decreases |ps|
  {
    if ps != [] {
      assert AllUnseen(ps[1..], cfg) by {
        forall i | 0 <= i < |ps[1..]| ensures Unseen(ps[1..][i], cfg) {
          assert ps[1..][i] == ps[i + 1];
        }
      }
      TotalTimeNonNegative(ps[1..], cfg);
    }
  }

  lemma {:induction false} RunAppend(s: Snapshot, cfg: Config, ps: seq<Percept>, p: Percept)
    ensures Run(s, cfg, ps + [p]) == TickStep(Run(s, cfg, ps), cfg, p).next
    decreases |ps|
  {
    if ps == [] {
      assert [p][1..] == [];
    } else {
      assert (ps + [p])[1..] == ps[1..] + [p];
      RunAppend(TickStep(s, cfg, ps[0]).next, cfg, ps[1..], p);
    }
  }

  /**
   * While chasing without sight of the nearest candidate, and with that
   * candidate (if any) beyond attack range, every frame stays in Chase and
   * the lost-sight timer counts the elapsed time down, as long as less time
   * has elapsed than it holds: no search is triggered.
   */
  lemma {:induction false} LostSightCountdown(s: Snapshot, cfg: Config, ps: seq<Percept>)
    requires !s.isSearching && s.wasChasing
    requires AllUnseenOutOfReach(ps, cfg)
    requires TotalTime(ps) < s.lostSightTimer
    ensures !Run(s, cfg, ps).isSearching && Run(s, cfg, ps).wasChasing
    ensures Run(s, cfg, ps).lostSightTimer == s.lostSightTimer - TotalTime(ps)
    ensures Run(s, cfg, ps).searchTriggers == s.searchTriggers
    ensures Run(s, cfg, ps).searchTimer == s.searchTimer
    ensures ps != [] ==> Run(s, cfg, ps).state == Chase
    decreases |ps|
  {
    if ps != [] {
      var rest := ps[1..];
      assert AllUnseenOutOfReach(rest, cfg) by {
        forall i | 0 <= i < |rest| ensures UnseenOutOfReach(rest[i], cfg) {
          assert rest[i] == ps[i + 1];
        }
      }
      assert UnseenOutOfReach(ps[0], cfg);
      TotalTimeNonNegative(rest, cfg);
      var s1 := TickStep(s, cfg, ps[0]).next;
      assert s1.state == Chase && !s1.isSearching && s1.wasChasing;
      assert s1.lostSightTimer == s.lostSightTimer - ps[0].dt;
      LostSightCountdown(s1, cfg, rest);
    }
  }

  /**
   * Losing sight for the whole grace period: the frame on which the elapsed
   * time first reaches the lost-sight timer chooses Search, the trigger has
   * fired exactly once over the run, and the lost-sight timer is back at its
   * full duration.
   */
  lemma LostSightToSearch(s: Snapshot, cfg: Config, ps: seq<Percept>, p: Percept)
    requires !s.isSearching && s.wasChasing
    requires AllUnseenOutOfReach(ps, cfg) && Unseen(p, cfg)
    requires TotalTime(ps) < s.lostSightTimer <= TotalTime(ps) + p.dt
    ensures Run(s, cfg, ps + [p]).state == Search
    ensures Run(s, cfg, ps + [p]).searchTriggers == s.searchTriggers + 1
    ensures Run(s, cfg, ps + [p]).lostSightTimer == cfg.lostSightDuration
  {
    LostSightCountdown(s, cfg, ps);
    RunAppend(s, cfg, ps, p);
  }

  /**
   * A candidate that is not visible but within attack range is attacked all
   * the same, which ends the chase: the next frame without sight patrols and
   * no search is ever triggered.
   */
  lemma OccludedTargetInReachIsAttacked(s: Snapshot, cfg: Config, p: Percept, q: Percept)
    requires !s.isSearching && s.wasChasing && s.lostSightTimer - p.dt > 0.0
    requires Scan(p.hits).Some? && !IsTargetVisible(Scan(p.hits), cfg) && Scan(p.hits).value.dist <= cfg.attackRange
    requires !IsTargetVisible(Scan(q.hits), cfg)
    ensures TickStep(s, cfg, p).next.state == Chase
    ensures TickStep(s, cfg, p).next.attacking && !TickStep(s, cfg, p).next.wasChasing
    ensures TickStep(TickStep(s, cfg, p).next, cfg, q).next.state == Patrol
    ensures TickStep(TickStep(s, cfg, p).next, cfg, q).next.searchTriggers == s.searchTriggers
  {
  }

  /**
   * While searching without sight of the nearest candidate, and with less
   * time elapsed than the search timer holds, the search goes on and only its
   * timer and the scanned target move.
   */
  lemma {:induction false} SearchCountdown(s: Snapshot, cfg: Config, ps: seq<Percept>)
    requires s.isSearching
    requires AllUnseen(ps, cfg)
    requires TotalTime(ps) < s.searchTimer
    ensures ps != [] ==>
              Run(s, cfg, ps) == s.(state := Search, target := Scan(ps[|ps| - 1].hits),
                                    searchTimer := s.searchTimer - TotalTime(ps))
    decreases |ps|
  {
    if ps != [] {
      var rest := ps[1..];
      assert AllUnseen(rest, cfg) by {
        forall i | 0 <= i < |rest| ensures Unseen(rest[i], cfg) {
          assert rest[i] == ps[i + 1];
        }
      }
      assert Unseen(ps[0], cfg);
      TotalTimeNonNegative(rest, cfg);
      var s1 := TickStep(s, cfg, ps[0]).next;
      assert s1 == s.(state := Search, target := Scan(ps[0].hits), searchTimer := s.searchTimer - ps[0].dt);
      SearchCountdown(s1, cfg, rest);
      if rest != [] {
        assert rest[|rest| - 1] == ps[|ps| - 1];
      }
    }
  }

  /**
   * A search that never sees its target ends when the elapsed time reaches
   * the search timer: that frame clears the search and the chase memory, and
   * the next frame without sight patrols instead of chasing.
   */
  lemma SearchTimesOutToPatrol(s: Snapshot, cfg: Config, ps: seq<Percept>, p: Percept, q: Percept)
    requires s.isSearching
    requires AllUnseen(ps, cfg) && Unseen(p, cfg) && !IsTargetVisible(Scan(q.hits), cfg)
    requires TotalTime(ps) < s.searchTimer <= TotalTime(ps) + p.dt
    ensures !Run(s, cfg, ps + [p]).isSearching && !Run(s, cfg, ps + [p]).wasChasing
    ensures TickStep(Run(s, cfg, ps + [p]), cfg, q).next.state == Patrol
  {
    SearchCountdown(s, cfg, ps);
    RunAppend(s, cfg, ps, p);
  }

  /**
   * Reacquiring the target during a search only ends the search on that
   * frame; the state becomes Chase on the following frame.
   */
  lemma ReacquisitionChasesNextFrame(s: Snapshot, cfg: Config, p: Percept, q: Percept)
    requires s.isSearching
    requires IsTargetVisible(Scan(p.hits), cfg) && IsTargetVisible(Scan(q.hits), cfg)
    ensures TickStep(s, cfg, p).next.state == Search && !TickStep(s, cfg, p).next.isSearching
    ensures TickStep(TickStep(s, cfg, p).next, cfg, q).next.state == Chase
  {
  }

  /**
   * An attack clears wasChasing, so a frame that then loses the target
   * patrols instead of searching, and the attack flag is still raised.
   */
  lemma AttackThenLossPatrols(s: Snapshot, cfg: Config, p: Percept, q: Percept)
    requires !s.isSearching
    requires IsTargetVisible(Scan(p.hits), cfg) && Scan(p.hits).value.dist <= cfg.attackRange
    requires !IsTargetVisible(Scan(q.hits), cfg)
    ensures TickStep(s, cfg, p).next.attacking && !TickStep(s, cfg, p).next.wasChasing
    ensures TickStep(TickStep(s, cfg, p).next, cfg, q).next.state == Patrol
    ensures TickStep(TickStep(s, cfg, p).next, cfg, q).next.attacking
  {
  }

  /** With the intended advance, arriving at the last waypoint heads for the first one. */
  lemma PatrolWrapsAtLastWaypoint(s: Snapshot, cfg: Config, p: Percept)
    requires cfg.patrolCount > 0 && s.count == cfg.patrolCount - 1 && Arrived(s, p)
    ensures PatrolStep(s, cfg, p) == Step(s.(count := 0, destination := Waypoint(0), destinationReached := false), false)
  {
  }

  /**
   * As written, arriving at the last waypoint selects index Count, one past
   * the end of the route: the read fails and the frame ends with the arrival
   * still pending, so the next patrol frame wraps to waypoint 0.
   */
  lemma AsWrittenReadsPastEnd(s: Snapshot, cfg: Config, p: Percept, q: Percept)
    requires cfg.patrolCount > 0 && s.count == cfg.patrolCount - 1 && Arrived(s, p)
    ensures PatrolStepAsWritten(s, cfg, p).outOfRange
    ensures PatrolStepAsWritten(s, cfg, p).next.count == cfg.patrolCount
    ensures PatrolStepAsWritten(PatrolStepAsWritten(s, cfg, p).next, cfg, q)
            == Step(s.(count := 0, destination := Waypoint(0), destinationReached := false), false)
  {
  }

  // ---------------------------------------------------------------------------
  // The controller object
  // ---------------------------------------------------------------------------

  class Sentry {
    const cfg: Config

    var state: Mode
    var wasChasing: bool
    var isSearching: bool
    var count: nat
    var destinationReached: bool
    var searchTimer: real
    var lostSightTimer: real
    var target: Option<Candidate>
    var isStopped: bool
    var attacking: bool
    var speed: real
    var destination: Destination
    var searchTriggers: nat

    function Snap(): Snapshot
      reads this
    {
      Snapshot(state, wasChasing, isSearching, count, destinationReached, searchTimer, lostSightTimer,
               target, isStopped, attacking, speed, destination, searchTriggers)
    }

    ghost predicate Valid()
      reads this
    {
      Inv(Snap(), cfg)
    }

    /** The field initialisers, the engine's defaults, and Start. */
    constructor (config: Config, agentSpeed: real)
      ensures cfg == config
      ensures Valid()
      ensures Snap() == Snapshot(Mode.Patrol, false, false, 0, false, config.searchDuration, config.lostSightDuration,
                                 None, false, false, agentSpeed, Configured, 0)
    {
      cfg := config;
      state := Mode.Patrol;
      wasChasing := false;
      isSearching := false;
      count := 0;
      destinationReached := false;
      searchTimer := 0.0;
      lostSightTimer := 0.0;
      target := None;
      isStopped := false;
      attacking := false;
      speed := agentSpeed;
      destination := Configured;
      searchTriggers := 0;
      new;
      Start();
    }

    /** Start: the patrol index, the arrival flag and both timers. */
    method Start()
      modifies this
      ensures Snap() == old(Snap()).(count := 0, destinationReached := false, searchTimer := cfg.searchDuration,
                                     lostSightTimer := cfg.lostSightDuration)
    {
      count := 0;
      destinationReached := false;
      searchTimer := cfg.searchDuration;
      lostSightTimer := cfg.lostSightDuration;
      // GoToDestination() sends the agent to the configured destination, which is already recorded
    }

    /** Update: one frame. */
    method Tick(p: Percept) returns (outOfRange: bool)
      requires Valid() && p.dt >= 0.0
      modifies this
      ensures Valid()
      ensures Step(Snap(), outOfRange) == TickStep(old(Snap()), cfg, p)
    {
      var mode := CheckState(p);
      state := mode;
      outOfRange := false;
      match mode
      case Patrol =>
        speed := PatrolSpeed;
        isStopped := false;
        outOfRange := Patrol(p);
      case Search =>
        Search(p);
      case Chase =>
        Chase();
    }

    method CheckState(p: Percept) returns (mode: Mode)
      modifies this
      ensures Decision(mode, Snap()) == CheckStateStep(old(Snap()), cfg, p)
    {
      if isSearching {
        return Mode.Search;
      }
      CheckIfEnteredRange(p.hits);
      if IsTargetVisible(target, cfg) {
        // LookAtTarget() turns the sentry; its rotation is not part of this model
        return Mode.Chase;
      }
      if wasChasing {
        lostSightTimer := lostSightTimer - p.dt;
        if lostSightTimer <= 0.0 {
          lostSightTimer := cfg.lostSightDuration;
          return Mode.Search;
        } else {
          return Mode.Chase;
        }
      }
      return Mode.Patrol;
    }

    method Chase()
      modifies this
      ensures Snap() == ChaseStep(old(Snap()), cfg)
    {
      if target.None? {
        return;
      }
      speed := ChaseSpeed;
      if target.value.dist <= cfg.attackRange {
        isStopped := true;
        attacking := true;
        wasChasing := false;
      } else {
        isStopped := false;
        attacking := false;
        destination := OnTarget(target.value);
        wasChasing := true;
      }
    }

    /** CheckIfEnteredRange: the nearest hit becomes the target; none when the sphere is empty. */
    method CheckIfEnteredRange(hits: seq<Candidate>)
      modifies this`target
      ensures target == Scan(hits)
    {
      var minDist: Option<real> := None;  // None stands for Mathf.Infinity
      target := None;
      ghost var best: Option<nat> := None;
      for i := 0 to |hits|
        invariant best == Nearest(hits[..i])
        invariant target == (if best.Some? then Some(hits[best.value]) else None)
        invariant minDist == (if best.Some? then Some(hits[best.value].dist) else None)
      {
        assert hits[..i + 1][..i] == hits[..i];
        var dist := hits[i].dist;
        if minDist.None? || dist < minDist.value {
          minDist := Some(dist);
          target := Some(hits[i]);
          best := Some(i);
        }
      }
      assert hits[..|hits|] == hits;
    }

    method Search(p: Percept)
      modifies this
      ensures Snap() == SearchStep(old(Snap()), cfg, p)
    {
      if !isSearching {
        isSearching := true;
        searchTimer := cfg.searchDuration;
        isStopped := true;
        searchTriggers := searchTriggers + 1;
      }
      searchTimer := searchTimer - p.dt;
      CheckIfEnteredRange(p.hits);
      if IsTargetVisible(target, cfg) {
        isSearching := false;
        wasChasing := false;
        isStopped := false;
      } else if searchTimer <= 0.0 {
        isSearching := false;
        wasChasing := false;
        isStopped := false;
      }
    }

    /** Patrol; returns true when the waypoint read falls outside the route and ends the frame. */
    method Patrol(p: Percept) returns (outOfRange: bool)
      modifies this
      ensures Step(Snap(), outOfRange) == PatrolStepAsWritten(old(Snap()), cfg, p)
    {
      outOfRange := false;
      if p.remainingDistance <= p.stoppingDistance {
        destinationReached := true;
      }
      if destinationReached {
        if count >= cfg.patrolCount {
          count := 0;
        } else {
          count := count + 1;
        }
        if count >= cfg.patrolCount {
          // patrolPoints[count] throws: the rest of the frame does not run
          outOfRange := true;
          return;
        }
        destination := Waypoint(count);
        destinationReached := false;
      }
    }
  }
}
