# Sentry and door controllers, modelled in Dafny

This project models the two frame-driven controllers of a small Unity game and proves properties of them.

- **The sentry** (`MonsterAIMovement`, file `monster_ai_movement.dfy`). An enemy patrols a list of waypoints. It picks the nearest collider in a detection sphere and tests whether it is visible: within range, inside the field of view, and the first collider hit by a ray toward it tagged "Player" (any Player-tagged collider passes this test, not only the candidate itself). It chases a visible target, attacks at close range, and searches for a while after losing sight before it goes back to patrolling. The three states are a closed enumeration `Mode = Patrol | Chase | Search`.
- **The door** (`DoorBehaviour`, file `door.dfy`). A key press toggles the door between a lower and an upper end point while the player stands in its trigger. A press is ignored while the door is moving.

Each controller is a class whose fields change once per engine callback.
- `Sentry.Tick` models `Update`.
- `Door.Update`, `Door.OnTriggerStay`, `Door.OnTriggerExit` and `Door.MovementFinished` model the door's callbacks.

Each method is proved to change its fields exactly as a pure step function of the old fields and the inputs says: `TickStep`, `CheckStateStep`, `ChaseStep`, `SearchStep`, `PatrolStepAsWritten`, `UpdateStep`, `FinishStep` and the others. The properties live in those functions' contracts and in lemmas over runs of several frames (`Run`, `RunDoor`).

Engine services are inputs:
- the overlap-sphere hits of a frame, each with its distance, its field-of-view dot product and the ray-cast answer toward it;
- `Time.deltaTime`;
- the agent's remaining and stopping distances;
- the key press;
- the tag of a trigger collider.

What the sentry tells the engine is recorded in fields: `isStopped`, `speed`, the animator flag `attacking`, `destination`, and `searchTriggers`, which counts how often the "Search" trigger fired. The cosine threshold `Mathf.Cos(fieldOfView * Mathf.Deg2Rad)` is a configuration value (`Config.fovThreshold`).

MonsterAIMovement.cs behaves as follows, which a reader may not expect:
- A visible target does not reset `lostSightTimer`. Only its running out resets it (`CheckStateStep`).
- When a search sees the target again, that frame only clears the search flags. The state becomes Chase on the next frame (`ReacquisitionChasesNextFrame`).
- Neither timer is clamped at zero.
- `Chase` acts on the nearest candidate even when it is not visible, so an occluded candidate within attack range is attacked (`OccludedTargetInReachIsAttacked`).
- The "Attacking" flag is cleared only by the far branch of `Chase`, so it stays raised while the sentry patrols after an attack (`AttackThenLossPatrols`).

## Model

| member | source | states |
|---|---|---|
| `MonsterAIMovement.Nearest` | Assets/Scripts/MonsterAIMovement.cs:137-149 | No index exactly when there are no hits. Otherwise the chosen hit is no farther than any hit, and strictly nearer than every earlier one, so the first of equal minima wins. |
| `MonsterAIMovement.Scan` | Assets/Scripts/MonsterAIMovement.cs:135-150 | The target is null exactly when the sphere is empty. Otherwise it is one of the hits and no farther than any of them. |
| `MonsterAIMovement.IsTargetVisible` | Assets/Scripts/MonsterAIMovement.cs:152-176 | Visible if and only if there is a target with distance ≤ rangeOfView, dot ≥ threshold (the boundary is inside) and a first ray hit tagged "Player", which may be any Player-tagged collider. No ray hit, or a first hit with another tag, means not visible. |
| `MonsterAIMovement.CheckStateStep` | Assets/Scripts/MonsterAIMovement.cs:78-107 | While searching it returns Search and changes nothing. Otherwise it rescans. A visible target gives Chase and leaves the timer alone. When chasing without sight, the timer drops by dt; at ≤ 0 it is reset and Search is chosen. With no chase it gives Patrol. Only target and timer change. Given duration > 0 and dt ≥ 0, the timer stays in (0, duration]. |
| `MonsterAIMovement.ChaseStep` | Assets/Scripts/MonsterAIMovement.cs:109-133 | A null target changes nothing. Otherwise speed is 6. Within attack range: stopped, attacking, wasChasing false. Farther: moving, not attacking, destination is the target, wasChasing true. It keeps "wasChasing implies not attacking". Nothing else changes. |
| `MonsterAIMovement.SearchStep` | Assets/Scripts/MonsterAIMovement.cs:185-212 | The trigger fires only on entry. The timer is reset on entry and decremented on the entry frame too. The scan is redone. A visible target or timer ≤ 0 clears isSearching and wasChasing and lets the agent move. Otherwise the search goes on with the agent stopped. Nothing else changes. |
| `MonsterAIMovement.Advance` | Assets/Scripts/MonsterAIMovement.cs:224-231 | The corrected advance, which MonsterAIMovement.cs does not contain (see Findings). For a non-empty route the index stays in range and equals (count + 1) mod n. |
| `MonsterAIMovement.AdvanceAsWritten` | Assets/Scripts/MonsterAIMovement.cs:224-231 | The advance as written. At or past n it is 0; below n it is count + 1, so it reaches n; from count ≤ n it never exceeds n. |
| `MonsterAIMovement.PatrolStep` | Assets/Scripts/MonsterAIMovement.cs:214-237 | Patrol with the corrected advance (see Findings); the sentry does not run it. No arrival and no pending flag: nothing changes. On arrival with an index in range: the next waypoint, wrapping, becomes the destination and destinationReached is false. The read fails only for an empty route. Only count, destination and the flag change. |
| `MonsterAIMovement.Arrive` | Assets/Scripts/MonsterAIMovement.cs:233-235 | Once count has moved to c, the read fails exactly when c ≥ n. On success, waypoint c becomes the destination and the arrival flag is cleared. On failure, the destination is kept and the arrival stays pending. |
| `MonsterAIMovement.PatrolStepAsWritten` | Assets/Scripts/MonsterAIMovement.cs:214-237 | The patrol step the sentry runs. Without an arrival, detected or pending, nothing changes. Only count, destination and the arrival flag ever change. Before the last waypoint, an arrival heads for waypoint count + 1 and clears the flag. At the last waypoint, count becomes n, the read fails and the destination and the pending arrival are kept. At count ≥ n on a non-empty route, an arrival wraps to waypoint 0. On an empty route every arrival fails. |
| `MonsterAIMovement.TickStep` | Assets/Scripts/MonsterAIMovement.cs:53-76 | The frame's state is CheckState's choice. The Patrol branch sets speed 2 and un-stops the agent. Under `Inv`, the waypoint read fails exactly on a Patrol frame with an arrival at the last waypoint (count + 1 = n) or on an empty route. A Patrol arrival at count ≥ n > 0 wraps to waypoint 0. It preserves `Inv`: a search keeps the agent stopped with its timer in (0, searchDuration]; wasChasing excludes attacking; the lost-sight timer bound; count ≤ n; an arrival stays pending only at count = n. In Search the agent is stopped exactly while searching. |
| `MonsterAIMovement.LostSightCountdown` | Assets/Scripts/MonsterAIMovement.cs:91-103 | Chasing through frames whose nearest candidate, if any, is not visible and beyond attack range, with less elapsed time than the timer holds: the sentry stays in Chase and keeps wasChasing, the timer drops by the total elapsed time, the search timer is untouched and no search is triggered. |
| `MonsterAIMovement.LostSightToSearch` | Assets/Scripts/MonsterAIMovement.cs:91-99 | Through the same kind of frames, the frame on which the total time, however it is split into frames, first reaches the timer, and whose nearest candidate is not visible, chooses Search. The trigger has fired exactly once over the run, and the timer is back at full duration. |
| `MonsterAIMovement.SearchCountdown` | Assets/Scripts/MonsterAIMovement.cs:196-211 | A search whose nearest candidate, if any, is never visible, with less elapsed time than its timer holds, stays in Search. Only its timer, by the total elapsed time, and the scanned target move. |
| `MonsterAIMovement.SearchTimesOutToPatrol` | Assets/Scripts/MonsterAIMovement.cs:206-211 | Through frames without a visible candidate, when the elapsed time reaches the search timer, the search and wasChasing are cleared. The next frame without a visible candidate is Patrol, not Chase. |
| `MonsterAIMovement.OccludedTargetInReachIsAttacked` | Assets/Scripts/MonsterAIMovement.cs:109-121 | While chasing, a nearest candidate that is not visible but within attack range is attacked all the same: the frame stays in Chase, attacking is raised and wasChasing cleared. The next frame without sight patrols, and no search is triggered. |
| `MonsterAIMovement.ReacquisitionChasesNextFrame` | Assets/Scripts/MonsterAIMovement.cs:200-205 | Seeing the target during a search leaves the frame in Search with the flag cleared. The next frame with the target visible is Chase. |
| `MonsterAIMovement.AttackThenLossPatrols` | Assets/Scripts/MonsterAIMovement.cs:115-121 | An attack clears wasChasing. A following frame without sight patrols instead of searching, and the attack flag is still raised. |
| `MonsterAIMovement.PatrolWrapsAtLastWaypoint` | Assets/Scripts/MonsterAIMovement.cs:224-231 | With the corrected advance, an arrival at the last waypoint of a non-empty route heads for waypoint 0, clears the flag and does not fail. |
| `MonsterAIMovement.AsWrittenReadsPastEnd` | Assets/Scripts/MonsterAIMovement.cs:224-235 | As written, arriving at the last waypoint of a non-empty route moves count to n. The read of waypoint n fails, and the arrival stays pending. The next patrol frame wraps to waypoint 0 and heads there. |
| `MonsterAIMovement.Sentry.constructor` | Assets/Scripts/MonsterAIMovement.cs:12-47 | Field initialisers, then Start. The result satisfies the invariant: not searching, not chasing, index 0, both timers full, destination the configured one. |
| `MonsterAIMovement.Sentry.Start` | Assets/Scripts/MonsterAIMovement.cs:38-50 | count = 0, destinationReached = false, searchTimer = searchDuration, lostSightTimer = lostSightDuration. Nothing else changes. |
| `MonsterAIMovement.Sentry.Tick` | Assets/Scripts/MonsterAIMovement.cs:53-76 | The new fields and the fault flag are exactly `TickStep` of the old ones, which runs the advance as written. The invariant is kept. |
| `MonsterAIMovement.Sentry.CheckState` | Assets/Scripts/MonsterAIMovement.cs:78-107 | The returned state and the new fields are exactly `CheckStateStep`. |
| `MonsterAIMovement.Sentry.Chase` | Assets/Scripts/MonsterAIMovement.cs:109-133 | The new fields are exactly `ChaseStep`. |
| `MonsterAIMovement.Sentry.CheckIfEnteredRange` | Assets/Scripts/MonsterAIMovement.cs:135-150 | The loop with a running minimum leaves `target == Scan(hits)`, the nearest hit with the first of equal minima. Only `target` changes. |
| `MonsterAIMovement.Sentry.Search` | Assets/Scripts/MonsterAIMovement.cs:185-212 | The new fields are exactly `SearchStep`. |
| `MonsterAIMovement.Sentry.Patrol` | Assets/Scripts/MonsterAIMovement.cs:214-237 | The new fields and the fault flag are exactly `PatrolStepAsWritten`. |
| `DoorBehaviour.StartStep` | Assets/Scripts/Door.cs:15-19 | doorDown is the current position and doorUp = doorDown + doorUpOffset. Nothing else changes. It makes a door at rest and down consistent. |
| `DoorBehaviour.BeginMove` | Assets/Scripts/Door.cs:31-46 | The coroutine's target is recorded. The door is moving exactly when it is not already on the target. The position does not change yet. |
| `DoorBehaviour.UpdateStep` | Assets/Scripts/Door.cs:21-29 | Without player in range, key press and not moving, nothing changes. Otherwise doorIsUp flips and the movement target is the end point matching the new doorIsUp. End points and range are unchanged. A consistent door stays consistent. |
| `DoorBehaviour.FinishStep` | Assets/Scripts/Door.cs:45-46 | A moving door ends exactly on its target and is no longer moving. A resting door is unchanged. Only position and isMoving change. Consistency is kept. |
| `DoorBehaviour.StayStep` | Assets/Scripts/Door.cs:49-53 | playerInRange becomes true for a "Player" collider. Other tags leave it unchanged. Nothing else changes. |
| `DoorBehaviour.ExitStep` | Assets/Scripts/Door.cs:55-59 | playerInRange becomes false for a "Player" collider. Other tags leave it unchanged. Nothing else changes. |
| `DoorBehaviour.RunDoorConsistent` | Assets/Scripts/Door.cs:21-59 | No sequence of events breaks consistency: at rest on the end point matching doorIsUp, moving toward it otherwise. The end points never change. |
| `DoorBehaviour.MovingIgnoresKeys` | Assets/Scripts/Door.cs:23-35 | Once moving, as long as no movement-finished event arrives, every key press is ignored. Only playerInRange can change. |
| `DoorBehaviour.ToggleTwiceRestores` | Assets/Scripts/Door.cs:25-27 | For a resting door with the player in range, two toggles, each run to its end, restore position and doorIsUp. |
| `DoorBehaviour.Door.constructor` | Assets/Scripts/Door.cs:11-19 | Initialisers, then Start. The door is down, at rest, not in range, with doorUp = initial position + offset, and consistent. |
| `DoorBehaviour.Door.Start` | Assets/Scripts/Door.cs:15-19 | The new fields are exactly `StartStep`. |
| `DoorBehaviour.Door.Update` | Assets/Scripts/Door.cs:21-29 | The new fields are exactly `UpdateStep`. The invariant is kept. |
| `DoorBehaviour.Door.MoveDoor` | Assets/Scripts/Door.cs:31-35 | The new fields are exactly `BeginMove`. |
| `DoorBehaviour.Door.MovementFinished` | Assets/Scripts/Door.cs:45-46 | The new fields are exactly `FinishStep`. The invariant is kept. |
| `DoorBehaviour.Door.OnTriggerStay` | Assets/Scripts/Door.cs:49-53 | The new fields are exactly `StayStep`. |
| `DoorBehaviour.Door.OnTriggerExit` | Assets/Scripts/Door.cs:55-59 | The new fields are exactly `ExitStep`. |

## Findings

| source | as written | input that shows it | evidently intended | confidence | as-written member | corrected member |
|---|---|---|---|---|---|---|
| Assets/Scripts/MonsterAIMovement.cs:224-233 | `if (count >= patrolPoints.Count) count = 0; else count++;` then `patrolPoints[count]` | a route of n ≥ 1 waypoints, arriving while count = n - 1: count becomes n and the read `patrolPoints[n]` is out of range. The frame throws before `destinationReached = false`, so the next frame wraps to 0 | wrap to 0 after the last waypoint, `count >= patrolPoints.Count - 1` | high, not executed | `MonsterAIMovement.PatrolStepAsWritten` (with `MonsterAIMovement.AdvanceAsWritten`), shown by `MonsterAIMovement.AsWrittenReadsPastEnd` | `MonsterAIMovement.Advance`, proved by `MonsterAIMovement.PatrolWrapsAtLastWaypoint` and stated by `PatrolStep` |

The sentry class and `TickStep` run the code as written: a frame that reads past the end is the `outOfRange` result of `Sentry.Tick`. The corrected `PatrolStep` is stated beside it; with it the waypoint read can fail only for an empty route.

## Left out

- Perception numerics. `Physics.OverlapSphere` results, distances, the dot product, `Mathf.Cos` and `Physics.Raycast` are inputs (`Candidate`, `Percept`).
- One snapshot per frame. A frame that scans twice (CheckState, then Search) sees the same world both times, so each frame has one `Percept`.
- `LookAtTarget`: a quaternion rotation, not modelled. The sentry's forward direction enters only through each candidate's dot product.
- Navigation and animation calls. `NavMeshAgent.SetDestination`, pathfinding, `Animator.SetBool`/`SetTrigger` and `Debug.Log` are recorded as fields (`destination`, `attacking`, `searchTriggers`) or dropped (logging).
- `target` holds the candidate's values, not a reference to a game object. A target destroyed between frames cannot occur, because every frame rescans.
- Float arithmetic. Timers and distances are exact reals, so single-precision rounding is not modelled.
- `OnDrawGizmos`: editor rendering only.
- Door movement. The `Vector3.Lerp` loop of `MoveDoor`, its `moveSpeed` and frame scheduling are replaced by the `MovementFinished` event.
- `DoorBehaviour.BeginMove` weakens one case. The coroutine ending at once is modelled only when the door is exactly on the target; Door.cs also does this within 0.01 units. Between 0 and 0.01 the environment may deliver `MovementFinished` in the same frame.
- `StopAllCoroutines` in `Door.Update` is a no-op here: the guard holds only when no movement coroutine runs.
- `Input.GetKeyDown(KeyCode.E)` is the boolean `keyDown` input. A collider's `CompareTag` is its tag string, compared with "Player".
- `MonsterAIMovement.Sentry.constructor` sets the first `state` (the inspector's string before the first frame) to Patrol and takes the agent's inspector speed as a parameter. The destination set in the inspector is the value `Configured`.
- PlayerMovement.cs, FollowEllen.cs and MonsterChase.cs are not part of this model. They are input handling, a single navigation call, and object-pool and rigid-body glue.
