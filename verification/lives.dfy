/**
 The lives counter of src/js/World/LivesManager.js. Every change of the
 count emits one `looseLife` event carrying the new count; its handler ends
 the game exactly when that count is 0, and ending the game sets
 `store.hasLost`. The DOM, virtual keyboard and leaderboard work of
 `endGame` is not part of this model; `endGames` counts how often it ran.
 */
module Lives {
  import opened Session

  const InitialLives: int := 2

  /** The manager's state together with the session flags it writes:
      `events` lists the payloads of the `looseLife` events in order. */
  datatype Outcome = Outcome(lives: int, store: Store, events: seq<int>, endGames: nat)

  function Init(store: Store): (o: Outcome)
    ensures o.lives == InitialLives && o.events == [] && o.endGames == 0 && o.store == store
  {
    Outcome(InitialLives, store, [], 0)
  }

  /** `endGame`: only its `store.hasLost = true` write is modelled. */
  function EndGame(o: Outcome): (r: Outcome)
    ensures r.store.hasLost
    ensures r.store == o.store.(hasLost := true)
    ensures r.lives == o.lives && r.events == o.events && r.endGames == o.endGames + 1
  {
    o.(store := o.store.(hasLost := true), endGames := o.endGames + 1)
  }

  /** Emits `looseLife(lives)` and runs its listener `handleLooseLife`. */
  function Emit(o: Outcome): (r: Outcome)
    ensures r.lives == o.lives && r.events == o.events + [o.lives]
    ensures o.lives == 0 ==> r.store.hasLost && r.endGames == o.endGames + 1
    ensures o.lives != 0 ==> r.store == o.store && r.endGames == o.endGames
    ensures r.store.started == o.store.started && r.store.isFusion == o.store.isFusion
    ensures r.store.startTime == o.store.startTime
  {
    var emitted := o.(events := o.events + [o.lives]);
    if o.lives == 0 then EndGame(emitted) else emitted
  }

  /** `removeLife`: one life less, with no floor at zero. */
  function RemoveLife(o: Outcome): (r: Outcome)
    ensures r.lives == o.lives - 1
    ensures r.events == o.events + [o.lives - 1]
    ensures r.store.hasLost == (o.store.hasLost || o.lives == 1)
    ensures r.endGames == o.endGames + (if o.lives == 1 then 1 else 0)
    ensures r.store.started == o.store.started && r.store.isFusion == o.store.isFusion
    ensures r.store.startTime == o.store.startTime
  {
    Emit(o.(lives := o.lives - 1))
  }

  /** `loose`: caught by the danger front, the count drops to 0 whatever it was. */
  function Loose(o: Outcome): (r: Outcome)
    ensures r.lives == 0 && r.events == o.events + [0]
    ensures r.store.hasLost && r.endGames == o.endGames + 1
    ensures r.store.started == o.store.started && r.store.isFusion == o.store.isFusion
    ensures r.store.startTime == o.store.startTime
  {
    Emit(o.(lives := 0))
  }

  datatype LifeOp = RemoveOp | LooseOp

  function Apply(o: Outcome, op: LifeOp): Outcome
  {
    match op
    case RemoveOp => RemoveLife(o)
    case LooseOp => Loose(o)
  }

  /** Applies the calls in order. */
  function Run(o: Outcome, ops: seq<LifeOp>): Outcome
    decreases |ops|
  {
    if ops == [] then o else Run(Apply(o, ops[0]), ops[1..])
  }

  /** How many zeros a list of event payloads holds. */
  function Zeros(s: seq<int>): nat
  {
    if s == [] then 0 else (if s[0] == 0 then 1 else 0) + Zeros(s[1..])
  }

  /** Over any sequence of calls: one event per call, `endGame` runs exactly
      once per event whose count is 0, `hasLost` ends up set exactly when it
      was set before or some new event carried 0, and nothing else in the
      session changes. */
  lemma {:induction false} RunAccounting(o: Outcome, ops: seq<LifeOp>)
    ensures |Run(o, ops).events| == |o.events| + |ops|
    ensures Run(o, ops).events[..|o.events|] == o.events
    ensures Run(o, ops).endGames == o.endGames + Zeros(Run(o, ops).events[|o.events|..])
    ensures Run(o, ops).store.hasLost <==> o.store.hasLost || 0 in Run(o, ops).events[|o.events|..]
    ensures Run(o, ops).store.started == o.store.started
    ensures Run(o, ops).store.isFusion == o.store.isFusion
    ensures Run(o, ops).store.startTime == o.store.startTime
    decreases |ops|
  {
    if ops != [] {
      var o1 := Apply(o, ops[0]);
      var r := Run(o1, ops[1..]);
      RunAccounting(o1, ops[1..]);
      assert r == Run(o, ops);
      assert o1.events == o.events + [o1.lives];
      var tail := r.events[|o.events|..];
      assert r.events[..|o1.events|] == o1.events;
      assert tail == [o1.lives] + r.events[|o1.events|..];
      assert tail[1..] == r.events[|o1.events|..];
    }
  }

  /** Once lost, always lost: no call of the manager clears `hasLost`. */
  lemma HasLostIsSticky(o: Outcome, ops: seq<LifeOp>)
    requires o.store.hasLost
    ensures Run(o, ops).store.hasLost
  {
    RunAccounting(o, ops);
  }
}
