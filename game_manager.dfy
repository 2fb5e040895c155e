/**
 * GameManager: the round and score state machine. The paint meter drains
 * every frame, each customer has a time limit, a matching painting earns
 * paint and 100 points, a wrong one or a timeout costs paint, and the game
 * ends when the paint runs out.
 *
 * The transitions are first given as functions on a `RoundState` value;
 * the `GameManager` class below changes its fields exactly as those
 * functions say, and the lemmas about sequences of transitions are stated
 * on the functions. Frame time (`Time.deltaTime`) and the random draw for
 * the next customer are parameters. Floats are reals.
 */
module Game {
  import opened Engine
  import opened Npc

  /** The inspector settings. */
  datatype Settings = Settings(
    maxPaint: real,
    paintLossPerSecond: real,
    timePerCustomer: real,
    paintPenaltyPerMistake: real,
    paintRewardPerSuccess: real)

  /** The values the component declares for its inspector fields. */
  const DefaultSettings: Settings := Settings(100.0, 1.0, 60.0, 10.0, 15.0)

  /** Settings under which rewards, drains and penalties have their intended signs. */
  predicate SaneSettings(cfg: Settings) {
    && cfg.maxPaint >= 0.0
    && cfg.paintLossPerSecond >= 0.0
    && cfg.timePerCustomer >= 0.0
    && cfg.paintPenaltyPerMistake >= 0.0
    && cfg.paintRewardPerSuccess >= 0.0
  }

  /** The declared settings are sane, and a game with them starts on 50 paint and 60 seconds. */
  lemma DefaultSettingsSane()
    ensures SaneSettings(DefaultSettings)
    ensures Started(DefaultSettings).paint == 50.0 && Started(DefaultSettings).time == 60.0
  {
  }

  /** currentPaint, currentTime, score and isGameActive. */
  datatype RoundState = RoundState(paint: real, time: real, score: int, active: bool)

  /** The fields before the first game: the C# defaults. */
  const InitialState: RoundState := RoundState(0.0, 0.0, 0, false)

  // ---------------------------------------------------------------------
  // Transitions on values
  // ---------------------------------------------------------------------

  /** SpawnNewCustomer: only the timer is reset (the target is redrawn elsewhere). */
  function Spawned(cfg: Settings, s: RoundState): (t: RoundState)
    ensures t.time == cfg.timePerCustomer
    ensures t.paint == s.paint && t.score == s.score && t.active == s.active
  {
    s.(time := cfg.timePerCustomer)
  }

  /** StartGame: half a meter of paint, no points, active, a fresh timer. */
  function Started(cfg: Settings): (t: RoundState)
    ensures t.active && t.score == 0
    ensures t.paint == cfg.maxPaint / 2.0 && t.time == cfg.timePerCustomer
  {
    Spawned(cfg, RoundState(cfg.maxPaint / 2.0, 0.0, 0, true))
  }

  /** GameOver: the game stops; paint, timer and score are frozen as they are. */
  function Ended(s: RoundState): (t: RoundState)
    ensures !t.active
    ensures t.paint == s.paint && t.time == s.time && t.score == s.score
  {
    s.(active := false)
  }

  /**
   * CustomerRejected: half the mistake penalty and a fresh timer. It has no
   * guard of its own; the score and the active flag are left alone.
   */
  function Rejected(cfg: Settings, s: RoundState): (t: RoundState)
    ensures t.paint == s.paint - cfg.paintPenaltyPerMistake / 2.0
    ensures t.time == cfg.timePerCustomer
    ensures t.score == s.score && t.active == s.active
  {
    Spawned(cfg, s.(paint := s.paint - cfg.paintPenaltyPerMistake / 2.0))
  }

  /**
   * Update: one frame of `dt` seconds. Inactive, nothing changes. Active,
   * paint drains and the timer runs down; then running out of paint ends
   * the game, and only otherwise does running out of time reject the
   * customer.
   */
  function Ticked(cfg: Settings, s: RoundState, dt: real): (t: RoundState)
    requires dt >= 0.0
    ensures !s.active ==> t == s
    ensures t.score == s.score
    ensures s.active && s.paint - cfg.paintLossPerSecond * dt <= 0.0 ==>
              t == RoundState(s.paint - cfg.paintLossPerSecond * dt, s.time - dt, s.score, false)
    ensures s.active && s.paint - cfg.paintLossPerSecond * dt > 0.0 && s.time - dt <= 0.0 ==>
              t == RoundState(s.paint - cfg.paintLossPerSecond * dt - cfg.paintPenaltyPerMistake / 2.0,
                              cfg.timePerCustomer, s.score, true)
    ensures s.active && s.paint - cfg.paintLossPerSecond * dt > 0.0 && s.time - dt > 0.0 ==>
              t == RoundState(s.paint - cfg.paintLossPerSecond * dt, s.time - dt, s.score, true)
  {
    if !s.active then s
    else
      var drained := s.(paint := s.paint - cfg.paintLossPerSecond * dt, time := s.time - dt);
      if drained.paint <= 0.0 then Ended(drained)
      else if drained.time <= 0.0 then Rejected(cfg, drained)
      else drained
  }

  /**
   * SubmitPainting: ignored when inactive. A match adds the reward, capped
   * at the maximum, and exactly 100 points; a mismatch costs the penalty
   * and no points, and does not end the game even if paint goes negative.
   * Either way the next customer gets a fresh timer.
   */
  function Submitted(cfg: Settings, s: RoundState, isMatch: bool): (t: RoundState)
    ensures !s.active ==> t == s
    ensures s.active ==> t.active && t.time == cfg.timePerCustomer
    ensures s.active && isMatch ==>
              t.score == s.score + 100 && t.paint <= cfg.maxPaint
              && t.paint == MinReal(cfg.maxPaint, s.paint + cfg.paintRewardPerSuccess)
    ensures s.active && !isMatch ==>
              t.score == s.score && t.paint == s.paint - cfg.paintPenaltyPerMistake
  {
    if !s.active then s
    else if isMatch then
      Spawned(cfg, s.(paint := MinReal(cfg.maxPaint, s.paint + cfg.paintRewardPerSuccess), score := s.score + 100))
    else
      Spawned(cfg, s.(paint := s.paint - cfg.paintPenaltyPerMistake))
  }

  // ---------------------------------------------------------------------
  // Sequences of transitions
  // ---------------------------------------------------------------------

  /** The calls GameManager receives from outside. */
  datatype Event = StartGame | Spawn | Tick(dt: real) | Submit(isMatch: bool) | Reject | GameOver

  predicate WellFormed(e: Event) {
    e.Tick? ==> e.dt >= 0.0
  }

  function Step(cfg: Settings, s: RoundState, e: Event): (t: RoundState)
    requires WellFormed(e)
  {
    match e
    case StartGame => Started(cfg)
    case Spawn => Spawned(cfg, s)
    case Tick(dt) => Ticked(cfg, s, dt)
    case Submit(isMatch) => Submitted(cfg, s, isMatch)
    case Reject => Rejected(cfg, s)
    case GameOver => Ended(s)
  }

  function Run(cfg: Settings, s: RoundState, events: seq<Event>): (t: RoundState)
    requires forall i :: 0 <= i < |events| ==> WellFormed(events[i])
    decreases |events|
  {
    if events == [] then s else Run(cfg, Step(cfg, s, events[0]), events[1..])
  }

  /** Scores only ever come in whole hundreds. */
  predicate ValidScore(s: RoundState) {
    s.score >= 0 && s.score % 100 == 0
  }

  /** The invariant every reachable state keeps under sane settings. */
  predicate Bounded(cfg: Settings, s: RoundState) {
    ValidScore(s) && s.paint <= cfg.maxPaint && s.time <= cfg.timePerCustomer
  }

  lemma MulNonnegative(x: real, y: real)
    requires x >= 0.0 && y >= 0.0
    ensures x * y >= 0.0
  {
  }

  lemma StepKeepsBounded(cfg: Settings, s: RoundState, e: Event)
    requires SaneSettings(cfg) && WellFormed(e) && Bounded(cfg, s)
    ensures Bounded(cfg, Step(cfg, s, e))
  {
    match e
    case Tick(dt) =>
      MulNonnegative(cfg.paintLossPerSecond, dt);
    case _ =>
  }

  /**
   * Whatever the settings, no sequence of calls makes the score anything
   * but a non-negative multiple of 100.
   */
  lemma {:induction false} RunKeepsScore(cfg: Settings, s: RoundState, events: seq<Event>)
    requires ValidScore(s)
    requires forall i :: 0 <= i < |events| ==> WellFormed(events[i])
    ensures ValidScore(Run(cfg, s, events))
    decreases |events|
  {
    if events != [] {
      RunKeepsScore(cfg, Step(cfg, s, events[0]), events[1..]);
    }
  }

  /**
   * From a bounded state, no sequence of calls can push paint above the
   * maximum or the timer above its limit, or make the score anything but
   * a non-negative multiple of 100.
   */
  lemma {:induction false} RunKeepsBounded(cfg: Settings, s: RoundState, events: seq<Event>)
    requires SaneSettings(cfg) && Bounded(cfg, s)
    requires forall i :: 0 <= i < |events| ==> WellFormed(events[i])
    ensures Bounded(cfg, Run(cfg, s, events))
    decreases |events|
  {
    if events != [] {
      StepKeepsBounded(cfg, s, events[0]);
      RunKeepsBounded(cfg, Step(cfg, s, events[0]), events[1..]);
    }
  }

  /** Every state a game reaches from the initial one is bounded. */
  lemma ReachableBounded(cfg: Settings, events: seq<Event>)
    requires SaneSettings(cfg)
    requires forall i :: 0 <= i < |events| ==> WellFormed(events[i])
    ensures Bounded(cfg, Run(cfg, InitialState, events))
  {
    RunKeepsBounded(cfg, InitialState, events);
  }

  /**
   * After GameOver the score is final: no call short of StartGame changes
   * it, whatever the settings and whatever ticks or submissions follow.
   */
  lemma {:induction false} ScoreFrozenWhileInactive(cfg: Settings, s: RoundState, events: seq<Event>)
    requires !s.active
    requires forall i :: 0 <= i < |events| ==> WellFormed(events[i]) && !events[i].StartGame?
    ensures Run(cfg, s, events).score == s.score && !Run(cfg, s, events).active
    decreases |events|
  {
    if events != [] {
      ScoreFrozenWhileInactive(cfg, Step(cfg, s, events[0]), events[1..]);
    }
  }

  /**
   * Ticks, submissions and further GameOver calls leave an inactive game
   * exactly as it was.
   */
  lemma {:induction false} InactiveIsInert(cfg: Settings, s: RoundState, events: seq<Event>)
    requires !s.active
    requires forall i :: 0 <= i < |events| ==>
               WellFormed(events[i]) && (events[i].Tick? || events[i].Submit? || events[i].GameOver?)
    ensures Run(cfg, s, events) == s
    decreases |events|
  {
    if events != [] {
      InactiveIsInert(cfg, Step(cfg, s, events[0]), events[1..]);
    }
  }

  /** An active game becomes inactive in one frame only through exhausted paint. */
  lemma TickEndsOnlyOnEmptyPaint(cfg: Settings, s: RoundState, dt: real)
    requires dt >= 0.0 && s.active && !Ticked(cfg, s, dt).active
    ensures Ticked(cfg, s, dt).paint <= 0.0
  {
  }

  // ---------------------------------------------------------------------
  // The component
  // ---------------------------------------------------------------------

  class GameManager {
    const settings: Settings
    /** The NPC in the scene; the inspector may leave it unset. */
    const currentNPC: NPCController?
    var currentPaint: real
    var score: int
    var currentTime: real
    var isGameActive: bool

    ghost function State(): RoundState
      reads this
    {
      RoundState(currentPaint, currentTime, score, isGameActive)
    }

    /** While a game runs, the NPC (if any) has a customer to compare with. */
    ghost predicate Valid()
      reads this, currentNPC
    {
      isGameActive && currentNPC != null ==> currentNPC.currentAttributes.Some?
    }

    /** The component with the inspector's settings (DefaultSettings unless changed). */
    constructor (cfg: Settings, npc: NPCController?)
      ensures settings == cfg && currentNPC == npc
      ensures State() == InitialState && Valid()
    {
      settings := cfg;
      currentNPC := npc;
      currentPaint, score, currentTime, isGameActive := 0.0, 0, 0.0, false;
    }

    /** The NPC after a new customer was drawn from `d`, or as it was when there is none. */
    ghost predicate CustomerDrawn(d: Draw)
      requires ValidDraw(d)
      reads currentNPC
    {
      currentNPC != null ==> currentNPC.currentAttributes == Some(Generate(d))
    }

    method SpawnNewCustomer(d: Draw)
      requires ValidDraw(d)
      modifies this`currentTime, currentNPC
      ensures State() == Spawned(settings, old(State()))
      ensures CustomerDrawn(d)
    {
      currentTime := settings.timePerCustomer;
      if currentNPC != null {
        currentNPC.GenerateRandomAttributes(d);
      }
    }

    method StartGame(d: Draw)
      requires ValidDraw(d)
      modifies this, currentNPC
      ensures State() == Started(settings)
      ensures CustomerDrawn(d) && Valid()
    {
      currentPaint := settings.maxPaint / 2.0;
      score := 0;
      isGameActive := true;
      SpawnNewCustomer(d);
    }

    method CustomerRejected(d: Draw)
      requires ValidDraw(d) && Valid()
      modifies this, currentNPC
      ensures State() == Rejected(settings, old(State()))
      ensures CustomerDrawn(d) && Valid()
    {
      currentPaint := currentPaint - settings.paintPenaltyPerMistake / 2.0;
      SpawnNewCustomer(d);
    }

    method GameOver()
      requires Valid()
      modifies this
      ensures State() == Ended(old(State())) && Valid()
    {
      isGameActive := false;
    }

    /**
     * Update: one frame of `dt` seconds. A new customer is drawn from `d`
     * exactly when the frame rejects the current one.
     */
    method Update(dt: real, d: Draw)
      requires dt >= 0.0 && ValidDraw(d) && Valid()
      modifies this, currentNPC
      ensures State() == Ticked(settings, old(State()), dt) && Valid()
      ensures var rejected := old(isGameActive) && old(currentPaint) - settings.paintLossPerSecond * dt > 0.0
                             && old(currentTime) - dt <= 0.0;
              if rejected then CustomerDrawn(d)
              else currentNPC != null ==> currentNPC.currentAttributes == old(currentNPC.currentAttributes)
    {
      if !isGameActive {
        return;
      }
      currentPaint := currentPaint - settings.paintLossPerSecond * dt;
      currentTime := currentTime - dt;
      if currentPaint <= 0.0 {
        GameOver();
      } else if currentTime <= 0.0 {
        CustomerRejected(d);
      }
    }

    /**
     * SubmitPainting: judge `submission` against the current customer, then
     * draw the next one from `d`. With no NPC in the scene, an active game
     * fails on the comparison before changing anything; `completed` is
     * false exactly then.
     */
    method SubmitPainting(submission: Submission, d: Draw) returns (completed: bool)
      requires ValidDraw(d) && Valid()
      modifies this, currentNPC
      ensures completed <==> !(old(isGameActive) && currentNPC == null)
      ensures Valid()
      ensures !completed ==> State() == old(State())
      ensures completed ==>
                State() == Submitted(settings, old(State()),
                                     old(isGameActive) && currentNPC != null
                                     && CompareWithSubmission(old(currentNPC.currentAttributes).value, submission))
      ensures completed && old(isGameActive) ==> CustomerDrawn(d)
      ensures !old(isGameActive) && currentNPC != null ==>
                currentNPC.currentAttributes == old(currentNPC.currentAttributes)
    {
      if !isGameActive {
        return true;
      }
      if currentNPC == null {
        return false;
      }
      var isMatch := CompareWithSubmission(currentNPC.currentAttributes.value, submission);
      if isMatch {
        currentPaint := MinReal(settings.maxPaint, currentPaint + settings.paintRewardPerSuccess);
        score := score + 100;
      } else {
        currentPaint := currentPaint - settings.paintPenaltyPerMistake;
      }
      SpawnNewCustomer(d);
      return true;
    }
  }
}
