/**
  The progress state machine of the challenges context: a level, the experience gathered
  toward the next level, a count of completed challenges, at most one active challenge and a
  flag that shows the level-up modal. Five handlers change this state; each runs as one
  atomic transition.

  The module gives the state twice: once as a value (`Progress`), with one pure transition
  function per handler, about which the lemmas are proved; and once as the provider object
  (`ChallengesProvider`), whose methods update its fields in place and promise to do exactly
  what the transition functions say.
*/
module ChallengesContext {

  datatype Option<+T> = None | Some(value: T) {
    /** The value, or `default` when there is none: the `??` operator of the source. */
    function GetOr(default: T): T {
      match this
      case Some(v) => v
      case None => default
    }
  }

  /** The category of a challenge; it only picks the icon that is shown. */
  datatype ChallengeType = Body | Eye

  /** One entry of the static challenge list: its category, its text and its reward. */
  datatype Challenge = Challenge(kind: ChallengeType, description: string, amount: nat)

  // ---------------------------------------------------------------------------------------
  // The level-up threshold
  // ---------------------------------------------------------------------------------------

  /** Experience needed to leave `level`: `((level + 1) * 4)` squared. */
  function Threshold(level: nat): nat {
    var base := (level + 1) * 4;
    base * base
  }

  /** The threshold grows strictly with the level. */
  lemma {:induction false} ThresholdStrictlyIncreasing(a: nat, b: nat)
    requires a < b
    ensures Threshold(a) < Threshold(b)
    decreases b - a
  {
    if b == a + 1 {
      var x, y := (a + 1) * 4, (b + 1) * 4;
      assert y == x + 4;
      assert y * y == x * x + 8 * x + 16;
    } else {
      ThresholdStrictlyIncreasing(a, b - 1);
      ThresholdStrictlyIncreasing(b - 1, b);
    }
  }

  /** The first thresholds: a new player needs 64 points to reach level 2, then 144 more. */
  lemma ThresholdExamples()
    ensures Threshold(0) == 16 && Threshold(1) == 64 && Threshold(2) == 144 && Threshold(3) == 256
  {
  }

  /**
    Total experience a player has banked on the way from level 0 up to `level`: the sum of the
    thresholds of every level below it.
  */
  function Cumulative(level: nat): nat {
    if level == 0 then 0 else Cumulative(level - 1) + Threshold(level - 1)
  }

  // ---------------------------------------------------------------------------------------
  // The state as a value, and one transition function per handler
  // ---------------------------------------------------------------------------------------

  /** The five state slots of the provider. */
  datatype Progress = Progress(
    level: nat,
    currentExperience: nat,
    challengesCompleted: nat,
    activeChallenge: Option<Challenge>,
    isLevelUpModalOpen: bool)

  /**
    Every point of experience the player has earned: what the passed levels cost plus what is
    gathered toward the next one. Completing a challenge adds its reward to this and nothing else.
  */
  function LifetimeExperience(p: Progress): nat {
    Cumulative(p.level) + p.currentExperience
  }

  /**
    The state at mount: each counter takes the supplied value if there is one (a supplied 0 is
    kept), else 1 for the level and 0 for the two others; no challenge is active and the modal
    is closed.
  */
  function Initial(level: Option<nat>, currentExperience: Option<nat>, challengesCompleted: Option<nat>): (p: Progress)
    ensures level.None? ==> p.level == 1
    ensures currentExperience.None? ==> p.currentExperience == 0
    ensures challengesCompleted.None? ==> p.challengesCompleted == 0
    ensures level.Some? ==> p.level == level.value
    ensures currentExperience.Some? ==> p.currentExperience == currentExperience.value
    ensures challengesCompleted.Some? ==> p.challengesCompleted == challengesCompleted.value
    ensures p.activeChallenge.None? && !p.isLevelUpModalOpen
  {
    Progress(level.GetOr(1), currentExperience.GetOr(0), challengesCompleted.GetOr(0), None, false)
  }

  /** The handler `leveUp`: one level more, and the modal opens; experience is kept. */
  function LevelUpStep(p: Progress): (r: Progress)
    ensures r.level == p.level + 1 && r.isLevelUpModalOpen
    ensures r.currentExperience == p.currentExperience
    ensures r.challengesCompleted == p.challengesCompleted
    ensures r.activeChallenge == p.activeChallenge
    ensures LifetimeExperience(r) == LifetimeExperience(p) + Threshold(p.level)
  {
    p.(level := p.level + 1, isLevelUpModalOpen := true)
  }

  /**
    What `Math.floor(Math.random() * n)` can give for a list of length `n`: an index into the
    list, or 0 when the list is empty.
  */
  predicate IsRandomIndex(i: nat, n: nat) {
    if n == 0 then i == 0 else i < n
  }

  /** `challenges[i]` in the source: the entry, or `undefined` (here `None`) past the end. */
  function Lookup(challenges: seq<Challenge>, i: nat): (c: Option<Challenge>)
    ensures c.Some? <==> i < |challenges|
    ensures i < |challenges| ==> c == Some(challenges[i])
    ensures c.Some? ==> c.value in challenges
  {
    if i < |challenges| then Some(challenges[i]) else None
  }

  /**
    The handler `startNewChallenge`, with the random pick given as the index `i`: the picked
    entry of the list becomes the active challenge, replacing any earlier one. With an empty
    list the source stores `undefined`, which every reader treats as no challenge.
  */
  function StartStep(p: Progress, challenges: seq<Challenge>, i: nat): (r: Progress)
    requires IsRandomIndex(i, |challenges|)
    ensures |challenges| > 0 ==> r.activeChallenge == Some(challenges[i])
    ensures |challenges| == 0 ==> r.activeChallenge.None?
    ensures r.activeChallenge.Some? ==> r.activeChallenge.value in challenges
    ensures r.level == p.level && r.currentExperience == p.currentExperience
    ensures r.challengesCompleted == p.challengesCompleted
    ensures r.isLevelUpModalOpen == p.isLevelUpModalOpen
  {
    p.(activeChallenge := Lookup(challenges, i))
  }

  /**
    The handler `completeChallenge`. With no active challenge it does nothing. Otherwise the
    reward is added; if that reaches the threshold of the current level, the threshold is taken
    off and the level goes up by exactly one (`leveUp`), whatever is left over. The active
    challenge is cleared and one more challenge counts as completed.
  */
  function CompleteStep(p: Progress): (r: Progress)
    ensures p.activeChallenge.None? ==> r == p
    ensures p.activeChallenge.Some? ==>
      && r.activeChallenge.None?
      && r.challengesCompleted == p.challengesCompleted + 1
      && LifetimeExperience(r) == LifetimeExperience(p) + p.activeChallenge.value.amount
    ensures p.activeChallenge.Some? && p.currentExperience + p.activeChallenge.value.amount < Threshold(p.level) ==>
      && r.level == p.level
      && r.currentExperience == p.currentExperience + p.activeChallenge.value.amount
      && r.isLevelUpModalOpen == p.isLevelUpModalOpen
    ensures p.activeChallenge.Some? && p.currentExperience + p.activeChallenge.value.amount >= Threshold(p.level) ==>
      && r.level == p.level + 1
      && r.currentExperience + Threshold(p.level) == p.currentExperience + p.activeChallenge.value.amount
      && r.isLevelUpModalOpen
  {
    match p.activeChallenge
    case None => p
    case Some(challenge) =>
      var threshold := Threshold(p.level);
      var finalExperience := p.currentExperience + challenge.amount;
      var leveled := if finalExperience >= threshold then LevelUpStep(p) else p;
      var finalExperience' := if finalExperience >= threshold then finalExperience - threshold else finalExperience;
      leveled.(currentExperience := finalExperience', activeChallenge := None,
               challengesCompleted := p.challengesCompleted + 1)
  }

  /** The handler `resetChallenge` (a failed challenge): the active challenge is dropped, no reward. */
  function ResetStep(p: Progress): (r: Progress)
    ensures r.activeChallenge.None?
    ensures r.level == p.level && r.currentExperience == p.currentExperience
    ensures r.challengesCompleted == p.challengesCompleted
    ensures r.isLevelUpModalOpen == p.isLevelUpModalOpen
  {
    p.(activeChallenge := None)
  }

  /** The handler `closeLevelUpModal`: only the modal flag changes, to closed. */
  function CloseModalStep(p: Progress): (r: Progress)
    ensures !r.isLevelUpModalOpen
    ensures r.level == p.level && r.currentExperience == p.currentExperience
    ensures r.challengesCompleted == p.challengesCompleted
    ensures r.activeChallenge == p.activeChallenge
  {
    p.(isLevelUpModalOpen := false)
  }

  // ---------------------------------------------------------------------------------------
  // Properties of single transitions
  // ---------------------------------------------------------------------------------------

  /** Starting twice in a row keeps only the second pick. */
  lemma StartTwiceOverwrites(p: Progress, challenges: seq<Challenge>, i: nat, j: nat)
    requires IsRandomIndex(i, |challenges|) && IsRandomIndex(j, |challenges|)
    ensures StartStep(StartStep(p, challenges, i), challenges, j) == StartStep(p, challenges, j)
  {
  }

  /** A second `completeChallenge` right after the first finds no active challenge: no double reward. */
  lemma CompleteTwiceIsCompleteOnce(p: Progress)
    ensures CompleteStep(CompleteStep(p)) == CompleteStep(p)
  {
  }

  /** A failed challenge cannot be completed afterwards. */
  lemma CompleteAfterResetChangesNothing(p: Progress)
    ensures CompleteStep(ResetStep(p)) == ResetStep(p)
  {
  }

  /**
    Completing a challenge keeps the experience below the threshold of the (possibly new) level
    exactly when the reward is less than what the current and the next level together still
    ask for; in particular whenever the reward is at most the next level's threshold.
  */
  lemma CompleteKeepsBelowThreshold(p: Progress)
    requires p.currentExperience < Threshold(p.level)
    requires p.activeChallenge.Some?
    ensures var r := CompleteStep(p);
      r.currentExperience < Threshold(r.level)
      <==> p.currentExperience + p.activeChallenge.value.amount < Threshold(p.level) + Threshold(p.level + 1)
    ensures p.activeChallenge.value.amount <= Threshold(p.level + 1) ==>
      CompleteStep(p).currentExperience < Threshold(CompleteStep(p).level)
  {
    ThresholdStrictlyIncreasing(p.level, p.level + 1);
  }

  /**
    One completion raises the level by one at most: from level 1 with no experience, a reward
    of 400 leaves level 2 with 336 points, more than the 144 that level 2 asks for.
  */
  lemma SingleLevelUpPerCompletion()
    ensures var p := Progress(1, 0, 0, Some(Challenge(Body, "", 400)), false);
      var r := CompleteStep(p);
      r.level == 2 && r.currentExperience == 336 && r.currentExperience >= Threshold(r.level)
  {
  }

  /** The two worked cases: a reward of 70 and a reward of 10, from level 1 with no experience. */
  lemma CompleteExamples(c: Challenge)
    ensures c.amount == 70 ==>
      CompleteStep(Progress(1, 0, 5, Some(c), false)) == Progress(2, 6, 6, None, true)
    ensures c.amount == 10 ==>
      CompleteStep(Progress(1, 0, 5, Some(c), false)) == Progress(1, 10, 6, None, false)
  {
  }

  // ---------------------------------------------------------------------------------------
  // Any sequence of handler calls
  // ---------------------------------------------------------------------------------------

  /** A call of one of the five handlers; `CallStart` carries the random pick. */
  datatype Action = CallLevelUp | CallStart(index: nat) | CallComplete | CallReset | CallCloseModal

  predicate Callable(a: Action, challenges: seq<Challenge>) {
    a.CallStart? ==> IsRandomIndex(a.index, |challenges|)
  }

  function Step(p: Progress, challenges: seq<Challenge>, a: Action): Progress
    requires Callable(a, challenges)
  {
    match a
    case CallLevelUp => LevelUpStep(p)
    case CallStart(i) => StartStep(p, challenges, i)
    case CallComplete => CompleteStep(p)
    case CallReset => ResetStep(p)
    case CallCloseModal => CloseModalStep(p)
  }

  /** The state after the handlers in `actions` have run one after the other. */
  function Run(p: Progress, challenges: seq<Challenge>, actions: seq<Action>): Progress
    requires forall a :: a in actions ==> Callable(a, challenges)
    decreases |actions|
  {
    if actions == [] then p
    else Run(Step(p, challenges, actions[0]), challenges, actions[1..])
  }

  /**
    An assumption about the challenge list, not something the handlers enforce: no reward
    exceeds the threshold of the level after `level`. Since thresholds grow with the level,
    once it holds it keeps holding as the player levels up.
  */
  ghost predicate RewardsBounded(challenges: seq<Challenge>, level: nat) {
    forall c :: c in challenges ==> c.amount <= Threshold(level + 1)
  }

  /**
    From any state, whatever the list's rewards: no handler lowers the level, the count of
    completed challenges or the lifetime experience.
  */
  lemma StepIsMonotone(p: Progress, challenges: seq<Challenge>, a: Action)
    requires Callable(a, challenges)
    ensures var r := Step(p, challenges, a);
      && r.level >= p.level
      && r.challengesCompleted >= p.challengesCompleted
      && LifetimeExperience(r) >= LifetimeExperience(p)
  {
  }

  /** Along any sequence of handler calls from any state, level, count and lifetime experience never go down. */
  lemma {:induction false} RunIsMonotone(p: Progress, challenges: seq<Challenge>, actions: seq<Action>)
    requires forall a :: a in actions ==> Callable(a, challenges)
    ensures var r := Run(p, challenges, actions);
      && r.level >= p.level
      && r.challengesCompleted >= p.challengesCompleted
      && LifetimeExperience(r) >= LifetimeExperience(p)
    decreases |actions|
  {
    if actions != [] {
      StepIsMonotone(p, challenges, actions[0]);
      assert forall a :: a in actions[1..] ==> a in actions;
      RunIsMonotone(Step(p, challenges, actions[0]), challenges, actions[1..]);
    }
  }

  /**
    The state is healthy when the experience is below the current threshold, the list's
    rewards are bounded for the current level, and the active challenge, if any, comes from
    the list. Without the bound on rewards the experience can outgrow the threshold.
  */
  ghost predicate Healthy(p: Progress, challenges: seq<Challenge>) {
    && p.currentExperience < Threshold(p.level)
    && RewardsBounded(challenges, p.level)
    && (p.activeChallenge.Some? ==> p.activeChallenge.value in challenges)
  }

  /** A freshly mounted provider with default values is healthy when no reward exceeds 144. */
  lemma DefaultStartIsHealthy(challenges: seq<Challenge>)
    requires forall c :: c in challenges ==> c.amount <= 144
    ensures Healthy(Initial(None, None, None), challenges)
  {
  }

  /**
    Every handler keeps a healthy state healthy; as from any state (`StepIsMonotone`), none
    lowers the level, the count of completed challenges or lifetime experience.
  */
  lemma StepPreservesHealthy(p: Progress, challenges: seq<Challenge>, a: Action)
    requires Callable(a, challenges)
    requires Healthy(p, challenges)
    ensures var r := Step(p, challenges, a);
      && Healthy(r, challenges)
      && r.level >= p.level
      && r.challengesCompleted >= p.challengesCompleted
      && LifetimeExperience(r) >= LifetimeExperience(p)
  {
    StepIsMonotone(p, challenges, a);
    var r := Step(p, challenges, a);
    if r.level != p.level {
      ThresholdStrictlyIncreasing(p.level, r.level);
      ThresholdStrictlyIncreasing(p.level + 1, r.level + 1);
    }
    if a.CallComplete? && p.activeChallenge.Some? {
      CompleteKeepsBelowThreshold(p);
    }
  }

  /**
    The invariant of the challenge cycle: along any sequence of handler calls from a healthy
    state, the experience stays below the current threshold, and the level, the count of
    completed challenges and the lifetime experience never go down.
  */
  lemma {:induction false} RunPreservesHealthy(p: Progress, challenges: seq<Challenge>, actions: seq<Action>)
    requires forall a :: a in actions ==> Callable(a, challenges)
    requires Healthy(p, challenges)
    ensures var r := Run(p, challenges, actions);
      && Healthy(r, challenges)
      && r.level >= p.level
      && r.challengesCompleted >= p.challengesCompleted
      && LifetimeExperience(r) >= LifetimeExperience(p)
    decreases |actions|
  {
    if actions != [] {
      StepPreservesHealthy(p, challenges, actions[0]);
      var q := Step(p, challenges, actions[0]);
      assert forall a :: a in actions[1..] ==> a in actions;
      RunPreservesHealthy(q, challenges, actions[1..]);
    }
  }

  // ---------------------------------------------------------------------------------------
  // The provider object
  // ---------------------------------------------------------------------------------------

  /** The context provider: five state slots updated in place by its five handlers. */
  class ChallengesProvider {
    /** The static challenge list. */
    const challenges: seq<Challenge>

    var level: nat
    var currentExperience: nat
    var challengesCompleted: nat
    var activeChallenge: Option<Challenge>
    var isLevelUpModalOpen: bool

    /** The five slots as one value. */
    function State(): Progress
      reads this
    {
      Progress(level, currentExperience, challengesCompleted, activeChallenge, isLevelUpModalOpen)
    }

    /** Mount: optional initial values default to level 1 and zero experience and count. */
    constructor (challenges: seq<Challenge>, level: Option<nat>, currentExperience: Option<nat>,
                 challengesCompleted: Option<nat>)
      ensures this.challenges == challenges
      ensures State() == Initial(level, currentExperience, challengesCompleted)
      ensures this.level == level.GetOr(1)
      ensures this.currentExperience == currentExperience.GetOr(0)
      ensures this.challengesCompleted == challengesCompleted.GetOr(0)
      ensures activeChallenge.None? && !isLevelUpModalOpen
    {
      this.challenges := challenges;
      this.level := level.GetOr(1);
      this.currentExperience := currentExperience.GetOr(0);
      this.challengesCompleted := challengesCompleted.GetOr(0);
      activeChallenge := None;
      isLevelUpModalOpen := false;
    }

    method LevelUp()
      modifies this
      ensures State() == LevelUpStep(old(State()))
      ensures level == old(level) + 1 && isLevelUpModalOpen
      ensures unchanged(this`currentExperience, this`challengesCompleted, this`activeChallenge)
    {
      level := level + 1;
      isLevelUpModalOpen := true;
    }

    /** `i` stands for the random pick. */
    method StartNewChallenge(i: nat)
      requires IsRandomIndex(i, |challenges|)
      modifies this
      ensures State() == StartStep(old(State()), challenges, i)
      ensures activeChallenge == Lookup(challenges, i)
      ensures unchanged(this`level, this`currentExperience, this`challengesCompleted, this`isLevelUpModalOpen)
    {
      activeChallenge := Lookup(challenges, i);
    }

    method CompleteChallenge()
      modifies this
      ensures State() == CompleteStep(old(State()))
      ensures old(activeChallenge).None? ==> unchanged(this)
      ensures old(activeChallenge).Some? ==>
        && activeChallenge.None?
        && challengesCompleted == old(challengesCompleted) + 1
        && (if old(currentExperience) + old(activeChallenge).value.amount >= Threshold(old(level))
            then level == old(level) + 1 && isLevelUpModalOpen
                 && currentExperience == old(currentExperience) + old(activeChallenge).value.amount - Threshold(old(level))
            else level == old(level) && isLevelUpModalOpen == old(isLevelUpModalOpen)
                 && currentExperience == old(currentExperience) + old(activeChallenge).value.amount)
    {
      if activeChallenge.None? {
        return;
      }
      var amount := activeChallenge.value.amount;
      // the threshold of the level this handler was created with
      var threshold := Threshold(level);
      var finalExperience := currentExperience + amount;
      if finalExperience >= threshold {
        finalExperience := finalExperience - threshold;
        LevelUp();
      }
      currentExperience := finalExperience;
      activeChallenge := None;
      challengesCompleted := challengesCompleted + 1;
    }

    method ResetChallenge()
      modifies this
      ensures State() == ResetStep(old(State()))
      ensures activeChallenge.None?
      ensures unchanged(this`level, this`currentExperience, this`challengesCompleted, this`isLevelUpModalOpen)
    {
      activeChallenge := None;
    }

    method CloseLevelUpModal()
      modifies this
      ensures State() == CloseModalStep(old(State()))
      ensures !isLevelUpModalOpen
      ensures unchanged(this`level, this`currentExperience, this`challengesCompleted, this`activeChallenge)
    {
      isLevelUpModalOpen := false;
    }
  }
}
