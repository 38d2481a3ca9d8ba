# Challenges progress state machine

A Dafny model of the progress state kept by the challenges context provider of a small
gamified habit tracker. The provider holds five slots:
- the player's `level`;
- the experience gathered toward the next level;
- the number of completed challenges;
- the active challenge, if there is one;
- whether the level-up modal is open.

The slots change only through five handlers:
- `leveUp`;
- `startNewChallenge`;
- `completeChallenge`;
- `resetChallenge`;
- `closeLevelUpModal`.

The threshold for leaving a level is `((level + 1) * 4)` squared.

Everything is in `challenges_context.dfy`, module `ChallengesContext`:

- `Progress` is the five slots as a value. `Initial`, `LevelUpStep`, `StartStep`,
  `CompleteStep`, `ResetStep` and `CloseModalStep` are the mount state and the five handlers
  as pure transitions. The lemmas are about these.
- `ChallengesProvider` is the provider as an object. Its fields are the five slots and its
  methods update them in place. Each method promises the whole new state, field by field, and
  equates `State()` with the matching transition function.
- `Action`, `Step` and `Run` apply any sequence of handler calls. `Healthy` is the invariant
  that such a sequence keeps, given `RewardsBounded`.
- `LifetimeExperience` is the cost of all levels already passed (`Cumulative`, a sum of
  thresholds) plus the current experience. A completion raises it by exactly the reward, so a
  level-up inside a completion neither loses nor creates experience.

Each handler is one atomic transition. React applies all the setters of one handler together.
Inside `completeChallenge`, the threshold and the level that `leveUp` increments are the values
captured when the handler was created. The method computes the threshold once, before it calls
`LevelUp`.

The random pick `Math.floor(Math.random() * challenges.length)` is an index argument `i`. For a
non-empty list, `i` is an index into it; for an empty list, `i` is 0 (`IsRandomIndex`). With an
empty list the source reads `challenges[0]`, which is `undefined`. It stores that as the active
challenge, and every reader treats it as no challenge. The model therefore sets no active
challenge (`Lookup` gives `None` past the end). This follows the code. It does not make an empty
list a no-op: an active challenge that existed before is dropped.

The source keeps experience below the current threshold only when rewards are bounded. A
completion raises the level by one at most, so a large reward can leave more experience than
the new level asks for (`SingleLevelUpPerCompletion`). The invariant is proved under an
assumption about the list, `RewardsBounded`: every listed reward is at most the next level's
threshold. The handlers do not enforce it. `Healthy` combines that assumption with the state
invariant. `CompleteKeepsBelowThreshold` gives the exact condition for one completion.

## Model

| member | source | states |
|---|---|---|
| `ChallengesContext.Threshold` | src/contexts/ChallengesContext.tsx:43 | the experience needed to leave a level, `((level + 1) * 4)` squared, in exact integers; its properties are stated by `ThresholdStrictlyIncreasing` and `ThresholdExamples` |
| `ChallengesContext.ThresholdStrictlyIncreasing` | src/contexts/ChallengesContext.tsx:43 | the level-up threshold grows strictly with the level |
| `ChallengesContext.ThresholdExamples` | src/contexts/ChallengesContext.tsx:43 | the thresholds of levels 0 to 3 are 16, 64, 144 and 256 |
| `ChallengesContext.Initial` | src/contexts/ChallengesContext.tsx:37-41 | each counter takes the supplied value when one is given (a supplied 0 is kept), else level 1, experience 0 and count 0; no active challenge; modal closed |
| `ChallengesContext.ChallengesProvider.constructor` | src/contexts/ChallengesContext.tsx:36-41 | the mounted provider holds the challenge list and exactly the `Initial` state |
| `ChallengesContext.LevelUpStep` | src/contexts/ChallengesContext.tsx:56-59 | level goes up by one and the modal opens; experience, count and active challenge are kept; lifetime experience grows by the threshold of the old level |
| `ChallengesContext.ChallengesProvider.LevelUp` | src/contexts/ChallengesContext.tsx:56-59 | increments the level field and opens the modal; the other three fields are unchanged |
| `ChallengesContext.IsRandomIndex` | src/contexts/ChallengesContext.tsx:62 | the values `Math.floor(Math.random() * n)` can take: an index below the list's length `n`, or 0 for an empty list |
| `ChallengesContext.Lookup` | src/contexts/ChallengesContext.tsx:62-63 | reading the list at the picked index gives entry `i` itself exactly when the index is in range, and `undefined` (`None`) otherwise |
| `ChallengesContext.StartStep` | src/contexts/ChallengesContext.tsx:61-65 | the active challenge becomes the picked entry of a non-empty list (none for an empty list), always an element of the list; level, experience, count and modal are kept |
| `ChallengesContext.StartTwiceOverwrites` | src/contexts/ChallengesContext.tsx:61-65 | starting twice in a row leaves only the second pick |
| `ChallengesContext.ChallengesProvider.StartNewChallenge` | src/contexts/ChallengesContext.tsx:61-65 | sets the active challenge to the picked entry and changes no other field |
| `ChallengesContext.CompleteStep` | src/contexts/ChallengesContext.tsx:76-91 | no active challenge: nothing changes. Otherwise the challenge is cleared, the count grows by one and lifetime experience grows by exactly the reward. Below the threshold, the reward is added and level and modal are kept. At or above it, the level grows by exactly one, the threshold is taken off and the modal opens |
| `ChallengesContext.CompleteTwiceIsCompleteOnce` | src/contexts/ChallengesContext.tsx:76-91 | completing twice in a row has the effect of completing once, so a reward is never paid twice |
| `ChallengesContext.CompleteAfterResetChangesNothing` | src/contexts/ChallengesContext.tsx:76-95 | after a failed (reset) challenge, completing changes nothing |
| `ChallengesContext.CompleteKeepsBelowThreshold` | src/contexts/ChallengesContext.tsx:81-88 | from experience below the threshold, the result stays below the new level's threshold exactly when experience plus reward is below the current and the next threshold together; this always holds when the reward is at most the next threshold |
| `ChallengesContext.SingleLevelUpPerCompletion` | src/contexts/ChallengesContext.tsx:83-86 | from level 1 with no experience, a reward of 400 gives level 2 with 336 points, which still meets level 2's threshold: one completion never levels up twice |
| `ChallengesContext.CompleteExamples` | src/contexts/ChallengesContext.tsx:76-91 | from level 1 with no experience, a reward of 70 gives level 2, 6 points and an open modal; a reward of 10 gives level 1 and 10 points; both clear the challenge and count it |
| `ChallengesContext.ChallengesProvider.CompleteChallenge` | src/contexts/ChallengesContext.tsx:76-91 | the same transition as `CompleteStep`, field by field, on the provider's fields |
| `ChallengesContext.ResetStep` | src/contexts/ChallengesContext.tsx:93-95 | the active challenge is cleared; level, experience, count and modal are kept |
| `ChallengesContext.ChallengesProvider.ResetChallenge` | src/contexts/ChallengesContext.tsx:93-95 | clears the active challenge field and nothing else |
| `ChallengesContext.CloseModalStep` | src/contexts/ChallengesContext.tsx:97-99 | the modal is closed; every other slot is kept |
| `ChallengesContext.ChallengesProvider.CloseLevelUpModal` | src/contexts/ChallengesContext.tsx:97-99 | clears the modal flag and nothing else |
| `ChallengesContext.StepIsMonotone` | src/contexts/ChallengesContext.tsx:56-99 | from any state and for any list, none of the five handlers lowers the level, the count of completed challenges or lifetime experience |
| `ChallengesContext.RunIsMonotone` | src/contexts/ChallengesContext.tsx:56-99 | from any state and for any list, level, count and lifetime experience never go down along any sequence of handler calls |
| `ChallengesContext.DefaultStartIsHealthy` | src/contexts/ChallengesContext.tsx:37-43 | with default initial values, the state is healthy when no listed reward exceeds 144 |
| `ChallengesContext.StepPreservesHealthy` | src/contexts/ChallengesContext.tsx:56-99 | each of the five handlers keeps a healthy state healthy and lowers neither the level, nor the count, nor lifetime experience |
| `ChallengesContext.RunPreservesHealthy` | src/contexts/ChallengesContext.tsx:56-99 | along any sequence of handler calls from a healthy state: experience stays below the current threshold, and level, count and lifetime experience never go down |

## Left out

- Cookie persistence of level, experience and count (the write under the key `leve` included). It is browser storage and has no effect on the transitions.
- The notification permission request, the notification and the sound when a challenge starts. These are browser side effects. The notification reads the reward of the picked challenge, which fails for an empty list; the model does not capture that failure.
- `Math.random()`: the pick is an argument; randomness and floating point are not modelled.
- Number arithmetic is floating point in the source. This covers the threshold (`Math.pow`), `currentExperience + amount`, the subtraction of the threshold, `level + 1` and `challengesCompleted + 1`. The model uses exact integers, which agree with the source only while every value stays below 2^53.
- Rewards are natural numbers in the model. The JSON list's number type allows negative or fractional rewards; those are not modelled.
- Loading the challenge list from its JSON file: the list is a constructor argument.
- Rendering. This includes the level-up modal expression, which uses `??` on a boolean and so never shows the modal.
- The challenge box component, which renders one of two views and calls `completeChallenge` or `resetChallenge` followed by a countdown reset. The countdown context is not part of this model.
- React context wiring and effects.
- Counters are natural numbers: initial values that are negative or not numbers are not modelled.
