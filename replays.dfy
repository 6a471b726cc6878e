/**
 * Replaying an ordered list of registered actions, the shape of every `foreach`
 * loop in the build pipeline and in the driver loop: each action sees the state
 * left by the ones before it, and the first exception ends the replay.
 */
module Replays {
  import opened Wrappers

  /** The state after running `step` over `actions` in registration order from `init`. */
  function Replay<A, S>(actions: seq<A>, step: (S, A) -> Result<S>, init: S): Result<S>
    decreases |actions|
  {
    if actions == [] then Success(init)
    else
      match Replay(actions[..|actions| - 1], step, init)
      case Failure(e) => Failure(e)
      case Success(s) => step(s, actions[|actions| - 1])
  }

  /** One more action: the replay of a longer prefix is one step after the shorter one. */
  lemma ReplayStep<A, S>(actions: seq<A>, step: (S, A) -> Result<S>, init: S, i: nat)
    requires i < |actions|
    ensures Replay(actions[..i + 1], step, init) ==
            match Replay(actions[..i], step, init)
            case Failure(e) => Failure(e)
            case Success(s) => step(s, actions[i])
  {
    assert actions[..i + 1][..i] == actions[..i];
  }

  /** Once a prefix of the actions throws, the whole replay throws that same exception. */
  lemma {:induction false} ReplayFailureSticks<A, S>(actions: seq<A>, step: (S, A) -> Result<S>, init: S, i: nat)
    requires i <= |actions|
    requires Replay(actions[..i], step, init).Failure?
    ensures Replay(actions, step, init) == Replay(actions[..i], step, init)
  {
    if i < |actions| {
      var shorter := actions[..|actions| - 1];
      assert shorter[..i] == actions[..i];
      ReplayFailureSticks(shorter, step, init, i);
    } else {
      assert actions[..i] == actions;
    }
  }

  /** A step that only appends to a sequence state. */
  ghost predicate Appending<A(!new), X(!new)>(step: (seq<X>, A) -> Result<seq<X>>)
  {
    forall s, a :: step(s, a).Success? ==> s <= step(s, a).value
  }

  /** Replaying appending steps keeps the initial sequence as a prefix of the final one. */
  lemma {:induction false} ReplayKeepsPrefix<A(!new), X(!new)>(actions: seq<A>, step: (seq<X>, A) -> Result<seq<X>>, init: seq<X>)
    requires Appending(step)
    requires Replay(actions, step, init).Success?
    ensures init <= Replay(actions, step, init).value
  {
    if actions != [] {
      ReplayKeepsPrefix(actions[..|actions| - 1], step, init);
    }
  }
}
