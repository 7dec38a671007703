/**
 * The loading state as a whole: the player and map plugins each add one step on
 * entering it, and the game moves on to playing once both gates have settled.
 */
module Game {
  import opened Common
  import opened AssetGate
  import Load
  import Player
  import Map

  /** The steps once both plugins have added theirs (in either order: the two keys differ). */
  const INITIAL_STEPS: map<string, bool> := map[Player.PLAYER_LOAD_NAME := false, Map.MAP_LOAD_NAME := false]

  /** Once a player gate call and a map gate call have settled, every step is done and play starts. */
  lemma BothSettledStartsPlaying(calls: seq<(string, Option<LoadState>)>, i: nat, j: nat)
    requires SettledAt(calls, i, Player.PLAYER_LOAD_NAME) && SettledAt(calls, j, Map.MAP_LOAD_NAME)
    ensures Load.AllDone(Replay(INITIAL_STEPS, calls))
  {
    SettledGatesCompleteLoading(INITIAL_STEPS, calls);
  }

  /** While the map's set is neither loaded nor failed, the map's step holds the game in the loading state. */
  lemma MapPendingKeepsLoading(calls: seq<(string, Option<LoadState>)>)
    requires forall i :: 0 <= i < |calls| && calls[i].0 == Map.MAP_LOAD_NAME ==> !Settles(calls[i].1)
    ensures !Load.AllDone(Replay(INITIAL_STEPS, calls))
  {
    UnsettledStepStaysPending(INITIAL_STEPS, calls, Map.MAP_LOAD_NAME);
  }

  /** While the player's set is neither loaded nor failed, the player's step holds the game in the loading state. */
  lemma PlayerPendingKeepsLoading(calls: seq<(string, Option<LoadState>)>)
    requires forall i :: 0 <= i < |calls| && calls[i].0 == Player.PLAYER_LOAD_NAME ==> !Settles(calls[i].1)
    ensures !Load.AllDone(Replay(INITIAL_STEPS, calls))
  {
    UnsettledStepStaysPending(INITIAL_STEPS, calls, Player.PLAYER_LOAD_NAME);
  }
}
