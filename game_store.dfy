// The page-side game store: the player's nickname and the live figures of
// the current run that the page shows around the game.

module GameStore {
  import opened Util

  datatype GameState = GameState(
    nickname: string,
    isPlaying: bool,
    currentHeight: real,
    elapsedTime: real,
    jumpPower: real,
    lastClearTime: Option<real>)

  const INITIAL: GameState := GameState("", false, 0.0, 0.0, 0.0, None)

  /** The state after a new run is prepared: every run figure cleared,
      the nickname kept. */
  function Reset(s: GameState): (r: GameState)
  {
    s.(isPlaying := false, currentHeight := 0.0, elapsedTime := 0.0, jumpPower := 0.0, lastClearTime := None)
  }

  /** Resetting clears the run and keeps the nickname; resetting again
      changes nothing; a reset store differs from a fresh one only by its
      nickname. */
  lemma ResetRules(s: GameState)
    ensures Reset(s).nickname == s.nickname
    ensures !Reset(s).isPlaying && Reset(s).lastClearTime.None?
    ensures Reset(s).currentHeight == 0.0 && Reset(s).elapsedTime == 0.0 && Reset(s).jumpPower == 0.0
    ensures Reset(Reset(s)) == Reset(s)
    ensures Reset(s) == INITIAL.(nickname := s.nickname)
  {
  }

  class Store {
    var nickname: string
    var isPlaying: bool
    var currentHeight: real
    var elapsedTime: real
    var jumpPower: real
    var lastClearTime: Option<real>

    function State(): GameState
      reads this
    {
      GameState(nickname, isPlaying, currentHeight, elapsedTime, jumpPower, lastClearTime)
    }

    constructor ()
      ensures State() == INITIAL
    {
      nickname := "";
      isPlaying := false;
      currentHeight := 0.0;
      elapsedTime := 0.0;
      jumpPower := 0.0;
      lastClearTime := None;
    }

    method SetNickname(n: string)
      modifies this
      ensures State() == old(State()).(nickname := n)
    {
      nickname := n;
    }

    method SetIsPlaying(b: bool)
      modifies this
      ensures State() == old(State()).(isPlaying := b)
    {
      isPlaying := b;
    }

    method SetCurrentHeight(h: real)
      modifies this
      ensures State() == old(State()).(currentHeight := h)
    {
      currentHeight := h;
    }

    method SetElapsedTime(t: real)
      modifies this
      ensures State() == old(State()).(elapsedTime := t)
    {
      elapsedTime := t;
    }

    method SetJumpPower(p: real)
      modifies this
      ensures State() == old(State()).(jumpPower := p)
    {
      jumpPower := p;
    }

    method SetLastClearTime(t: Option<real>)
      modifies this
      ensures State() == old(State()).(lastClearTime := t)
    {
      lastClearTime := t;
    }

    method ResetGame()
      modifies this
      ensures State() == Reset(old(State()))
    {
      isPlaying := false;
      currentHeight := 0.0;
      elapsedTime := 0.0;
      jumpPower := 0.0;
      lastClearTime := None;
    }
  }
}
