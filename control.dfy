/**
 * The game's control state as a value: phase, mode, winner, scores, the
 * latched paddle keys and the running flag, with the key handler, the game
 * reset and the per-frame win check as functions on it. The game object's
 * methods are proved to act exactly as these functions say.
 */
module Control {
  import opened Scoring

  datatype Phase = Menu | Playing | Paused | GameOver

  datatype Mode = NoMode | PlayerVsPlayer | PlayerVsAi

  /** The winner flag; Undecided is its initial empty value, which a reset does not restore. */
  datatype Winner = Undecided | LeftWins | RightWins

  /** The keys the handler distinguishes; every other key is KeyOther. */
  datatype Key = KeyQ | KeySpace | KeyP | KeyR | Key1 | Key2 | KeyW | KeyS | KeyUp | KeyDown | KeyOther

  /** Window close, key down, key up, and every other event type, which the handler ignores. */
  datatype Event = Quit | Press(key: Key) | Release(key: Key) | Ignored

  /** The held-key flags: W and S for the left paddle, the arrow keys for the right one. */
  datatype Latches = Latches(leftUp: bool, leftDown: bool, rightUp: bool, rightDown: bool)

  datatype Snapshot = Snapshot(
    phase: Phase, mode: Mode, winner: Winner,
    left: nat, right: nat,
    latches: Latches, running: bool)

  const NoKeys := Latches(false, false, false, false)

  /** The state before the first frame. */
  const Initial := Snapshot(Menu, NoMode, Undecided, 0, 0, NoKeys, true)

  /**
   * The game reset: both scores go to zero; after a finished game it returns
   * to the menu and forgets the mode, from any other phase (the menu
   * included) it starts play in the current mode.
   */
  function Reset(c: Snapshot): (r: Snapshot)
    ensures r.left == 0 && r.right == 0
    ensures r.phase == Menu <==> c.phase == GameOver
    ensures r.phase == Playing <==> c.phase != GameOver
    ensures r.mode == (if c.phase == GameOver then NoMode else c.mode)
    ensures r.winner == c.winner && r.latches == c.latches && r.running == c.running
  {
    var cleared := c.(left := 0, right := 0);
    if c.phase == GameOver then cleared.(phase := Menu, mode := NoMode) else cleared.(phase := Playing)
  }

  /** Playing and paused swap; the menu and a finished game stay as they are. */
  function TogglePause(c: Snapshot): (r: Snapshot)
    ensures r.phase == Paused <==> c.phase == Playing
    ensures r.phase == Playing <==> c.phase == Paused
    ensures c.phase == Menu || c.phase == GameOver ==> r == c
    ensures r.(phase := c.phase) == c
  {
    if c.phase == Playing then c.(phase := Paused)
    else if c.phase == Paused then c.(phase := Playing)
    else c
  }

  /** The first stage of a key press: quit, start or pause, pause, reset. */
  function Command(c: Snapshot, k: Key): (r: Snapshot)
    ensures r.running <==> c.running && k != KeyQ
    ensures r.latches == c.latches && r.winner == c.winner
    ensures k != KeyR ==> r.mode == c.mode
    ensures (r.left == c.left && r.right == c.right) || (r.left == 0 && r.right == 0)
    ensures k !in {KeyQ, KeySpace, KeyP, KeyR} ==> r == c
  {
    match k
    case KeyQ => c.(running := false)
    case KeySpace =>
      if c.phase == Menu && c.mode != NoMode then Reset(c.(phase := Playing)) else TogglePause(c)
    case KeyP => TogglePause(c)
    case KeyR => Reset(c)
    case _ => c
  }

  /** The second stage: in the menu, 1 and 2 choose a mode and start a fresh game. */
  function SelectMode(c: Snapshot, k: Key): (r: Snapshot)
    ensures c.phase != Menu || (k != Key1 && k != Key2) ==> r == c
    ensures r != c ==> r.phase == Playing && r.left == 0 && r.right == 0 && r.mode != NoMode
    ensures r.latches == c.latches && r.running == c.running && r.winner == c.winner
  {
    if c.phase == Menu && k == Key1 then Reset(c.(mode := PlayerVsPlayer, phase := Playing))
    else if c.phase == Menu && k == Key2 then Reset(c.(mode := PlayerVsAi, phase := Playing))
    else c
  }

  /**
   * The last stage of a press (held = true) and the whole of a release
   * (held = false): while playing, W and S set the left paddle's flags, and in
   * a two-player game the arrow keys set the right paddle's.
   */
  function Latch(c: Snapshot, k: Key, held: bool): (r: Snapshot)
    ensures r.(latches := c.latches) == c
    ensures c.phase != Playing ==> r == c
    ensures r.latches.leftUp == (if c.phase == Playing && k == KeyW then held else c.latches.leftUp)
    ensures r.latches.leftDown == (if c.phase == Playing && k == KeyS then held else c.latches.leftDown)
    ensures c.mode != PlayerVsPlayer ==> r.latches.rightUp == c.latches.rightUp && r.latches.rightDown == c.latches.rightDown
    ensures c.mode == PlayerVsPlayer ==>
              && r.latches.rightUp == (if c.phase == Playing && k == KeyUp then held else c.latches.rightUp)
              && r.latches.rightDown == (if c.phase == Playing && k == KeyDown then held else c.latches.rightDown)
  {
    if c.phase != Playing then c
    else
      var l := c.latches;
      var l1 := if k == KeyW then l.(leftUp := held) else if k == KeyS then l.(leftDown := held) else l;
      var l2 :=
        if c.mode != PlayerVsPlayer then l1
        else if k == KeyUp then l1.(rightUp := held)
        else if k == KeyDown then l1.(rightDown := held)
        else l1;
      c.(latches := l2)
  }

  /** One event, with the stages of a key press applied in the order the handler checks them. */
  function OnEvent(c: Snapshot, e: Event): (r: Snapshot)
    ensures r.running <==> c.running && e != Quit && e != Press(KeyQ)
    ensures r.winner == c.winner
    ensures (r.left == c.left && r.right == c.right) || (r.left == 0 && r.right == 0)
    ensures e == Ignored ==> r == c
  {
    match e
    case Quit => c.(running := false)
    case Press(k) => Latch(SelectMode(Command(c, k), k), k, true)
    case Release(k) => Latch(c, k, false)
    case Ignored => c
  }

  /** The events of one frame, handled in order. */
  function Handle(c: Snapshot, events: seq<Event>): (r: Snapshot)
    ensures r.running <==> c.running && forall i :: 0 <= i < |events| ==> events[i] != Quit && events[i] != Press(KeyQ)
    ensures r.winner == c.winner
    ensures (r.left == c.left && r.right == c.right) || (r.left == 0 && r.right == 0)
  {
    if events == [] then c else OnEvent(Handle(c, events[..|events| - 1]), events[|events| - 1])
  }

  /** Which side, if any, the ball step credited with a point in one frame. */
  datatype Scored = Nobody | LeftScores | RightScores

  /**
   * The win check: a side that has reached the maximum score wins and the
   * game ends; the left score is checked first.
   */
  function Judge(c: Snapshot): (r: Snapshot)
    ensures r.phase == GameOver <==> c.phase == GameOver || c.left >= MAX_SCORE || c.right >= MAX_SCORE
    ensures c.left >= MAX_SCORE ==> r.winner == LeftWins
    ensures c.left < MAX_SCORE && c.right >= MAX_SCORE ==> r.winner == RightWins
    ensures c.left < MAX_SCORE && c.right < MAX_SCORE ==> r == c
    ensures r.(phase := c.phase, winner := c.winner) == c
  {
    if c.left >= MAX_SCORE then c.(winner := LeftWins, phase := GameOver)
    else if c.right >= MAX_SCORE then c.(winner := RightWins, phase := GameOver)
    else c
  }

  /** The control state after the game logic of one frame: nothing outside play, else the point and the win check. */
  function Advance(c: Snapshot, s: Scored): (r: Snapshot)
    ensures r.mode == c.mode && r.latches == c.latches && r.running == c.running
    ensures c.phase != Playing ==> r == c
    ensures r.phase == c.phase || r.phase == GameOver
    ensures r.left == c.left + (if c.phase == Playing && s == LeftScores then 1 else 0)
    ensures r.right == c.right + (if c.phase == Playing && s == RightScores then 1 else 0)
  {
    if c.phase != Playing then c
    else match s
      case Nobody => Judge(c)
      case LeftScores => Judge(c.(left := c.left + 1))
      case RightScores => Judge(c.(right := c.right + 1))
  }

  /** One pass of the main loop: the frame's events, then its game logic. */
  datatype Frame = Frame(events: seq<Event>, scored: Scored)

  function Run(c: Snapshot, frames: seq<Frame>): (r: Snapshot)
    ensures r.running ==> c.running
    ensures frames != [] && r.running ==> Handle(c, frames[0].events).running
  {
    if frames == [] then c
    else
      var f := frames[|frames| - 1];
      Advance(Handle(Run(c, frames[..|frames| - 1]), f.events), f.scored)
  }

  /**
   * The reachable states: the menu never has a mode and always shows 0-0, a
   * game in progress has neither side at the maximum, and a finished game
   * names as winner the one side that reached exactly the maximum.
   */
  ghost predicate Consistent(c: Snapshot)
  {
    && (c.phase == Menu ==> c.mode == NoMode && c.left == 0 && c.right == 0)
    && (c.phase == Playing || c.phase == Paused ==> c.left < MAX_SCORE && c.right < MAX_SCORE)
    && (c.phase == GameOver ==>
          || (c.winner == LeftWins && c.left == MAX_SCORE && c.right < MAX_SCORE)
          || (c.winner == RightWins && c.right == MAX_SCORE && c.left < MAX_SCORE))
  }

  lemma InitialConsistent()
    ensures Consistent(Initial)
  {
  }

  /** Every event keeps the state consistent. */
  lemma OnEventConsistent(c: Snapshot, e: Event)
    requires Consistent(c)
    ensures Consistent(OnEvent(c, e))
  {
  }

  lemma {:induction false} HandleConsistent(c: Snapshot, events: seq<Event>)
    requires Consistent(c)
    ensures Consistent(Handle(c, events))
  {
    if events != [] {
      HandleConsistent(c, events[..|events| - 1]);
      OnEventConsistent(Handle(c, events[..|events| - 1]), events[|events| - 1]);
    }
  }

  /** The game logic of a frame keeps the state consistent: scores move by one point at a time and the win check catches the maximum. */
  lemma AdvanceConsistent(c: Snapshot, s: Scored)
    requires Consistent(c)
    ensures Consistent(Advance(c, s))
  {
  }

  /** Every state the game can reach from its start, whatever the keys and the points, is consistent. */
  lemma {:induction false} RunConsistent(frames: seq<Frame>)
    ensures Consistent(Run(Initial, frames))
  {
    if frames == [] {
      InitialConsistent();
    } else {
      var prefix := frames[..|frames| - 1];
      RunConsistent(prefix);
      HandleConsistent(Run(Initial, prefix), frames[|frames| - 1].events);
      AdvanceConsistent(Handle(Run(Initial, prefix), frames[|frames| - 1].events), frames[|frames| - 1].scored);
    }
  }

  /**
   * The space bar's start branch requires the menu with a mode chosen, which
   * no reachable state has: in a consistent menu the space bar does nothing.
   */
  lemma SpaceInMenuIgnored(c: Snapshot)
    requires Consistent(c) && c.phase == Menu
    ensures OnEvent(c, Press(KeySpace)) == c
  {
  }

  /** Were a mode set in the menu, the space bar would start a fresh game in it. */
  lemma SpaceStartsWithMode(c: Snapshot)
    requires c.phase == Menu && c.mode != NoMode
    ensures OnEvent(c, Press(KeySpace)) == c.(phase := Playing, left := 0, right := 0)
  {
  }

  /** Pressing R in the menu starts play with the scores cleared and the mode still unset. */
  lemma ResetInMenuStartsWithoutMode(c: Snapshot)
    requires Consistent(c) && c.phase == Menu
    ensures OnEvent(c, Press(KeyR)) == c.(phase := Playing)
    ensures OnEvent(c, Press(KeyR)).mode == NoMode
  {
  }

  /** R during a pause clears the scores and resumes play. */
  lemma ResetWhilePausedResumes(c: Snapshot)
    requires c.phase == Paused
    ensures OnEvent(c, Press(KeyR)) == c.(phase := Playing, left := 0, right := 0)
  {
  }

  /** After a finished game, R goes to the menu; a second R then starts play with no mode. */
  lemma ResetAfterGameOver(c: Snapshot)
    requires c.phase == GameOver
    ensures OnEvent(c, Press(KeyR)) == c.(phase := Menu, mode := NoMode, left := 0, right := 0)
    ensures OnEvent(OnEvent(c, Press(KeyR)), Press(KeyR)) == c.(phase := Playing, mode := NoMode, left := 0, right := 0)
  {
  }

  /** Space and P swap playing and paused, change nothing else, and a second press restores the state. */
  lemma PauseToggles(c: Snapshot, k: Key)
    requires k == KeySpace || k == KeyP
    requires c.phase == Playing || c.phase == Paused
    ensures OnEvent(c, Press(k)) == c.(phase := if c.phase == Playing then Paused else Playing)
    ensures OnEvent(OnEvent(c, Press(k)), Press(k)) == c
  {
  }

  /** P has no effect in the menu or after a finished game. */
  lemma PauseIgnoredOutsideGame(c: Snapshot)
    requires c.phase == Menu || c.phase == GameOver
    ensures OnEvent(c, Press(KeyP)) == c
  {
  }

  /** In the menu, 1 and 2 start a game at 0-0 in the chosen mode; elsewhere they do nothing. */
  lemma SelectModeStarts(c: Snapshot, k: Key)
    requires k == Key1 || k == Key2
    ensures c.phase == Menu ==>
              OnEvent(c, Press(k)) == c.(phase := Playing, left := 0, right := 0,
                                         mode := if k == Key1 then PlayerVsPlayer else PlayerVsAi)
    ensures c.phase != Menu ==> OnEvent(c, Press(k)) == c
  {
  }

  /**
   * The paddle flags change only while playing (so a key held when the game
   * pauses stays latched), and the right paddle's only in a two-player game.
   */
  lemma LatchesOnlyWhilePlaying(c: Snapshot, e: Event)
    ensures OnEvent(c, e).latches != c.latches ==> c.phase == Playing
    ensures (OnEvent(c, e).latches.rightUp != c.latches.rightUp || OnEvent(c, e).latches.rightDown != c.latches.rightDown)
              ==> c.mode == PlayerVsPlayer
  {
  }

  /** While playing, pressing a paddle key sets its flag and releasing it clears the flag. */
  lemma LatchFollowsKey(c: Snapshot, held: bool)
    requires c.phase == Playing
    ensures OnEvent(c, if held then Press(KeyW) else Release(KeyW)).latches == c.latches.(leftUp := held)
    ensures OnEvent(c, if held then Press(KeyS) else Release(KeyS)).latches == c.latches.(leftDown := held)
    ensures c.mode == PlayerVsPlayer ==>
              OnEvent(c, if held then Press(KeyUp) else Release(KeyUp)).latches == c.latches.(rightUp := held)
    ensures c.mode == PlayerVsPlayer ==>
              OnEvent(c, if held then Press(KeyDown) else Release(KeyDown)).latches == c.latches.(rightDown := held)
  {
  }

  /** Closing the window or pressing Q only stops the loop. */
  lemma QuitOnlyStops(c: Snapshot)
    ensures OnEvent(c, Quit) == c.(running := false)
    ensures OnEvent(c, Press(KeyQ)) == c.(running := false)
  {
  }

  /** A point in play ends the game exactly when it brings that side to the maximum, and that side is the winner. */
  lemma PointDecidesGame(c: Snapshot, s: Scored)
    requires Consistent(c) && c.phase == Playing && s != Nobody
    ensures Advance(c, s).phase == GameOver <==>
              (if s == LeftScores then c.left + 1 == MAX_SCORE else c.right + 1 == MAX_SCORE)
    ensures Advance(c, s).phase == GameOver ==>
              Advance(c, s).winner == (if s == LeftScores then LeftWins else RightWins)
  {
  }

  /** Outside play the game logic changes nothing, and in play it never moves a score by more than one point. */
  lemma AdvanceMovesOnePoint(c: Snapshot, s: Scored)
    ensures c.phase != Playing ==> Advance(c, s) == c
    ensures Advance(c, s).left + Advance(c, s).right <= c.left + c.right + 1
    ensures Advance(c, s).left >= c.left && Advance(c, s).right >= c.right
  {
  }
}
