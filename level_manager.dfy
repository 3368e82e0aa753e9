/**
 The level's start countdown and completion latch (Assets/Runtime/Level/LevelManager.cs).

 Only the counter and the flags are modelled. Calls into the player, the
 bottom cylinder, the obstacles, the interface, the tween engine and the
 camera are recorded, in order, in the ghost log `effects`.
 */
module Level {

  /** The length of the start countdown. */
  const CountTo: int := 4

  /** A call the level manager makes into another game component. */
  datatype Effect =
    | StopAllTweens
    | SlidePlayer(on: bool)
    | CylinderFollow(on: bool)
    | AddObstacles
    | ShowCounter(visible: bool)
    | UpdateCounter(value: int)
    | EnableGameplayButton
    | UpdateDistance
    | DeathAnimation
    | ScheduleCompletePopup
    | ResetPlayer
    | ResetCorn
    | CameraIntroTween
    | ResetCylinder
    | ResetBackground
    | ResetObstacles
    | RestartInterface
    | BuildLevel
    | HidePlayer
    | LoadCorn
    | LoadObstacles

  /**
   What Start asks for before the idle animation begins: the level is built,
   the player is loaded hidden, the cylinder is loaded not following and put
   in place, then the corn and the obstacles are loaded.
   */
  const StartEffects: seq<Effect> :=
    [BuildLevel, HidePlayer, CylinderFollow(false), ResetCylinder, LoadCorn, LoadObstacles]

  /** What ResetVars asks of the other components. */
  const ResetVarsEffects: seq<Effect> := [StopAllTweens, SlidePlayer(false), CylinderFollow(false)]

  /** What RestartLevel asks of the other components after ResetVars; the camera tween calls back StartFollowingPlayer. */
  const RestartEffects: seq<Effect> :=
    [ResetPlayer, ResetCorn, CameraIntroTween, ResetCylinder, ResetBackground, ResetObstacles, RestartInterface]

  /** What StartLevel asks of the other components. */
  const StartLevelEffects: seq<Effect> := [CylinderFollow(true), AddObstacles, SlidePlayer(true), ShowCounter(false)]

  class LevelManager {
    /** `_counter`: jumps left before the level starts (negative once it has started). */
    var counter: int
    var idleAnimation: bool
    var cameraFollow: bool
    var levelStarted: bool
    var levelComplete: bool
    ghost var effects: seq<Effect>

    /** A started level has finished its countdown, and the counter never exceeds its start value. */
    ghost predicate Valid()
      reads this
    {
      counter <= CountTo && (levelStarted ==> counter <= 0)
    }

    /** A fresh component: C# default field values. */
    constructor ()
      ensures Valid()
      ensures counter == 0 && !idleAnimation && !cameraFollow && !levelStarted && !levelComplete
      ensures effects == []
    {
      counter := 0;
      idleAnimation := false;
      cameraFollow := false;
      levelStarted := false;
      levelComplete := false;
      effects := [];
    }

    /**
     Start: the level, the player, the cylinder, the corn and the obstacles
     are loaded, then the title screen's idle animation and camera follow are
     switched on. The counter and the level flags are not touched.
     */
    method Start()
      requires Valid()
      modifies this`idleAnimation, this`cameraFollow, this`effects
      ensures Valid()
      ensures idleAnimation && cameraFollow
      ensures effects == old(effects) + StartEffects
    {
      effects := effects + StartEffects;
      idleAnimation := true;
      cameraFollow := true;
    }

    /** RestartLevel: the countdown starts again at CountTo and every flag is cleared. */
    method RestartLevel()
      requires Valid()
      modifies this
      ensures Valid()
      ensures counter == CountTo
      ensures !levelStarted && !levelComplete && !idleAnimation && !cameraFollow
      ensures effects == old(effects) + ResetVarsEffects + RestartEffects
    {
      ResetVars();
      levelComplete := false;
      idleAnimation := false;
      cameraFollow := false;
      counter := CountTo;
      effects := effects + RestartEffects;
    }

    /** StartFollowingPlayer: the camera tween's completion callback. */
    method StartFollowingPlayer()
      modifies this`cameraFollow
      ensures cameraFollow
    {
      cameraFollow := true;
    }

    /** ResetVars: stops tweens, sliding and the cylinder, and marks the level not started. */
    method ResetVars()
      requires Valid()
      modifies this`levelStarted, this`effects
      ensures Valid()
      ensures !levelStarted
      ensures effects == old(effects) + ResetVarsEffects
    {
      effects := effects + ResetVarsEffects;
      levelStarted := false;
    }

    /** StartLevel: runs when the countdown reaches 0. */
    method StartLevel()
      requires Valid() && counter <= 0
      modifies this`levelStarted, this`effects
      ensures Valid()
      ensures levelStarted
      ensures effects == old(effects) + StartLevelEffects
    {
      effects := effects + StartLevelEffects;
      levelStarted := true;
    }

    /**
     JumpComplete: one jump less to go. The level starts exactly when the
     counter reaches 0; the counter is shown while it is not negative, and
     past that every jump makes the player slide. The gameplay button is
     enabled again after every jump.
     */
    method JumpComplete()
      requires Valid()
      modifies this`counter, this`levelStarted, this`effects
      ensures Valid()
      ensures counter == old(counter) - 1
      ensures levelStarted == (old(levelStarted) || counter == 0)
      ensures effects == old(effects)
        + (if counter == 0 then StartLevelEffects else [])
        + (if counter >= 0 then [UpdateCounter(counter)] else [SlidePlayer(true)])
        + [EnableGameplayButton, UpdateDistance]
    {
      counter := counter - 1;
      if counter >= 0 {
        if counter == 0 {
          StartLevel();
        }
        effects := effects + [UpdateCounter(counter)];
      } else {
        effects := effects + [SlidePlayer(true)];
      }
      effects := effects + [EnableGameplayButton, UpdateDistance];
    }

    /**
     LevelComplete: the player died. It acts only once until the next
     restart: the level stops, the death animation plays and the complete
     popup is scheduled.
     */
    method LevelComplete()
      requires Valid()
      modifies this`levelStarted, this`levelComplete, this`effects
      ensures Valid()
      ensures levelComplete
      ensures old(levelComplete) ==> levelStarted == old(levelStarted) && effects == old(effects)
      ensures !old(levelComplete) ==>
        !levelStarted && effects == old(effects) + ResetVarsEffects + [DeathAnimation, ScheduleCompletePopup]
    {
      if levelComplete == false {
        ResetVars();
        levelComplete := true;
        effects := effects + [DeathAnimation, ScheduleCompletePopup];
      }
    }
  }

  /**
   A restart followed by jumps: the level has not started after the third
   jump and has after the fourth, and a second death before the next restart
   does nothing.
   */
  method CountdownScenario() returns (level: LevelManager, startedAfterThree: bool, startedAfterFour: bool, ghost afterFirstDeath: seq<Effect>)
    ensures !startedAfterThree && startedAfterFour
    ensures level.Valid()
    ensures level.levelComplete && !level.levelStarted && level.counter == 0
    ensures level.effects == afterFirstDeath
    ensures |afterFirstDeath| > 0 && afterFirstDeath[|afterFirstDeath| - 1] == ScheduleCompletePopup
  {
    level := new LevelManager();
    level.RestartLevel();
    level.JumpComplete();
    level.JumpComplete();
    level.JumpComplete();
    startedAfterThree := level.levelStarted;
    level.JumpComplete();
    startedAfterFour := level.levelStarted;
    level.LevelComplete();
    afterFirstDeath := level.effects;
    level.LevelComplete();
  }
}
