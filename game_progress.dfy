/**
 Game progress and high score (Assets/Runtime/GameState/CurrentGameState.cs).

 `GameProgressManager` holds the saved record, which is null until the load
 callback installs one. It loads and saves through the save facade, always at
 the path persistentDataPath + "/" + "GameValues" and unencrypted. The record
 the C# code hands to the facade is a reference that may still be null, so the
 facade here carries payloads of type `Option<SavedProperties>`.
 */
module GameProgress {
  import opened Wrappers
  import opened SaveFacade

  /** The persisted record (its C# class is not part of this model; only its three fields are). */
  datatype SavedProperties = SavedProperties(highScore: int, fxVolume: real, musicVolume: real)

  /** The name of the save file. */
  const FileName: string := "GameValues"

  /** The handler names passed to the facade as completion callbacks. */
  const LoadDoneHandler: CallbackName := "LoadDone"
  const SaveCompleteHandler: CallbackName := "SaveComplete"

  /** The high score after offering `score`: the larger of the two. */
  function NextHighScore(highScore: int, score: int): (r: int)
    ensures r >= highScore && r >= score
    ensures r == highScore || r == score
    ensures r != highScore <==> score > highScore
  {
    if score > highScore then score else highScore
  }

  /** The high score after offering each of `scores` in turn. */
  function HighScoreAfter(highScore: int, scores: seq<int>): int
    decreases scores
  {
    if scores == [] then highScore else HighScoreAfter(NextHighScore(highScore, scores[0]), scores[1..])
  }

  /** How many of `scores`, offered in turn, beat the high score of their moment (each one requests a save). */
  function ImprovementsIn(highScore: int, scores: seq<int>): nat
    decreases scores
  {
    if scores == [] then 0
    else (if scores[0] > highScore then 1 else 0) + ImprovementsIn(NextHighScore(highScore, scores[0]), scores[1..])
  }

  /** Across any sequence of offers the high score never decreases, and it ends at least every offered score. */
  lemma {:induction false} HighScoreNeverDecreases(highScore: int, scores: seq<int>)
    ensures HighScoreAfter(highScore, scores) >= highScore
    ensures forall i :: 0 <= i < |scores| ==> HighScoreAfter(highScore, scores) >= scores[i]
    decreases scores
  {
    if scores != [] {
      var next := NextHighScore(highScore, scores[0]);
      HighScoreNeverDecreases(next, scores[1..]);
      forall i | 0 <= i < |scores|
        ensures HighScoreAfter(highScore, scores) >= scores[i]
      {
        if i > 0 {
          assert scores[i] == scores[1..][i - 1];
        }
      }
    }
  }

  /** The final high score is the starting one or one of the offered scores. */
  lemma {:induction false} HighScoreIsAttained(highScore: int, scores: seq<int>)
    ensures HighScoreAfter(highScore, scores) == highScore || HighScoreAfter(highScore, scores) in scores
    decreases scores
  {
    if scores != [] {
      var next := NextHighScore(highScore, scores[0]);
      HighScoreIsAttained(next, scores[1..]);
      if HighScoreAfter(highScore, scores) in scores[1..] {
        var k :| 0 <= k < |scores[1..]| && scores[1..][k] == HighScoreAfter(highScore, scores);
        assert scores[k + 1] == HighScoreAfter(highScore, scores);
      }
    }
  }

  /** No save is requested over a sequence of offers exactly when the high score ends where it started. */
  lemma {:induction false} SavesExactlyOnImprovement(highScore: int, scores: seq<int>)
    ensures ImprovementsIn(highScore, scores) == 0 <==> HighScoreAfter(highScore, scores) == highScore
    decreases scores
  {
    if scores != [] {
      var next := NextHighScore(highScore, scores[0]);
      SavesExactlyOnImprovement(next, scores[1..]);
      HighScoreNeverDecreases(next, scores[1..]);
    }
  }

  class GameProgressManager {
    /** Application.persistentDataPath, supplied by the engine. */
    const persistentDataPath: string
    /** The record `new SavedProperties()` produces. */
    const defaults: SavedProperties
    /** The static state of the save facade. */
    const saves: SaveStatics<Option<SavedProperties>>
    /** `_savedProperties`; None until LoadDone installs a record. */
    var savedProperties: Option<SavedProperties>
    /** Every record handed to SaveGameStatus, in order. */
    ghost var saveRequests: seq<Option<SavedProperties>>
    /** The messages of failed loads, in order. */
    ghost var loadFailures: seq<string>

    /** The save file path used by both load and save. */
    function SavePath(): (p: string)
      ensures p == persistentDataPath + "/GameValues"
    {
      persistentDataPath + "/" + FileName
    }

    constructor (persistentDataPath: string, defaults: SavedProperties, saves: SaveStatics<Option<SavedProperties>>)
      ensures this.persistentDataPath == persistentDataPath && this.defaults == defaults && this.saves == saves
      ensures savedProperties == None && saveRequests == [] && loadFailures == []
    {
      this.persistentDataPath := persistentDataPath;
      this.defaults := defaults;
      this.saves := saves;
      savedProperties := None;
      saveRequests := [];
      loadFailures := [];
    }

    /** Requests an unencrypted load of the save file, with LoadDone as the callback. */
    method LoadGameStatus()
      requires saves.Valid()
      modifies saves
      ensures saves.Valid() && saves.AccessedFrom(old(saves.instance), old(saves.saveMethod))
      ensures saves.errors == old(saves.errors) + (if saves.saveMethod.None? then [NotConfigured] else [])
      ensures saves.forwarded == old(saves.forwarded) +
        (if saves.saveMethod.Some? then [Forwarded(saves.saveMethod.value, LoadCall(SavePath(), LoadDoneHandler, false))] else [])
    {
      var facade := saves.Instance();
      facade.Load(SavePath(), LoadDoneHandler, false);
    }

    /** Requests an unencrypted save of the current record, with SaveComplete as the callback. */
    method SaveGameStatus()
      requires saves.Valid()
      modifies saves, this`saveRequests
      ensures saves.Valid() && saves.AccessedFrom(old(saves.instance), old(saves.saveMethod))
      ensures saveRequests == old(saveRequests) + [savedProperties]
      ensures saves.errors == old(saves.errors) + (if saves.saveMethod.None? then [NotConfigured] else [])
      ensures saves.forwarded == old(saves.forwarded) +
        (if saves.saveMethod.Some? then [Forwarded(saves.saveMethod.value, SaveCall(savedProperties, SavePath(), SaveCompleteHandler, false))] else [])
    {
      saveRequests := saveRequests + [savedProperties];
      var facade := saves.Instance();
      facade.Save(savedProperties, SavePath(), SaveCompleteHandler, false);
    }

    /** The stored high score; the C# code dereferences the record, so one must be installed. */
    method GetHighScore() returns (r: int)
      requires savedProperties.Some?
      ensures r == savedProperties.value.highScore
    {
      r := savedProperties.value.highScore;
    }

    /**
     Offers a score: a strictly better one becomes the high score and is saved;
     an equal or lower one changes nothing and saves nothing. Returns the high
     score afterwards.
     */
    method SetHighScore(score: int) returns (r: int)
      requires savedProperties.Some? && saves.Valid()
      modifies this`savedProperties, this`saveRequests, saves
      ensures saves.Valid()
      ensures r == NextHighScore(old(savedProperties.value.highScore), score)
      ensures savedProperties == Some(old(savedProperties.value).(highScore := r))
      ensures score > old(savedProperties.value.highScore) ==> saveRequests == old(saveRequests) + [savedProperties]
      ensures score > old(savedProperties.value.highScore) ==>
        saves.AccessedFrom(old(saves.instance), old(saves.saveMethod)) &&
        saves.errors == old(saves.errors) + (if saves.saveMethod.None? then [NotConfigured] else [])
      ensures score > old(savedProperties.value.highScore) ==>
        saves.forwarded == old(saves.forwarded) +
          (if saves.saveMethod.Some? then [Forwarded(saves.saveMethod.value, SaveCall(savedProperties, SavePath(), SaveCompleteHandler, false))] else [])
      ensures score <= old(savedProperties.value.highScore) ==>
        saveRequests == old(saveRequests) && unchanged(saves)
    {
      if score > savedProperties.value.highScore {
        savedProperties := Some(savedProperties.value.(highScore := score));
        SaveGameStatus();
      }
      r := savedProperties.value.highScore;
    }

    /** The effects volume. */
    function FXVolume(): (v: real)
      reads this
      requires savedProperties.Some?
      ensures v == savedProperties.value.fxVolume
    {
      savedProperties.value.fxVolume
    }

    /** Sets the effects volume; nothing else in the record changes. */
    method SetFXVolume(value: real)
      requires savedProperties.Some?
      modifies this`savedProperties
      ensures savedProperties == Some(old(savedProperties.value).(fxVolume := value))
    {
      savedProperties := Some(savedProperties.value.(fxVolume := value));
    }

    /** The music volume. */
    function MusicVolume(): (v: real)
      reads this
      requires savedProperties.Some?
      ensures v == savedProperties.value.musicVolume
    {
      savedProperties.value.musicVolume
    }

    /** Sets the music volume; nothing else in the record changes. */
    method SetMusicVolume(value: real)
      requires savedProperties.Some?
      modifies this`savedProperties
      ensures savedProperties == Some(old(savedProperties.value).(musicVolume := value))
    {
      savedProperties := Some(savedProperties.value.(musicVolume := value));
    }

    /**
     The load callback: a successful load installs the loaded record; an Error
     or Empty result installs a fresh default record and logs the message.
     Nothing is saved either way.
     */
    method LoadDone(data: SavedProperties, result: SaveResult, message: string)
      modifies this`savedProperties, this`loadFailures
      ensures result == Success ==> savedProperties == Some(data) && loadFailures == old(loadFailures)
      ensures result != Success ==>
        savedProperties == Some(defaults) && loadFailures == old(loadFailures) + ["Load failed " + message]
    {
      if result == Success {
        savedProperties := Some(data);
      } else {
        savedProperties := Some(defaults);
        loadFailures := loadFailures + ["Load failed " + message];
      }
    }

    /** The save callback does nothing. */
    method SaveComplete(result: SaveResult, error: string)
    {
    }
  }
}
