/**
 * The second `CheckersAI` declaration in CheckersAI.swift (lines 212-237), word for word the same
 * as the first; kept apart so that each declaration has its own model.
 */
module CheckersSearchDuplicate {
  import opened CheckersTypes

  class CheckersAI {
    var difficulty: DifficultyLevel
    var maxLookAheadDepth: int

    /** `init(difficulty:)`: store the level, then `updateDifficulty(to:)`. */
    constructor(difficulty: DifficultyLevel := Medium)
      ensures this.difficulty == difficulty && maxLookAheadDepth == DifficultyRawValue(difficulty)
    {
      this.difficulty := difficulty;
      new;
      UpdateDifficulty(difficulty);
    }

    /** `updateDifficulty(to:)`: the look-ahead depth becomes the level's raw value (1, 3 or 5). */
    method UpdateDifficulty(newDifficulty: DifficultyLevel)
      modifies this
      ensures difficulty == newDifficulty && maxLookAheadDepth == DifficultyRawValue(newDifficulty)
      ensures maxLookAheadDepth in {1, 3, 5}
    {
      difficulty := newDifficulty;
      maxLookAheadDepth := DifficultyRawValue(difficulty);
    }
  }
}
