/**
 * The part of the game's shared state that the combat and NPC dialogue
 * updates read or write. The rest of the game state is not part of this model.
 */
module Game {
  import opened Defs
  import opened Combat

  /** A screen position; the source keeps both coordinates in f32. */
  datatype Vec2 = Vec2(x: real, y: real)

  class GameState {
    var scene: Scene
    var playerPos: Vec2
    var currentStage: int
    var eilishPos: Vec2
    var eilishTalking: bool
    /** Frames of dialogue left; the source's f32 only ever moves in whole steps. */
    var eilishDialogueTimer: int
    var eilishCurrentDialogue: string
    var combatData: CombatData
  }
}
