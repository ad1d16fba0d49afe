/** The data of one combat encounter and its initial value (src/combat.rs). */
module Combat {
  /** The phase of the combat turn controller. */
  datatype CombatTurn = Menu | Fighting | Acting | Mercy | SansTurn

  /**
   * One encounter. `timer` counts whole frames (the source's f32 is only ever
   * set to 0.0 or stepped by 1.0, so it is exact as an integer).
   * `sansShakeHalves` is the source's `sans_shake` counted in steps of 0.5,
   * so the source's 10.0 is 20 here.
   */
  datatype CombatData = CombatData(
    playerHp: int,
    playerMaxHp: int,
    sansHp: int,
    sansMaxHp: int,
    turn: CombatTurn,
    menuSelection: nat,
    dialogueText: string,
    actionText: string,
    timer: int,
    sansShakeHalves: int)

  /** The highest menu cursor position: 0 Fight, 1 Act, 2 Mercy. */
  const MaxSelection := 2
  /** The number of frames the enemy turn lasts before the menu returns. */
  const EnemyTurnFrames := 120
  /** The shake a Fight starts, 10.0 in half-steps. */
  const ShakeOnHitHalves := 20

  const BadTimeText := "You feel like you're gonna have a bad time."

  /**
   * What holds of every encounter the combat scene produces: the player's
   * health is in range, the cursor is on one of the three buttons, the enemy
   * turn timer never runs past its end and the shake is never negative.
   */
  predicate Valid(d: CombatData) {
    && 0 <= d.playerHp <= d.playerMaxHp
    && d.menuSelection <= MaxSelection
    && 0 <= d.timer <= EnemyTurnFrames + 1
    && (d.turn == SansTurn ==> d.timer <= EnemyTurnFrames)
    && 0 <= d.sansShakeHalves <= ShakeOnHitHalves
  }

  /** A fresh encounter: full health, cursor on Fight, nothing running. */
  function New(): (r: CombatData)
    ensures Valid(r)
    ensures r.turn == Menu && r.menuSelection == 0
    ensures r.playerHp == r.playerMaxHp == 20
    ensures r.sansHp == r.sansMaxHp == 1
    ensures r.timer == 0 && r.sansShakeHalves == 0
    ensures r.dialogueText == BadTimeText && r.actionText == ""
  {
    CombatData(20, 20, 1, 1, Menu, 0, BadTimeText, "", 0, 0)
  }
}
