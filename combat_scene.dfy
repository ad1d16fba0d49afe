/**
 * The combat turn controller (src/scenes/combat.rs): one call of Update per
 * frame moves the menu cursor, starts the chosen action, runs the enemy turn
 * and lets the shake die down. Step is the same frame as a function on the
 * encounter's data; the lemmas below follow several frames.
 */
module CombatScene {
  import Defs
  import opened Input
  import opened Combat
  import opened Game

  const MissText := "You attacked Sans... MISS!"
  const CheckText := "Check: Sans 1 ATK 1 DEF.\nThe easiest enemy. Can only deal 1 damage."
  const SpareText := "You spared Sans."
  const TauntText := "heh heh heh..."
  const SinsText := "You feel your sins crawling on your back."
  /** Where the player is put on leaving combat, away from the trigger that starts it. */
  const ExitPlayerX: real := 700.0

  function Min(a: int, b: int): int { if a <= b then a else b }
  function Max(a: int, b: int): int { if a >= b then a else b }

  /**
   * The cursor after the Left and Right presses of one frame: Left is applied
   * first, then Right, and a move past either end does nothing.
   */
  function MoveCursor(sel: nat, k: Keys): (r: nat)
    ensures sel <= MaxSelection ==> r <= MaxSelection
    ensures sel <= MaxSelection ==>
      var afterLeft := if k.left then Max(sel - 1, 0) else sel;
      r == if k.right then Min(afterLeft + 1, MaxSelection) else afterLeft
    ensures !k.left && !k.right ==> r == sel
  {
    var afterLeft := if k.left && sel > 0 then sel - 1 else sel;
    if k.right && afterLeft < MaxSelection then afterLeft + 1 else afterLeft
  }

  /** The shake after one frame's decay, in half-steps: half a unit less while positive. */
  function Decay(shake: int): (r: int)
    ensures shake >= 0 ==> 0 <= r <= shake
    ensures shake > 0 ==> r == shake - 1
    ensures shake <= 0 ==> r == shake
  {
    if shake > 0 then shake - 1 else shake
  }

  /** Does this frame's confirm start a Fight? */
  predicate FightStarts(d: CombatData, k: Keys) {
    d.turn == Menu && Confirm(k) && MoveCursor(d.menuSelection, k) == 0
  }

  /** Does this frame's confirm leave combat (confirm while Mercy is shown)? */
  predicate ExitsCombat(d: CombatData, k: Keys) {
    d.turn == Mercy && Confirm(k)
  }

  /** The action a confirm in the Menu starts, for the cursor as already moved. */
  function Choose(m: CombatData): CombatData {
    match m.menuSelection
    case 0 => m.(turn := Fighting, timer := 0, actionText := MissText, sansShakeHalves := ShakeOnHitHalves)
    case 1 => m.(turn := Acting, actionText := CheckText)
    case 2 => m.(turn := Mercy, actionText := SpareText)
    case _ => m
  }

  /** One frame of the turn controller, before the shake decays. */
  function Transition(d: CombatData, k: Keys): CombatData {
    match d.turn
    case Menu =>
      var m := d.(menuSelection := MoveCursor(d.menuSelection, k));
      if Confirm(k) then Choose(m) else m
    case Fighting | Acting =>
      if Confirm(k) then d.(turn := SansTurn, timer := 0, dialogueText := TauntText) else d
    case Mercy => d
    case SansTurn =>
      var t := d.timer + 1;
      if t > EnemyTurnFrames then d.(timer := t, turn := Menu, dialogueText := SinsText) else d.(timer := t)
  }

  /**
   * The encounter after one frame. The transition table: the Menu moves the
   * cursor and a confirm starts the action under the moved cursor; a confirm
   * in Fighting or Acting starts the enemy turn; Mercy's confirm leaves the
   * data alone (it leaves combat instead, see ExitsCombat); the enemy turn
   * counts frames and hands back to the Menu after EnemyTurnFrames of them.
   * Health is never written and the invariant Valid is kept.
   */
  function Step(d: CombatData, k: Keys): (r: CombatData)
    ensures r.playerHp == d.playerHp && r.playerMaxHp == d.playerMaxHp
    ensures r.sansHp == d.sansHp && r.sansMaxHp == d.sansMaxHp
    ensures Valid(d) ==> Valid(r)
    ensures r.sansShakeHalves == Decay(if FightStarts(d, k) then ShakeOnHitHalves else d.sansShakeHalves)
    ensures d.turn == Menu && !Confirm(k) ==>
      r == d.(menuSelection := MoveCursor(d.menuSelection, k), sansShakeHalves := r.sansShakeHalves)
    ensures d.turn == Menu && Confirm(k) ==>
      var sel := MoveCursor(d.menuSelection, k);
      && r.menuSelection == sel && r.dialogueText == d.dialogueText
      && (sel == 0 ==> r.turn == Fighting && r.timer == 0 && r.actionText == MissText)
      && (sel == 1 ==> r.turn == Acting && r.timer == d.timer && r.actionText == CheckText)
      && (sel == 2 ==> r.turn == Mercy && r.timer == d.timer && r.actionText == SpareText)
      && (sel > 2 ==> r.turn == Menu && r.timer == d.timer && r.actionText == d.actionText)
    ensures (d.turn == Fighting || d.turn == Acting) && Confirm(k) ==>
      r == d.(turn := SansTurn, timer := 0, dialogueText := TauntText, sansShakeHalves := r.sansShakeHalves)
    ensures (d.turn == Fighting || d.turn == Acting || d.turn == Mercy) && !(Confirm(k) && d.turn != Mercy) ==>
      r == d.(sansShakeHalves := r.sansShakeHalves)
    ensures d.turn == SansTurn ==>
      && r.timer == d.timer + 1
      && r.turn == (if d.timer + 1 > EnemyTurnFrames then Menu else SansTurn)
      && r.dialogueText == (if d.timer + 1 > EnemyTurnFrames then SinsText else d.dialogueText)
      && r.menuSelection == d.menuSelection && r.actionText == d.actionText
  {
    var next := Transition(d, k);
    next.(sansShakeHalves := Decay(next.sansShakeHalves))
  }

  /**
   * The combat update of one frame on the shared game state. It writes only
   * the encounter, the scene and the player's position; the encounter becomes
   * Step of the old one, and a confirm under Mercy switches the scene to the
   * desktop and moves the player to x = 700.
   */
  method Update(state: GameState, keys: Keys)
    modifies state`combatData, state`scene, state`playerPos
    ensures state.combatData == Step(old(state.combatData), keys)
    ensures ExitsCombat(old(state.combatData), keys) ==>
      state.scene == Defs.Desktop && state.playerPos == old(state.playerPos).(x := ExitPlayerX)
    ensures !ExitsCombat(old(state.combatData), keys) ==>
      state.scene == old(state.scene) && state.playerPos == old(state.playerPos)
  {
    var turn := state.combatData.turn;
    if turn == Menu {
      if keys.left {
        if state.combatData.menuSelection > 0 {
          state.combatData := state.combatData.(menuSelection := state.combatData.menuSelection - 1);
        }
      }
      if keys.right {
        if state.combatData.menuSelection < MaxSelection {
          state.combatData := state.combatData.(menuSelection := state.combatData.menuSelection + 1);
        }
      }
      if Confirm(keys) {
        match state.combatData.menuSelection {
          case 0 =>
            state.combatData := state.combatData.(turn := Fighting);
            state.combatData := state.combatData.(timer := 0);
            state.combatData := state.combatData.(actionText := MissText);
            state.combatData := state.combatData.(sansShakeHalves := ShakeOnHitHalves);
          case 1 =>
            state.combatData := state.combatData.(turn := Acting);
            state.combatData := state.combatData.(actionText := CheckText);
          case 2 =>
            state.combatData := state.combatData.(turn := Mercy);
            state.combatData := state.combatData.(actionText := SpareText);
          case _ =>
        }
      }
    } else if turn == Fighting || turn == Acting || turn == Mercy {
      if Confirm(keys) {
        if state.combatData.turn == Mercy {
          state.scene := Defs.Desktop;
          state.playerPos := state.playerPos.(x := ExitPlayerX);
        } else {
          state.combatData := state.combatData.(turn := SansTurn);
          state.combatData := state.combatData.(timer := 0);
          state.combatData := state.combatData.(dialogueText := TauntText);
        }
      }
    } else if turn == SansTurn {
      state.combatData := state.combatData.(timer := state.combatData.timer + 1);
      if state.combatData.timer > EnemyTurnFrames {
        state.combatData := state.combatData.(turn := Menu);
        state.combatData := state.combatData.(dialogueText := SinsText);
      }
    }

    if state.combatData.sansShakeHalves > 0 {
      state.combatData := state.combatData.(sansShakeHalves := state.combatData.sansShakeHalves - 1);
    }
  }

  /** The text the box shows: the dialogue in the Menu and the enemy turn, the action text otherwise. */
  function ShownText(d: CombatData): string {
    match d.turn
    case Menu | SansTurn => d.dialogueText
    case _ => d.actionText
  }

  /** Is button i (0 Fight, 1 Act, 2 Mercy) drawn highlighted, with the heart beside it? */
  predicate Highlighted(d: CombatData, i: nat) {
    d.menuSelection == i && d.turn == Menu
  }

  /** In the Menu exactly one of the three buttons is highlighted; in every other phase none is. */
  lemma OneButtonHighlighted(d: CombatData)
    requires Valid(d)
    ensures d.turn == Menu ==> exists i :: 0 <= i <= MaxSelection && Highlighted(d, i)
    ensures forall i, j :: Highlighted(d, i) && Highlighted(d, j) ==> i == j
    ensures d.turn != Menu ==> forall i :: !Highlighted(d, i)
  {
    if d.turn == Menu {
      assert Highlighted(d, d.menuSelection);
    }
  }

  /**
   * What the box shows right after the frames that change phase: the miss
   * line after a Fight starts, the taunt once the enemy turn begins, and the
   * "sins" line when the menu comes back.
   */
  lemma ShownTextAfterStep(d: CombatData, k: Keys)
    ensures FightStarts(d, k) ==> ShownText(Step(d, k)) == MissText
    ensures (d.turn == Fighting || d.turn == Acting) && Confirm(k) ==> ShownText(Step(d, k)) == TauntText
    ensures d.turn == SansTurn && d.timer == EnemyTurnFrames ==> ShownText(Step(d, k)) == SinsText
  {
  }

  /** The encounter after a sequence of frames, one key set per frame. */
  function Run(d: CombatData, ks: seq<Keys>): (r: CombatData)
    ensures Valid(d) ==> Valid(r)
    ensures r.playerHp == d.playerHp && r.playerMaxHp == d.playerMaxHp
    ensures r.sansHp == d.sansHp && r.sansMaxHp == d.sansMaxHp
    decreases |ks|
  {
    if ks == [] then d else Run(Step(d, ks[0]), ks[1..])
  }

  /** Running two stretches of frames one after the other is running them together. */
  lemma {:induction false} RunAppend(d: CombatData, a: seq<Keys>, b: seq<Keys>)
    ensures Run(d, a + b) == Run(Run(d, a), b)
    decreases |a|
  {
    if a == [] {
      assert a + b == b;
    } else {
      assert (a + b)[0] == a[0];
      assert (a + b)[1..] == a[1..] + b;
      RunAppend(Step(d, a[0]), a[1..], b);
    }
  }

  /**
   * The enemy turn holds while its timer has not passed EnemyTurnFrames:
   * whatever is pressed, each frame adds one to the timer and nothing else
   * but the shake changes.
   */
  lemma {:induction false} EnemyTurnHolds(d: CombatData, ks: seq<Keys>)
    requires d.turn == SansTurn && d.timer + |ks| <= EnemyTurnFrames
    ensures Run(d, ks).turn == SansTurn && Run(d, ks).timer == d.timer + |ks|
    ensures Run(d, ks).menuSelection == d.menuSelection
    ensures Run(d, ks).dialogueText == d.dialogueText && Run(d, ks).actionText == d.actionText
    decreases |ks|
  {
    if ks != [] {
      EnemyTurnHolds(Step(d, ks[0]), ks[1..]);
    }
  }

  /**
   * Entered with the timer at 0, the enemy turn lasts 120 frames and the
   * 121st hands back to the Menu with the "sins" line, cursor where it was.
   */
  lemma EnemyTurnEnds(d: CombatData, ks: seq<Keys>)
    requires d.turn == SansTurn && d.timer == 0 && |ks| == EnemyTurnFrames + 1
    ensures forall n :: 0 <= n <= EnemyTurnFrames ==> Run(d, ks[..n]).turn == SansTurn
    ensures Run(d, ks).turn == Menu && Run(d, ks).dialogueText == SinsText
    ensures Run(d, ks).timer == EnemyTurnFrames + 1 && Run(d, ks).menuSelection == d.menuSelection
    ensures Run(d, ks).actionText == d.actionText
  {
    forall n | 0 <= n <= EnemyTurnFrames
      ensures Run(d, ks[..n]).turn == SansTurn
    {
      EnemyTurnHolds(d, ks[..n]);
    }
    var front := ks[..EnemyTurnFrames];
    assert ks == front + [ks[EnemyTurnFrames]];
    EnemyTurnHolds(d, front);
    RunAppend(d, front, [ks[EnemyTurnFrames]]);
  }

  /** n frames in which the same keys are pressed. */
  function Presses(k: Keys, n: nat): (ks: seq<Keys>)
    ensures |ks| == n && forall i :: 0 <= i < n ==> ks[i] == k
  {
    seq(n, _ => k)
  }

  const RightOnly := NoKeys.(right := true)
  const LeftOnly := NoKeys.(left := true)

  /** Pressing Right n times in the Menu puts the cursor at min(cursor + n, 2). */
  lemma {:induction false} RightRepeated(d: CombatData, n: nat)
    requires d.turn == Menu && d.menuSelection <= MaxSelection
    ensures Run(d, Presses(RightOnly, n)).turn == Menu
    ensures Run(d, Presses(RightOnly, n)).menuSelection == Min(d.menuSelection + n, MaxSelection)
    decreases n
  {
    if n > 0 {
      assert Presses(RightOnly, n)[1..] == Presses(RightOnly, n - 1);
      RightRepeated(Step(d, RightOnly), n - 1);
    }
  }

  /** Pressing Left n times in the Menu puts the cursor at max(cursor - n, 0). */
  lemma {:induction false} LeftRepeated(d: CombatData, n: nat)
    requires d.turn == Menu && d.menuSelection <= MaxSelection
    ensures Run(d, Presses(LeftOnly, n)).turn == Menu
    ensures Run(d, Presses(LeftOnly, n)).menuSelection == Max(d.menuSelection - n, 0)
    decreases n
  {
    if n > 0 {
      assert Presses(LeftOnly, n)[1..] == Presses(LeftOnly, n - 1);
      LeftRepeated(Step(d, LeftOnly), n - 1);
    }
  }

  /**
   * While Fighting, Acting or Mercy waits for a confirm, only the shake
   * changes: it drops by one half-step a frame until it rests at 0.
   */
  lemma {:induction false} WaitingDecaysShake(d: CombatData, ks: seq<Keys>)
    requires d.turn == Fighting || d.turn == Acting || d.turn == Mercy
    requires d.sansShakeHalves >= 0
    requires forall i :: 0 <= i < |ks| ==> !Confirm(ks[i])
    ensures Run(d, ks) == d.(sansShakeHalves := Max(d.sansShakeHalves - |ks|, 0))
    decreases |ks|
  {
    if ks != [] {
      WaitingDecaysShake(Step(d, ks[0]), ks[1..]);
    }
  }

  /**
   * A whole Fight round: confirm on Fight, confirm again to start the enemy
   * turn, then 121 frames of enemy turn bring the Menu back with the cursor
   * still on Fight, the "sins" line shown and the shake spent.
   */
  lemma FightRound(d: CombatData, c1: Keys, c2: Keys, ks: seq<Keys>)
    requires Valid(d) && d.turn == Menu && d.menuSelection == 0
    requires Confirm(c1) && !c1.left && !c1.right && Confirm(c2)
    requires |ks| == EnemyTurnFrames + 1
    ensures var r := Run(d, [c1, c2] + ks);
      && r.turn == Menu && r.menuSelection == 0
      && ShownText(r) == SinsText && r.actionText == MissText
      && r.sansShakeHalves == 0 && r.playerHp == d.playerHp
  {
    var fighting := Step(d, c1);
    var enemy := Step(fighting, c2);
    assert fighting.turn == Fighting && fighting.sansShakeHalves == ShakeOnHitHalves - 1;
    assert enemy.turn == SansTurn && enemy.timer == 0 && enemy.sansShakeHalves == ShakeOnHitHalves - 2;
    assert [c1, c2][1..] == [c2] && [c2][1..] == [];
    assert Run(d, [c1, c2]) == Run(fighting, [c2]) == Run(enemy, []) == enemy;
    RunAppend(d, [c1, c2], ks);
    EnemyTurnEnds(enemy, ks);
    ShakeRunsOut(enemy, ks);
  }

  /** Without a new Fight, every frame takes half a step off the shake until it rests at 0. */
  lemma {:induction false} ShakeRunsOut(d: CombatData, ks: seq<Keys>)
    requires d.turn == SansTurn && d.sansShakeHalves >= 0 && 0 <= d.timer
    requires d.timer + |ks| <= EnemyTurnFrames + 1
    ensures Run(d, ks).sansShakeHalves == Max(d.sansShakeHalves - |ks|, 0)
    decreases |ks|
  {
    if ks != [] {
      var next := Step(d, ks[0]);
      if next.turn == SansTurn {
        ShakeRunsOut(next, ks[1..]);
      } else {
        assert |ks| == 1;
        assert ks[1..] == [];
      }
    }
  }
}
