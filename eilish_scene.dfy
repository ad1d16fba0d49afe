/**
 * The NPC proximity dialogue controller (src/scenes/eilish.rs): on stage 4,
 * pressing F near Eilish opens a dialogue bubble with one of eight lines,
 * which closes after 300 frames or as soon as the player walks away.
 * Step is one frame as a function; Update is the same frame on the shared
 * game state; the lemmas follow several frames.
 */
module EilishScene {
  import opened Input
  import opened Game

  /** The only stage on which Eilish is present. */
  const TalkStage := 4
  /** How close the player must be to talk, in screen units. */
  const TalkRange: real := 120.0
  /** How many frames a dialogue bubble stays open, counting the one that opens it. */
  const DialogueFrames := 300

  /** The pool of lines Eilish picks from. */
  const Lines: seq<string> := [
    "Don't go to the dead space!",
    "It drains your health...",
    "I heard strange noises from there.",
    "Why are we here?",
    "Do you like my hair?",
    "Linux is complicated...",
    "Have you tried turning it off and on again?",
    "sudo rm -rf / ... just kidding!"
  ]

  /** The index the random pick returns: always a position in Lines. */
  type LineIndex = i: int | 0 <= i < 8

  /** Eilish's dialogue fields of the game state: talking, frames left, current line. */
  datatype Dialogue = Dialogue(talking: bool, timer: int, line: string)

  /**
   * What one frame of the update reads besides the dialogue itself: both
   * positions, whether F was pressed, and the index the random pick returns.
   */
  datatype Frame = Frame(player: Vec2, npc: Vec2, interact: bool, pick: LineIndex)

  /**
   * Is the player within TalkRange of Eilish? The source compares the square
   * root of the squared distance with 120; comparing the squared distance with
   * 120 squared is the same test over the reals.
   */
  predicate InRange(player: Vec2, npc: Vec2) {
    var dx := player.x - npc.x;
    var dy := player.y - npc.y;
    dx * dx + dy * dy < TalkRange * TalkRange
  }

  /** A frame that opens (or reopens) the bubble: in range with F pressed. */
  predicate Triggers(fr: Frame) {
    InRange(fr.player, fr.npc) && fr.interact
  }

  /** An open bubble always has between 1 and 299 frames left. */
  predicate Valid(v: Dialogue) {
    v.talking ==> 0 < v.timer < DialogueFrames
  }

  /**
   * The dialogue after one frame. Off stage 4 nothing changes. A trigger
   * opens the bubble with a picked line, whether or not it was already open,
   * and the same frame already counts down once. Out of range the bubble is
   * closed at once and timer and line are left as they were. An open bubble
   * counts down one frame and closes when its timer reaches 0. The line
   * changes only on a trigger.
   */
  function Step(v: Dialogue, stage: int, fr: Frame): (r: Dialogue)
    ensures stage != TalkStage ==> r == v
    ensures stage == TalkStage && Triggers(fr) ==>
      r.talking && r.timer == DialogueFrames - 1 && r.line == Lines[fr.pick]
    ensures stage == TalkStage && !InRange(fr.player, fr.npc) ==>
      !r.talking && r.timer == v.timer && r.line == v.line
    ensures stage == TalkStage && InRange(fr.player, fr.npc) && !fr.interact ==>
      if v.talking then r.line == v.line && r.timer == v.timer - 1 && (r.talking <==> r.timer > 0)
      else r == v
    ensures !(stage == TalkStage && Triggers(fr)) ==> r.line == v.line
    ensures r.line == v.line || r.line in Lines
    ensures Valid(v) ==> Valid(r)
  {
    if stage != TalkStage then v
    else
      var shown :=
        if InRange(fr.player, fr.npc) then
          if fr.interact then Dialogue(true, DialogueFrames, Lines[fr.pick]) else v
        else
          v.(talking := false);
      if shown.talking then
        var left := shown.timer - 1;
        shown.(timer := left, talking := left > 0)
      else
        shown
  }

  /** Eilish's dialogue fields as they stand in the game state. */
  function DialogueOf(state: GameState): Dialogue
    reads state
  {
    Dialogue(state.eilishTalking, state.eilishDialogueTimer, state.eilishCurrentDialogue)
  }

  /**
   * The dialogue update of one frame on the shared game state. It writes only
   * Eilish's three dialogue fields (positions and stage are only read), and
   * they become Step of what they were.
   */
  method Update(state: GameState, keys: Keys, pick: LineIndex)
    modifies state`eilishTalking, state`eilishDialogueTimer, state`eilishCurrentDialogue
    ensures DialogueOf(state) ==
      Step(old(DialogueOf(state)), state.currentStage, Frame(state.playerPos, state.eilishPos, keys.f, pick))
  {
    if state.currentStage != TalkStage {
      return;
    }

    var dx := state.playerPos.x - state.eilishPos.x;
    var dy := state.playerPos.y - state.eilishPos.y;
    var distanceSquared := dx * dx + dy * dy;

    if distanceSquared < TalkRange * TalkRange {
      if keys.f {
        state.eilishTalking := true;
        state.eilishDialogueTimer := DialogueFrames;
        state.eilishCurrentDialogue := Lines[pick];
      }
    } else {
      if state.eilishTalking {
        state.eilishTalking := false;
      }
    }

    if state.eilishTalking {
      state.eilishDialogueTimer := state.eilishDialogueTimer - 1;
      if state.eilishDialogueTimer <= 0 {
        state.eilishTalking := false;
      }
    }
  }

  /** The dialogue after a sequence of frames on a fixed stage. */
  function Run(v: Dialogue, stage: int, frames: seq<Frame>): (r: Dialogue)
    ensures stage != TalkStage ==> r == v
    ensures Valid(v) ==> Valid(r)
    ensures r.line == v.line || r.line in Lines
    decreases |frames|
  {
    if frames == [] then v else Run(Step(v, stage, frames[0]), stage, frames[1..])
  }

  /**
   * An open bubble, with the player staying in range and not pressing F,
   * counts down one frame at a time and stays open exactly until its timer
   * reaches 0; the line does not change.
   */
  lemma {:induction false} Countdown(v: Dialogue, frames: seq<Frame>)
    requires v.talking && 0 < v.timer && |frames| <= v.timer
    requires forall i :: 0 <= i < |frames| ==> InRange(frames[i].player, frames[i].npc) && !frames[i].interact
    ensures Run(v, TalkStage, frames).timer == v.timer - |frames|
    ensures Run(v, TalkStage, frames).talking <==> |frames| < v.timer
    ensures Run(v, TalkStage, frames).line == v.line
    decreases |frames|
  {
    if frames != [] {
      var next := Step(v, TalkStage, frames[0]);
      if next.talking {
        Countdown(next, frames[1..]);
      } else {
        assert frames[1..] == [];
      }
    }
  }

  /**
   * After one trigger, with the player staying in range and not pressing F
   * again, the bubble shows the picked line and is open after each of the
   * first 299 updates; the 300th update, counting the trigger, closes it.
   */
  lemma TalkLastsDialogueFrames(v: Dialogue, trigger: Frame, frames: seq<Frame>)
    requires Triggers(trigger) && |frames| < DialogueFrames
    requires forall i :: 0 <= i < |frames| ==> InRange(frames[i].player, frames[i].npc) && !frames[i].interact
    ensures var r := Run(v, TalkStage, [trigger] + frames);
      && r.line == Lines[trigger.pick]
      && r.timer == DialogueFrames - 1 - |frames|
      && (r.talking <==> 1 + |frames| < DialogueFrames)
  {
    var first := Step(v, TalkStage, trigger);
    assert ([trigger] + frames)[0] == trigger && ([trigger] + frames)[1..] == frames;
    assert Run(v, TalkStage, [trigger] + frames) == Run(first, TalkStage, frames);
    Countdown(first, frames);
  }

  /**
   * While the bubble is closed, frames without a trigger change nothing at
   * all: no line is picked and no timer runs, wherever the player stands.
   */
  lemma {:induction false} IdleStaysIdle(v: Dialogue, stage: int, frames: seq<Frame>)
    requires !v.talking
    requires forall i :: 0 <= i < |frames| ==> !Triggers(frames[i])
    ensures Run(v, stage, frames) == v
    decreases |frames|
  {
    if frames != [] {
      IdleStaysIdle(Step(v, stage, frames[0]), stage, frames[1..]);
    }
  }

  /** Walking out of range closes an open bubble at once, whatever time it had left. */
  lemma {:induction false} LeavingCloses(v: Dialogue, frames: seq<Frame>)
    requires |frames| > 0
    requires forall i :: 0 <= i < |frames| ==> !InRange(frames[i].player, frames[i].npc)
    ensures var r := Run(v, TalkStage, frames);
      !r.talking && r.timer == v.timer && r.line == v.line
    decreases |frames|
  {
    var next := Step(v, TalkStage, frames[0]);
    if |frames| > 1 {
      LeavingCloses(next, frames[1..]);
    } else {
      assert frames[1..] == [];
    }
  }
}
