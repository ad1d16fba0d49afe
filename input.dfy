/**
 * The keyboard as the two scene updates see it: for each key they poll,
 * whether it was pressed during this frame (an edge, not a held key).
 */
module Input {
  datatype Keys = Keys(left: bool, right: bool, z: bool, enter: bool, f: bool)

  /** No key pressed this frame. */
  const NoKeys := Keys(false, false, false, false, false)

  /** The combat scene treats Z, Enter and F alike as "confirm". */
  predicate Confirm(k: Keys) {
    k.z || k.enter || k.f
  }
}
