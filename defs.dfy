/** Shared game definitions (src/defs.rs): only the scene identifier is needed here. */
module Defs {
  /** The scene the outer dispatcher runs; the combat update leaves combat by setting it to Desktop. */
  datatype Scene =
    | Boot
    | LoginUsername
    | LoginPassword
    | Menu
    | TransitionToDesktop
    | Desktop
    | CombatTransition
    | Combat
    | Config
    | KernelPanic
    | AyasofyaInside
}
