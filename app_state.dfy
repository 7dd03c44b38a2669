/** The session states of the console recreation (types.ts). */
module AppStates {
  /** Which top-level screen is active; exactly one at any time. */
  datatype AppState =
    | PowerOff     // the power button screen
    | StartupLogo  // the boot animation
    | BlackScreen  // the "no disk" pause
    | BiosMenu     // the system configuration menu
    | MemoryCard   // menu target, never entered by the current code
    | CdPlayer     // menu target, never entered by the current code
}
