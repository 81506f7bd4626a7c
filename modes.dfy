/** Values shared by perception and decision: the rover's drive mode and an
    optional value (the navigation signal before the first perception pass). */
module Modes {

  /** `Rover.mode` is a string; the four known modes and any other string. */
  datatype Mode = Forward | Stop | Reverse | Rock | Other(name: string)

  datatype Option<+T> = None | Some(value: T)
}
