/**
 The one entity of the service: an administrative region of Indonesia,
 and the four levels of the hierarchy it can sit at.
 */
module Regions {

  /** A region record as stored in the JSON files: `{code, value}`. */
  datatype Region = Region(code: string, value: string)

  /** The four levels, ordered by containment. */
  datatype Level = State | City | District | Village

  /** The level directly above a child level. */
  function Above(lvl: Level): (up: Level)
    requires lvl != State
    ensures Depth(up) + 1 == Depth(lvl)
  {
    match lvl
    case City => State
    case District => City
    case Village => District
  }

  /** Number of levels above `lvl`; also the number of dots in a code at that level. */
  function Depth(lvl: Level): nat
  {
    match lvl
    case State => 0
    case City => 1
    case District => 2
    case Village => 3
  }
}
