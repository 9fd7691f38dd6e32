/** What a history of events says of one thing, where only some of the events speak of it. */
module Histories {
  import opened Substrate

  function Latest<E, T>(h: seq<E>, says: E -> Option<T>): Option<T>
    decreases |h|
  {
    if h == [] then None else OrElse(says(h[|h| - 1]), Latest(h[..|h| - 1], says))
  }

  function Earliest<E, T>(h: seq<E>, says: E -> Option<T>): Option<T>
    decreases |h|
  {
    if h == [] then None else OrElse(Earliest(h[..|h| - 1], says), says(h[|h| - 1]))
  }
}
