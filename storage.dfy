/** One `localStorage` key together with `JSON.parse` of what it holds. */
module Storage {

  /** `Absent` is a missing key (or an empty string, which every caller treats the same way),
      `Garbage` a stored text that `JSON.parse` rejects or that has the wrong shape,
      `Holds(v)` a text that parses to `v`. */
  datatype Slot<T> = Absent | Garbage | Holds(value: T)

  /** `str ? JSON.parse(str) : fallback` inside a `try` whose `catch` also yields `fallback`. */
  function LoadOr<T>(slot: Slot<T>, fallback: T): (v: T)
    ensures slot.Holds? ==> v == slot.value
    ensures !slot.Holds? ==> v == fallback
  {
    if slot.Holds? then slot.value else fallback
  }

  /** `localStorage.getItem(key)` on a store that keeps one kind of value per key. */
  function Lookup<T>(m: map<string, Slot<T>>, key: string): (slot: Slot<T>)
    ensures key !in m ==> slot == Absent
    ensures key in m ==> slot == m[key]
  {
    if key in m then m[key] else Absent
  }
}
