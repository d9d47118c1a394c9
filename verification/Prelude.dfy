/** What the other modules share. */
module Prelude {
  datatype Option<+T> = None | Some(value: T)

  predicate EndsWith(text: string, suffix: string) {
    |suffix| <= |text| && text[|text| - |suffix|..] == suffix
  }
}
