/** Optional values, as Go writes them with possibly nil pointers. */
module Options {
  datatype Option<+T> = None | Some(value: T)

  function OrEmpty(value: Option<string>): string {
    if value.Some? then value.value else ""
  }

  /** A text that stands for itself unless it is empty. */
  function NonEmpty(text: string): Option<string> {
    if text == "" then None else Some(text)
  }
}
