/** A value that may be absent: Kotlin's nullable types and LiveData that has
    never been posted to. */
module Options {

  datatype Option<+T> = None | Some(value: T)
}
