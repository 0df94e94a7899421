/** An optional value, for the things the window tests against `None`: the
    loaded audio, the pointer's data coordinate and the drag target. */
module Optional {
  datatype Option<T> = None | Some(value: T)
}
