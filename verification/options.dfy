/** The nullable references of the formatter (a missing left sibling, an
    unset break marker, an absent alignment) are modelled as Option. */
module Options {

  datatype Option<+T> = None | Some(value: T)

}
