/** An optional value: a field that the engine leaves null until it is loaded, or a
    lookup that may find nothing. */
module Options {

  datatype Option<+T> = None | Some(value: T)

}
