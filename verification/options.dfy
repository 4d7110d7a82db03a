/** The optional value used wherever the client library answers "nothing":
    a parse that fails, a lookup that finds no parameter, a null record. */
module Options {

  datatype Option<+T> = None | Some(value: T)
}
