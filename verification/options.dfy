/** The optional value used wherever the bot reads a nullable column or an
    argument that may be absent. */
module Options {

  datatype Option<+T> = None | Some(value: T)
}
