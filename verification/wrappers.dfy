/** The optional value used for "the transaction may not carry extension options"
    and for "the switch may match no case". */
module Wrappers {

  datatype Option<+T> = None | Some(value: T)

}
