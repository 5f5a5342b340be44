/** The optional value used for the endpoint's last diagnostic and the file chooser's answer. */
module Wrappers {

  datatype Option<+T> = None | Some(value: T)
}
