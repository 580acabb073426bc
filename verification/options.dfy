/** The optional value used wherever the system may find nothing (a window, a monitor, an app). */
module Options {

  datatype Option<+T> = None | Some(value: T)
}
