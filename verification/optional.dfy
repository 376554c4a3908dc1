/** An optional value: stands for the platform's `null` / `undefined` wherever
    the controller allows one (no drag anchor, no event target, no attribute). */
module Optional {

  datatype Option<+T> = None | Some(value: T)

}
