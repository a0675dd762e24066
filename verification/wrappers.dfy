/** The optional value used wherever the estimator meets a lookup that can
    miss (a catalogue id that is not there) or a parse that can fail. */
module Wrappers {

  datatype Option<+T> = None | Some(value: T)
}
