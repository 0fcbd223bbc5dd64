/** Small value types shared by every module of the model. */
module Wrappers {

  datatype Option<+T> = None | Some(value: T)

  /** What a call into the media engine gives back: a value, or an exception
      (whose `message` the handlers put into their 500 reply). */
  datatype Engine<+T> = Returns(value: T) | Throws(message: string)

  /** An engine call that returns nothing (`connect`, `resume`). */
  datatype Completion = Completed | Failed(message: string)
}
