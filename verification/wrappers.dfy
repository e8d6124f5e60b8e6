/** The optional value used throughout the model: `None` stands for JavaScript's
    "nothing here" wherever the client distinguishes it from a present value. */
module Wrappers {

  datatype Option<+T> = None | Some(value: T)

}
