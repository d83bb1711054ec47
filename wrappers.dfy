/** The optional value of the model: `None` stands for Java's `null`, or for a mapper or reducer that writes nothing. */
module Wrappers {

  datatype Option<+T> = None | Some(value: T)
}
