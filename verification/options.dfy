/** The optional value used wherever the application either has something or has nothing:
    a model name with no endpoint, a form with no notice, a halt with no warning. */
module Options {

  datatype Option<+T> = None | Some(value: T)
}
