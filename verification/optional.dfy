/** A value that may be absent. The model uses `None` where the C# code
    would throw or produce a value C# leaves unspecified. */
module Optional {

  datatype Option<+T> = None | Some(value: T)
}
