/** Swift's `Optional`, as used for `largestUndimmedDetent` and the sheet controller's
    `largestUndimmedDetentIdentifier`. */
module Options {

  datatype Option<+T> = None | Some(value: T)
}
