/** A call to the router's `navigate(to, options)`, recorded as an output of the operation making it. */
module Navigation {
  import opened Wrappers

  /** `replace` replaces the history entry; `message` is the `state.message` passed along, if any. */
  datatype Navigate = Navigate(to: string, replace: bool, message: Option<string>)

  const LoginPath := "/login"
}
