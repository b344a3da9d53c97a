/** Which of its three views a list screen renders, given its slice's flags:
    the loading skeleton, the error view with a retry action, or the content.
    The services screen and the calendar screen use the same precedence. */
module ScreenView {
  import opened Js

  datatype View = Skeleton | ErrorView(message: string) | Content

  function ChooseView(loading: bool, error: Option<string>, count: nat): (v: View)
    ensures v == Skeleton <==> loading && count == 0
    ensures v.ErrorView? <==> !loading && count == 0 && Truthy(error)
    ensures v.ErrorView? ==> v.message == error.value && v.message != ""
    ensures count > 0 ==> v == Content
  {
    if loading && count == 0 then Skeleton
    else if Truthy(error) && count == 0 then ErrorView(error.value)
    else Content
  }
}
