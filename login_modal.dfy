/** The login modal: its two-slide carousel and the forgot-password guard. */
module LoginModal {
  import opened Wrappers

  /** JavaScript's `%`: the remainder takes the sign of the dividend. */
  function JsRem(a: int, b: int): (r: int)
    requires b > 0
    ensures a >= 0 ==> 0 <= r < b && r == a % b
  {
    if a >= 0 then a % b else -((-a) % b)
  }

  /** `(prev + 1) % slides.length` */
  function NextSlide(current: int, slideCount: int): (r: int)
    requires slideCount > 0 && 0 <= current < slideCount
    ensures 0 <= r < slideCount
    ensures r == if current + 1 == slideCount then 0 else current + 1
  {
    JsRem(current + 1, slideCount)
  }

  /** `(prev - 1 + slides.length) % slides.length` */
  function PrevSlide(current: int, slideCount: int): (r: int)
    requires slideCount > 0 && 0 <= current < slideCount
    ensures 0 <= r < slideCount
    ensures r == if current == 0 then slideCount - 1 else current - 1
  {
    var a := current - 1 + slideCount;
    assert current > 0 ==> a == (current - 1) + slideCount * 1;
    JsRem(a, slideCount)
  }

  /** The carousel has two slides. */
  const SlideCount: int := 2

  /** The arrows undo each other. */
  lemma SlidesRoundTrip(current: int, slideCount: int)
    requires slideCount > 0 && 0 <= current < slideCount
    ensures PrevSlide(NextSlide(current, slideCount), slideCount) == current
    ensures NextSlide(PrevSlide(current, slideCount), slideCount) == current
  {
  }

  /** The result of `/api/forgot-password`; `status` and `message` come from the
      error's response, when there is one. */
  datatype ForgotResponse = Sent(message: string) | Failed(status: Option<int>, errorMessage: Option<string>)

  /** The banner the modal shows; `text` is `None` where the code would show `undefined`. */
  datatype Banner = Banner(isError: bool, text: Option<string>)

  /** What clicking "Forgot password?" does: whether a request is made, and the banner. */
  datatype ForgotOutcome = ForgotOutcome(requested: bool, banner: Banner)

  /** `handleForgotPassword`: no request without an email; the server's
      message on success and on a 429; otherwise the server's message, or a
      fixed text when it is missing or empty (`message || '...'`). */
  function ForgotPassword(email: string, response: ForgotResponse): (r: ForgotOutcome)
    ensures !r.requested <==> email == ""
    ensures email == "" ==> r.banner == Banner(true, Some("Please enter your email first"))
    ensures r.banner.isError <==> email == "" || response.Failed?
    ensures email != "" && response.Sent? ==> r.banner.text == Some(response.message)
    ensures email != "" && response.Failed? && response.status == Some(429) ==>
      r.banner.text == response.errorMessage
    ensures email != "" && response.Failed? && response.status != Some(429) ==>
      && r.banner.text.Some? && r.banner.text.value != ""
      && (response.errorMessage.Some? && response.errorMessage.value != "" ==> r.banner.text == response.errorMessage)
      && (response.errorMessage.None? || response.errorMessage == Some("") ==>
            r.banner.text == Some("Failed to send reset link"))
  {
    if email == "" then ForgotOutcome(false, Banner(true, Some("Please enter your email first")))
    else match response
      case Sent(m) => ForgotOutcome(true, Banner(false, Some(m)))
      case Failed(status, m) =>
        if status == Some(429) then ForgotOutcome(true, Banner(true, m))
        else if m.Some? && m.value != "" then ForgotOutcome(true, Banner(true, m))
        else ForgotOutcome(true, Banner(true, Some("Failed to send reset link")))
  }
}
