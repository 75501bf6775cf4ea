/**
 * The site footer: the WhatsApp newsletter form (its phone-number check and
 * what a submission does to the form's state and the toasts shown), and the
 * row of social-media links.
 */
module FooterSection {
  import opened Wrappers
  import opened Js
  import opened Types

  /** The characters the `\s` class of a JavaScript regular expression matches. */
  predicate IsJsWhitespace(c: char) {
    || c == ' ' || c == '\t' || c == '\n' || c == '\r'
    || c == '\U{000B}' || c == '\U{000C}'
    || c == '\U{00A0}' || c == '\U{1680}'
    || ('\U{2000}' <= c <= '\U{200A}')
    || c == '\U{2028}' || c == '\U{2029}' || c == '\U{202F}'
    || c == '\U{205F}' || c == '\U{3000}' || c == '\U{FEFF}'
  }

  /** The characters of the class `[0-9\s\-()]`: a digit, whitespace, a hyphen or a parenthesis. */
  predicate IsPhoneChar(c: char) {
    ('0' <= c <= '9') || IsJsWhitespace(c) || c == '-' || c == '(' || c == ')'
  }

  /** Between 10 and 15 characters, every one of them from the phone class. */
  predicate PhoneBody(t: string) {
    10 <= |t| <= 15 && forall i :: 0 <= i < |t| ==> IsPhoneChar(t[i])
  }

  /** What `/^\+?[0-9\s\-()]{10,15}$/` accepts, stated directly: an optional '+' and then a phone body. */
  predicate PhoneAccepted(s: string) {
    PhoneBody(s) || (|s| > 0 && s[0] == '+' && PhoneBody(s[1..]))
  }

  /**
   * The quantifier `[0-9\s\-()]{10,15}$` run over `t` after `k` repetitions
   * have matched: take one more class character while fewer than 15 are
   * taken, and succeed at the end of the input with at least 10.
   */
  function MatchRepeat(t: string, k: nat): (r: bool)
    ensures r ==> 10 <= k + |t| <= 15
    decreases |t|
  {
    if |t| == 0 then 10 <= k <= 15
    else k < 15 && IsPhoneChar(t[0]) && MatchRepeat(t[1..], k + 1)
  }

  /** The regular expression tried on `s`: with the '+' taken by `\+?`, or with `\+?` matching nothing. */
  function PhoneRegexTest(s: string): (r: bool)
    ensures r ==> 10 <= |s| <= 16
    ensures r && |s| == 16 ==> s[0] == '+'
  {
    (|s| > 0 && s[0] == '+' && MatchRepeat(s[1..], 0)) || MatchRepeat(s, 0)
  }

  /** After `k` repetitions, the rest matches exactly when it is all class characters and brings the count to 10..15. */
  lemma {:induction false} MatchRepeatSpec(t: string, k: nat)
    requires k <= 15
    ensures MatchRepeat(t, k)
            <==> 10 <= k + |t| <= 15 && forall i :: 0 <= i < |t| ==> IsPhoneChar(t[i])
  {
    if |t| > 0 && k < 15 {
      MatchRepeatSpec(t[1..], k + 1);
      if forall i :: 0 <= i < |t[1..]| ==> IsPhoneChar(t[1..][i]) {
        if IsPhoneChar(t[0]) {
          forall i | 0 <= i < |t| ensures IsPhoneChar(t[i]) {
            if i > 0 {
              assert t[i] == t[1..][i - 1];
            }
          }
        }
      }
    }
  }

  /** The regular expression accepts exactly the strings `PhoneAccepted` describes. */
  lemma PhoneRegexTestAccepts(s: string)
    ensures PhoneRegexTest(s) <==> PhoneAccepted(s)
  {
    MatchRepeatSpec(s, 0);
    if |s| > 0 {
      MatchRepeatSpec(s[1..], 0);
    }
  }

  /**
   * A leading '+' can only be taken by `\+?` (it is not a class character),
   * so a string starting with '+' is accepted exactly when the rest is a
   * phone body, and any other string exactly when it is one itself.
   */
  lemma PlusOnlyInFront(s: string)
    ensures |s| > 0 && s[0] == '+' ==> (PhoneAccepted(s) <==> PhoneBody(s[1..]))
    ensures (|s| == 0 || s[0] != '+') ==> (PhoneAccepted(s) <==> PhoneBody(s))
  {
    if |s| > 0 && s[0] == '+' {
      assert !IsPhoneChar(s[0]);
    }
  }

  /** An international number written with spaces passes. */
  lemma InternationalNumberAccepted()
    ensures PhoneRegexTest("+91 98765 43210")
  {
    var t := "91 98765 43210";
    assert "+91 98765 43210"[1..] == t;
    assert forall i :: 0 <= i < |t| ==> IsPhoneChar(t[i]);
    assert PhoneAccepted("+91 98765 43210");
    PhoneRegexTestAccepts("+91 98765 43210");
  }

  /** The check counts characters, not digits: ten opening parentheses pass, and so does a run of spaces. */
  lemma NoDigitsAccepted()
    ensures PhoneRegexTest("((((((((((")
    ensures PhoneRegexTest("          ")
  {
    assert PhoneAccepted("((((((((((");
    PhoneRegexTestAccepts("((((((((((");
    assert PhoneAccepted("          ");
    PhoneRegexTestAccepts("          ");
  }

  /** Nine characters are too few and sixteen too many. */
  lemma WrongLengthRejected()
    ensures !PhoneRegexTest("987654321")
    ensures !PhoneRegexTest("1234567890123456")
  {
    PhoneRegexTestAccepts("987654321");
    PhoneRegexTestAccepts("1234567890123456");
  }

  /** A second '+' is not a class character. */
  lemma DoublePlusRejected()
    ensures !PhoneRegexTest("++1234567890")
  {
    var s := "++1234567890";
    assert !IsPhoneChar(s[0]) && !IsPhoneChar(s[1..][0]);
    PhoneRegexTestAccepts(s);
  }

  /** A letter anywhere is refused. */
  lemma LetterRejected()
    ensures !PhoneRegexTest("98765x43210")
  {
    var s := "98765x43210";
    assert !IsPhoneChar(s[5]) && s[1..][4] == s[5];
    PhoneRegexTestAccepts(s);
  }

  /**
   * How the subscription request ended: the server's JSON reply, or an
   * exception (a network failure, a non-OK status, or a `null` reply). Any
   * other reply without a `success` field (an object without it, a number, a
   * string, a boolean or an array) reads `success` as undefined and is
   * `Responded(JNull, None)`: undefined is falsy, so it shows the generic error.
   */
  datatype SubmitOutcome =
    | Responded(success: JsonValue, message: Option<string>)
    | Threw

  datatype ToastKind = SuccessToast | ErrorToast

  /** A toast notification: its kind and its text. */
  datatype Toast = Toast(kind: ToastKind, text: string)

  const InvalidPhoneMessage := "Please enter a valid phone number"
  const SubscribedText := "Thanks for subscribing to our WhatsApp updates!"
  const ServerErrorFallback := "An error occurred"
  const SubscribeFailedText := "Failed to subscribe. Please try again later."

  /** The toast shown for the outcome of a submission. */
  function ToastFor(outcome: SubmitOutcome): (t: Toast)
    ensures t.kind == SuccessToast <==> outcome.Responded? && Truthy(outcome.success)
    ensures t.kind == SuccessToast ==> t.text == SubscribedText
    ensures outcome.Threw? ==> t == Toast(ErrorToast, SubscribeFailedText)
    ensures outcome.Responded? && !Truthy(outcome.success)
            ==> t == Toast(ErrorToast, OrElse(outcome.message, ServerErrorFallback))
    ensures t.text != ""
  {
    match outcome
    case Threw => Toast(ErrorToast, SubscribeFailedText)
    case Responded(success, message) =>
      if Truthy(success) then Toast(SuccessToast, SubscribedText)
      else Toast(ErrorToast, OrElse(message, ServerErrorFallback))
  }

  /** A refusal from the server shows the server's own message, or a generic one when it sent none. */
  lemma ServerMessageShown(message: string)
    ensures ToastFor(Responded(JBool(false), Some(message))).text
            == (if message == "" then ServerErrorFallback else message)
    ensures ToastFor(Responded(JBool(false), None)).text == ServerErrorFallback
  {
  }

  /** The newsletter form's state: the phone field and the message under the form. */
  class NewsletterForm {
    var phoneNumber: string
    var formMessage: string

    constructor()
      ensures phoneNumber == "" && formMessage == ""
    {
      phoneNumber := "";
      formMessage := "";
    }

    /** Typing in the phone field. */
    method EditPhone(text: string)
      modifies this
      ensures phoneNumber == text && formMessage == old(formMessage)
    {
      phoneNumber := text;
    }

    /**
     * The form submitted. The message is cleared; a number the check rejects
     * sets the message and sends nothing (`sent` is None, no toast). A number
     * it accepts is sent (`sent` is that number) and `outcome` is how the
     * request ended: a success shows the thank-you toast and clears the field,
     * any other ending shows an error toast and leaves the field as it was.
     */
    method HandleWhatsAppSignup(outcome: SubmitOutcome) returns (sent: Option<string>, toast: Option<Toast>)
      modifies this
      ensures !PhoneAccepted(old(phoneNumber)) ==>
                && sent == None && toast == None
                && formMessage == InvalidPhoneMessage
                && phoneNumber == old(phoneNumber)
      ensures PhoneAccepted(old(phoneNumber)) ==>
                && sent == Some(old(phoneNumber))
                && toast == Some(ToastFor(outcome))
                && formMessage == ""
                && phoneNumber == (if toast.value.kind == SuccessToast then "" else old(phoneNumber))
    {
      formMessage := "";
      PhoneRegexTestAccepts(phoneNumber);
      if !PhoneRegexTest(phoneNumber) {
        formMessage := InvalidPhoneMessage;
        return None, None;
      }
      sent := Some(phoneNumber);
      match outcome {
        case Threw =>
          toast := Some(Toast(ErrorToast, SubscribeFailedText));
        case Responded(success, message) =>
          if Truthy(success) {
            toast := Some(Toast(SuccessToast, SubscribedText));
            phoneNumber := "";
          } else {
            toast := Some(Toast(ErrorToast, OrElse(message, ServerErrorFallback)));
          }
      }
    }
  }

  /** The social networks the footer has an icon for. */
  const SocialIconKeys: set<string> := {"facebook", "instagram", "twitter", "youtube"}

  /** The social links the footer draws: those with an icon and a non-empty URL. */
  function RenderedSocialLinks(social: SocialLinks): (shown: SocialLinks)
    ensures shown.Keys <= social.Keys && shown.Keys <= SocialIconKeys
    ensures forall k :: k in shown ==> shown[k] == social[k] && shown[k] != ""
    ensures forall k :: k in social && k in SocialIconKeys && social[k] != "" ==> k in shown
  {
    map k | k in social && k in SocialIconKeys && social[k] != "" :: social[k]
  }

  /** However the configuration is set, a Yelp or X link is never drawn: there is no icon for it. */
  lemma YelpAndXNeverRendered(social: SocialLinks)
    ensures "yelp" !in RenderedSocialLinks(social)
    ensures "X" !in RenderedSocialLinks(social)
  {
  }

  /** Drawing depends only on the four iconed entries: adding or changing any other entry changes nothing. */
  lemma OtherNetworksIgnored(social: SocialLinks, extra: SocialLinks)
    requires extra.Keys !! SocialIconKeys
    ensures RenderedSocialLinks(social + extra) == RenderedSocialLinks(social)
  {
  }
}
