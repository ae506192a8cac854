/**
 * The OTP entry screen: a six-slot digit buffer edited one slot at a time,
 * and the verify and resend handlers, both of which write one `api` message.
 */
module VerifyOtp {
  import opened Outcomes

  const SlotCount := 6
  const EmailMissing := "Email is required for OTP verification."
  const ResentNotice := "Verification email resent. Please check your inbox."
  const GenericFailure := "An error occurred. Please try again."
  const SuccessRoute := "/auth/success"

  // ---------------------------------------------------------------------
  // The digit buffer
  // ---------------------------------------------------------------------

  /** `\d` without the `u` flag: the ASCII digits only. */
  predicate IsDigit(c: char)
    ensures IsDigit(c) <==> c in "0123456789"
  {
    '0' <= c <= '9'
  }

  /** `/^\d*$/.test(s)`. */
  predicate AllDigits(s: string)
    ensures AllDigits(s) <==> forall k :: 0 <= k < |s| ==> s[k] in "0123456789"
  {
    forall k :: 0 <= k < |s| ==> IsDigit(s[k])
  }

  /** A slot holds nothing or one digit. */
  predicate ValidSlot(slot: string) {
    |slot| <= 1 && AllDigits(slot)
  }

  predicate ValidBuffer(slots: seq<string>) {
    |slots| == SlotCount && forall i :: 0 <= i < |slots| ==> ValidSlot(slots[i])
  }

  /** `Array(6).fill('')`. */
  function EmptyBuffer(): (slots: seq<string>)
    ensures |slots| == SlotCount
    ensures forall i :: 0 <= i < |slots| ==> slots[i] == ""
  {
    seq(SlotCount, _ => "")
  }

  /** `value.slice(0, 1)`: the first character, or nothing. */
  function FirstChar(value: string): (r: string)
    ensures |r| == if value == "" then 0 else 1
    ensures r <= value
  {
    if value == "" then "" else value[..1]
  }

  /** `slots.join('')`: the slots concatenated in order. */
  function Join(slots: seq<string>): (code: string)
    ensures |code| == TotalLength(slots)
  {
    if slots == [] then "" else slots[0] + Join(slots[1..])
  }

  /** The number of characters held by all the slots. */
  function TotalLength(slots: seq<string>): nat {
    if slots == [] then 0 else |slots[0]| + TotalLength(slots[1..])
  }

  /** Joining distributes over splitting the buffer. */
  lemma {:induction false} JoinAppend(a: seq<string>, b: seq<string>)
    ensures Join(a + b) == Join(a) + Join(b)
  {
    if a == [] {
      assert a + b == b;
    } else {
      assert (a + b)[0] == a[0] && (a + b)[1..] == a[1..] + b;
      JoinAppend(a[1..], b);
    }
  }

  /** The joined code of valid slots is digits only and no longer than the buffer. */
  lemma {:induction false} JoinOfValidSlots(slots: seq<string>)
    requires forall i :: 0 <= i < |slots| ==> ValidSlot(slots[i])
    ensures |Join(slots)| <= |slots|
    ensures AllDigits(Join(slots))
  {
    if slots != [] {
      JoinOfValidSlots(slots[1..]);
      var rest := Join(slots[1..]);
      assert Join(slots) == slots[0] + rest;
      forall k | 0 <= k < |Join(slots)| ensures IsDigit(Join(slots)[k]) {
        if k < |slots[0]| {
          assert Join(slots)[k] == slots[0][k];
        } else {
          assert Join(slots)[k] == rest[k - |slots[0]|];
        }
      }
    }
  }

  /** When every slot is filled, the code has one character per slot, in slot order. */
  lemma {:induction false} JoinOfFilledSlots(slots: seq<string>)
    requires forall i :: 0 <= i < |slots| ==> |slots[i]| == 1
    ensures |Join(slots)| == |slots|
    ensures forall i :: 0 <= i < |slots| ==> Join(slots)[i] == slots[i][0]
  {
    if slots != [] {
      JoinOfFilledSlots(slots[1..]);
      assert Join(slots) == slots[0] + Join(slots[1..]);
      forall i | 0 <= i < |slots| ensures Join(slots)[i] == slots[i][0] {
        if i > 0 {
          assert slots[1..][i - 1] == slots[i];
        }
      }
    }
  }

  /** Only the slot being edited contributes new text to the code. */
  lemma JoinAfterEdit(slots: seq<string>, index: nat, slot: string)
    requires index < |slots|
    ensures Join(slots[index := slot]) == Join(slots[..index]) + slot + Join(slots[index + 1..])
  {
    var edited := slots[index := slot];
    assert edited == slots[..index] + ([slot] + slots[index + 1..]);
    JoinAppend(slots[..index], [slot] + slots[index + 1..]);
    JoinAppend([slot], slots[index + 1..]);
    assert Join([slot]) == slot + Join([]);
  }

  /** The body of the verify request and of the resend request. */
  datatype OtpRequest = OtpRequest(email: string, otp: string)
  datatype ResendRequest = ResendRequest(email: string)

  /**
   * `error.response ? error.response.data.message : GenericFailure`: with a
   * response the server's `message` is used as it is, even when absent
   * (`None` stands for JavaScript's `undefined`); without one, the generic text.
   */
  function FailureMessage<T>(reply: Reply<T>): (m: Option<string>)
    requires !reply.Ok?
    ensures reply.NoResponse? ==> m == Some(GenericFailure)
    ensures reply.Rejected? ==> m == reply.message
  {
    match reply
    case Rejected(_, message) => message
    case NoResponse => Some(GenericFailure)
  }

  // ---------------------------------------------------------------------
  // The screen's state and handlers (app/auth/verify-otp/page.js:7-76, 101, 109)
  // ---------------------------------------------------------------------

  class OtpPage {
    var otp: seq<string>
    /** Error texts by key; a `None` value is a key set to `undefined`. */
    var errors: map<string, Option<string>>
    var loading: bool
    var resendLoading: bool
    /** The last `router.push` target, `None` while the screen stays put. */
    var route: Option<string>
    /** `searchParams.get('email') || ''`. */
    const email: string

    ghost predicate Valid()
      reads this
    {
      ValidBuffer(otp)
    }

    /**
     * The first render followed by the mount effect, which reports a missing
     * email under `api`.
     */
    constructor (emailParam: Option<string>)
      ensures Valid() && otp == EmptyBuffer()
      ensures email == emailParam.GetOr("")
      ensures errors == if email == "" then map["api" := Some(EmailMissing)] else map[]
      ensures !loading && !resendLoading && route == None
    {
      otp := EmptyBuffer();
      email := emailParam.GetOr("");
      loading, resendLoading, route := false, false, None;
      new;
      if email == "" {
        errors := map["api" := Some(EmailMissing)];
      } else {
        errors := map[];
      }
    }

    /** `disabled={loading || !email}` on the Verify button. */
    predicate VerifyDisabled()
      reads this
      ensures email == "" ==> VerifyDisabled()
      ensures email != "" ==> (VerifyDisabled() <==> loading)
    {
      loading || email == ""
    }

    /** `disabled={resendLoading || !email}` on the Resend button. */
    predicate ResendDisabled()
      reads this
      ensures email == "" ==> ResendDisabled()
      ensures email != "" ==> (ResendDisabled() <==> resendLoading)
    {
      resendLoading || email == ""
    }

    /**
     * `handleChange(e, index)`: a value with a non-digit is ignored; otherwise
     * slot `index` takes the value's first character, or becomes empty.
     */
    method HandleChange(index: nat, value: string)
      requires Valid() && index < SlotCount
      modifies this`otp
      ensures Valid()
      ensures !AllDigits(value) ==> otp == old(otp)
      ensures AllDigits(value) ==> otp == old(otp)[index := FirstChar(value)]
    {
      if AllDigits(value) {
        var newOtp := otp;
        newOtp := newOtp[index := FirstChar(value)];
        otp := newOtp;
      }
    }

    /** `handleSubmit`: posts the joined code; `loadingAtCall` is `loading` while it is awaited. */
    method HandleSubmit(reply: Reply<()>) returns (sent: OtpRequest, ghost loadingAtCall: bool)
      requires Valid()
      modifies this`loading, this`errors, this`route
      ensures sent == OtpRequest(email, Join(otp))
      ensures |sent.otp| <= SlotCount && AllDigits(sent.otp)
      ensures loadingAtCall && !loading
      ensures reply.Ok? ==> route == Some(SuccessRoute) && errors == old(errors)
      ensures !reply.Ok? ==> route == old(route) && errors == map["api" := FailureMessage(reply)]
    {
      loading := true;
      var code := Join(otp);
      JoinOfValidSlots(otp);
      sent := OtpRequest(email, code);
      loadingAtCall := loading;
      if reply.Ok? {
        route := Some(SuccessRoute);
      } else {
        errors := map["api" := FailureMessage(reply)];
      }
      loading := false;
    }

    /**
     * `handleResendOtp`: success and failure both replace `errors` by a single
     * `api` entry, the notice or the failure text.
     */
    method HandleResendOtp(reply: Reply<()>) returns (sent: ResendRequest, ghost resendLoadingAtCall: bool)
      modifies this`resendLoading, this`errors
      ensures sent == ResendRequest(email)
      ensures resendLoadingAtCall && !resendLoading
      ensures errors == map["api" := if reply.Ok? then Some(ResentNotice) else FailureMessage(reply)]
    {
      resendLoading := true;
      sent := ResendRequest(email);
      resendLoadingAtCall := resendLoading;
      if reply.Ok? {
        errors := map["api" := Some(ResentNotice)];
      } else {
        errors := map["api" := FailureMessage(reply)];
      }
      resendLoading := false;
    }

    /** A click on Verify: a disabled button sends nothing and changes nothing. */
    method ClickVerify(reply: Reply<()>) returns (sent: Option<OtpRequest>)
      requires Valid()
      modifies this`loading, this`errors, this`route
      ensures old(VerifyDisabled()) ==> sent == None && unchanged(this)
      ensures !old(VerifyDisabled()) ==>
        && email != ""
        && sent == Some(OtpRequest(email, Join(otp)))
        && !loading
        && (reply.Ok? ==> route == Some(SuccessRoute) && errors == old(errors))
        && (!reply.Ok? ==> route == old(route) && errors == map["api" := FailureMessage(reply)])
    {
      if VerifyDisabled() {
        return None;
      }
      var request, _ := HandleSubmit(reply);
      sent := Some(request);
    }

    /** A click on Resend OTP: a disabled button sends nothing and changes nothing. */
    method ClickResend(reply: Reply<()>) returns (sent: Option<ResendRequest>)
      modifies this`resendLoading, this`errors
      ensures old(ResendDisabled()) ==> sent == None && unchanged(this)
      ensures !old(ResendDisabled()) ==>
        && email != ""
        && sent == Some(ResendRequest(email))
        && !resendLoading
        && errors == map["api" := if reply.Ok? then Some(ResentNotice) else FailureMessage(reply)]
    {
      if ResendDisabled() {
        return None;
      }
      var request, _ := HandleResendOtp(reply);
      sent := Some(request);
    }
  }

  /** Without an email both buttons are disabled, so no request is ever sent. */
  method MissingEmailScenario(reply: Reply<()>)
  {
    var page := new OtpPage(None);
    assert page.errors == map["api" := Some(EmailMissing)];
    var verify := page.ClickVerify(reply);
    var resend := page.ClickResend(reply);
    assert verify == None && resend == None;
  }
}
