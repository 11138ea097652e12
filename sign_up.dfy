/**
 * The submit decision of the sign-up page: the ordered validation chain, the
 * request body sent to the sign-up endpoint, the message shown when a network
 * call fails, and the ordered effects that one press of "Sign Up" produces.
 *
 * JavaScript truthiness on a string is "not the empty string" throughout.
 * The email validator is not part of this model: every member that needs it
 * takes it as a parameter `validEmail`.
 */
module SignUp {
  import opened Optional

  // The messages and paths the page uses.
  const NameMissing := "Please enter the name"
  const EmailInvalid := "Please enter a valid email address"
  const PasswordMissing := "Please enter the password"
  const AdminTokenMissing := "Admin invite token is required for admin signup"
  const GenericFailure := "Something went wrong. Please try again!"
  const SignUpPath := "/auth/sign-up"
  const LoginPath := "/login"

  /** The page's form fields at the moment of submission. */
  datatype Form = Form(
    fullName: string,
    email: string,
    password: string,
    isAdmin: bool,
    adminInviteToken: string,
    hasProfilePic: bool)

  /** The JSON body of the sign-up request. */
  datatype Payload = Payload(
    name: string,
    email: string,
    password: string,
    profileImageUrl: string,
    adminJoinCode: string)

  /** What the image-upload helper resolves to; its `imageUrl` may be missing. */
  datatype UploadResponse = UploadResponse(imageUrl: Option<string>)

  /** What a failed call throws, reduced to `error?.response?.data?.message`. */
  datatype Thrown = Thrown(message: Option<string>)

  /** How an awaited call settles. */
  datatype Outcome<T> = Resolved(value: T) | Rejected(thrown: Thrown)

  /** One observable effect of the submit handler, in the order it happens. */
  datatype Event =
    | ErrorSet(error: Option<string>)
    | UploadRequest
    | SignUpRequest(path: string, body: Payload)
    | NavigateTo(path: string)
  {
    /** A call that leaves the browser. */
    predicate IsRequest() {
      UploadRequest? || SignUpRequest?
    }
  }

  // ---------------------------------------------------------------------------
  // Validation chain

  /**
   * The first failing check of the chain, or None when every check passes:
   * name, then email, then password, then (in admin mode) the invite token.
   */
  function Validate(f: Form, validEmail: string -> bool): (r: Option<string>)
    ensures r == None <==>
      f.fullName != "" && validEmail(f.email) && f.password != "" &&
      (f.isAdmin ==> f.adminInviteToken != "")
    ensures f.fullName == "" ==> r == Some(NameMissing)
    ensures r == Some(EmailInvalid) <==> f.fullName != "" && !validEmail(f.email)
    ensures r == Some(PasswordMissing) <==>
      f.fullName != "" && validEmail(f.email) && f.password == ""
    ensures r == Some(AdminTokenMissing) <==>
      f.fullName != "" && validEmail(f.email) && f.password != "" &&
      f.isAdmin && f.adminInviteToken == ""
  {
    if f.fullName == "" then Some(NameMissing)
    else if !validEmail(f.email) then Some(EmailInvalid)
    else if f.password == "" then Some(PasswordMissing)
    else if f.isAdmin && f.adminInviteToken == "" then Some(AdminTokenMissing)
    else None
  }

  /** One link of a validation chain: whether it fails, and what it then reports. */
  datatype Check = Check(fails: bool, message: string)

  /** Reference semantics of an early-return chain: the first failing link wins. */
  function FirstFailure(cs: seq<Check>): Option<string> {
    if cs == [] then None
    else if cs[0].fails then Some(cs[0].message)
    else FirstFailure(cs[1..])
  }

  /** The page's checks as an ordered chain. */
  function Checks(f: Form, validEmail: string -> bool): seq<Check> {
    [ Check(f.fullName == "", NameMissing),
      Check(!validEmail(f.email), EmailInvalid),
      Check(f.password == "", PasswordMissing),
      Check(f.isAdmin && f.adminInviteToken == "", AdminTokenMissing) ]
  }

  /** A chain reports the message of its earliest failing link. */
  lemma {:induction false} FirstFailureIsEarliest(cs: seq<Check>, i: nat)
    requires i < |cs| && cs[i].fails
    requires forall j :: 0 <= j < i ==> !cs[j].fails
    ensures FirstFailure(cs) == Some(cs[i].message)
  {
    if i > 0 {
      FirstFailureIsEarliest(cs[1..], i - 1);
    }
  }

  /** A chain reports nothing exactly when no link fails. */
  lemma {:induction false} FirstFailureNone(cs: seq<Check>)
    ensures FirstFailure(cs) == None <==> forall i :: 0 <= i < |cs| ==> !cs[i].fails
  {
    if cs != [] {
      FirstFailureNone(cs[1..]);
      assert forall i :: 1 <= i < |cs| ==> cs[i] == cs[1..][i - 1];
    }
  }

  /** Validate is the early-return chain over Checks. */
  lemma ValidateIsFirstFailure(f: Form, validEmail: string -> bool)
    ensures Validate(f, validEmail) == FirstFailure(Checks(f, validEmail))
  {
    var cs := Checks(f, validEmail);
    if f.fullName == "" {
      FirstFailureIsEarliest(cs, 0);
    } else if !validEmail(f.email) {
      FirstFailureIsEarliest(cs, 1);
    } else if f.password == "" {
      FirstFailureIsEarliest(cs, 2);
    } else if f.isAdmin && f.adminInviteToken == "" {
      FirstFailureIsEarliest(cs, 3);
    } else {
      FirstFailureNone(cs);
    }
  }

  // ---------------------------------------------------------------------------
  // Request body and error message

  /** `imageUploadRes.imageUrl || ""`: the uploaded URL when truthy, else "". */
  function UploadedImageUrl(res: UploadResponse): (url: string)
    ensures url != "" <==> res.imageUrl.Some? && res.imageUrl.value != ""
    ensures url != "" ==> res.imageUrl == Some(url)
  {
    match res.imageUrl
    case None => ""
    case Some(u) => u
  }

  /** The sign-up body: fields copied from the form, join code only in admin mode. */
  function BuildPayload(f: Form, profileImageUrl: string): (p: Payload)
    ensures p.name == f.fullName && p.email == f.email && p.password == f.password
    ensures p.profileImageUrl == profileImageUrl
    ensures f.isAdmin ==> p.adminJoinCode == f.adminInviteToken
    ensures !f.isAdmin ==> p.adminJoinCode == ""
  {
    Payload(f.fullName, f.email, f.password, profileImageUrl,
            if f.isAdmin then f.adminInviteToken else "")
  }

  /** The message shown after a failed call: the server's, when truthy, else the fallback. */
  function ErrorText(serverMessage: Option<string>): (text: string)
    ensures text != ""
    ensures text == GenericFailure || serverMessage == Some(text)
    ensures serverMessage.Some? && serverMessage.value != "" ==> text == serverMessage.value
    ensures serverMessage.None? ==> text == GenericFailure
  {
    match serverMessage
    case Some(m) => if m != "" then m else GenericFailure
    case None => GenericFailure
  }

  // ---------------------------------------------------------------------------
  // One submission as a trace of effects

  /** The effects of one submission that passed validation, after the reset. */
  function RequestTrace(f: Form, upload: Outcome<UploadResponse>, post: Outcome<()>): (t: seq<Event>)
    ensures |t| >= 2
    ensures t[0] == UploadRequest <==> f.hasProfilePic
    ensures forall i :: 0 < i < |t| ==> !t[i].UploadRequest?
    ensures t[|t| - 1] == NavigateTo(LoginPath) <==> (f.hasProfilePic ==> upload.Resolved?) && post.Resolved?
    ensures t[|t| - 1].NavigateTo? || (t[|t| - 1].ErrorSet? && t[|t| - 1].error.Some?)
  {
    if f.hasProfilePic then
      match upload
      case Rejected(t) => [UploadRequest, ErrorSet(Some(ErrorText(t.message)))]
      case Resolved(res) => [UploadRequest] + PostTrace(f, UploadedImageUrl(res), post)
    else
      PostTrace(f, "", post)
  }

  /** The sign-up request and what follows it. */
  function PostTrace(f: Form, profileImageUrl: string, post: Outcome<()>): (t: seq<Event>)
    ensures |t| == 2 && t[0] == SignUpRequest(SignUpPath, BuildPayload(f, profileImageUrl))
    ensures t[1] == NavigateTo(LoginPath) <==> post.Resolved?
    ensures post.Rejected? ==> t[1] == ErrorSet(Some(ErrorText(post.thrown.message)))
  {
    [SignUpRequest(SignUpPath, BuildPayload(f, profileImageUrl))] +
    match post
    case Resolved(_) => [NavigateTo(LoginPath)]
    case Rejected(t) => [ErrorSet(Some(ErrorText(t.message)))]
  }

  /**
   * Every effect of one submission, in order. `upload` and `post` say how the
   * two awaited calls would settle if they were made.
   */
  function SubmitTrace(f: Form, validEmail: string -> bool,
                       upload: Outcome<UploadResponse>, post: Outcome<()>): (t: seq<Event>)
    ensures Validate(f, validEmail).Some? <==> t == [ErrorSet(Validate(f, validEmail))]
    ensures |t| > 0 && t[0].ErrorSet?
  {
    match Validate(f, validEmail)
    case Some(_) => [ErrorSet(Validate(f, validEmail))]
    case None => [ErrorSet(None)] + RequestTrace(f, upload, post)
  }

  /** The page state the effects act on: the displayed error and where the router went. */
  datatype PageState = PageState(error: Option<string>, navigatedTo: Option<string>)

  function Apply(s: PageState, e: Event): PageState {
    match e
    case ErrorSet(err) => s.(error := err)
    case NavigateTo(p) => s.(navigatedTo := Some(p))
    case _ => s
  }

  /** The state after a sequence of effects, applied front to back. */
  function Replay(s: PageState, t: seq<Event>): PageState
    decreases t
  {
    if t == [] then s else Replay(Apply(s, t[0]), t[1..])
  }

  lemma ReplayCons(s: PageState, e: Event, t: seq<Event>)
    ensures Replay(s, [e] + t) == Replay(Apply(s, e), t)
  {
    assert ([e] + t)[1..] == t;
  }

  /** A submission is its first error update followed by the rest. */
  lemma SubmitTraceSplit(f: Form, validEmail: string -> bool,
                         upload: Outcome<UploadResponse>, post: Outcome<()>)
    ensures Validate(f, validEmail).Some? ==>
      SubmitTrace(f, validEmail, upload, post) == [ErrorSet(Validate(f, validEmail))] + []
    ensures Validate(f, validEmail).None? ==>
      SubmitTrace(f, validEmail, upload, post) == [ErrorSet(None)] + RequestTrace(f, upload, post)
  {
  }

  // ---------------------------------------------------------------------------
  // Properties of one submission

  /** A rejected form sets its message and makes no request and no navigation. */
  lemma RejectedFormSendsNothing(f: Form, validEmail: string -> bool,
                                 upload: Outcome<UploadResponse>, post: Outcome<()>)
    requires Validate(f, validEmail).Some?
    ensures var t := SubmitTrace(f, validEmail, upload, post);
      forall i :: 0 <= i < |t| ==> !t[i].IsRequest() && !t[i].NavigateTo?
  {
  }

  /** An empty name is reported first, whatever the other fields hold. */
  lemma EmptyNameStopsSubmission(f: Form, validEmail: string -> bool,
                                 upload: Outcome<UploadResponse>, post: Outcome<()>)
    requires f.fullName == ""
    ensures SubmitTrace(f, validEmail, upload, post) == [ErrorSet(Some(NameMissing))]
  {
  }

  /** The error is cleared before any request leaves, and only after validation passed. */
  lemma ResetPrecedesRequests(f: Form, validEmail: string -> bool,
                              upload: Outcome<UploadResponse>, post: Outcome<()>)
    ensures var t := SubmitTrace(f, validEmail, upload, post);
      forall i :: 0 <= i < |t| && t[i].IsRequest() ==>
        0 < i && t[0] == ErrorSet(None) && Validate(f, validEmail) == None
  {
  }

  /**
   * Navigation to the login page is the last effect, comes right after the
   * sign-up request, and happens exactly when every step succeeded.
   */
  lemma NavigationOnlyAfterSignUp(f: Form, validEmail: string -> bool,
                                  upload: Outcome<UploadResponse>, post: Outcome<()>)
    ensures var t := SubmitTrace(f, validEmail, upload, post);
      forall i :: 0 <= i < |t| && t[i].NavigateTo? ==>
        i == |t| - 1 && 0 < i && t[i - 1].SignUpRequest? && t[i].path == LoginPath
    ensures var t := SubmitTrace(f, validEmail, upload, post);
      t[|t| - 1].NavigateTo? <==>
        Validate(f, validEmail) == None && (f.hasProfilePic ==> upload.Resolved?) && post.Resolved?
  {
  }

  /** Whether a trace contains the sign-up request. */
  predicate SendsSignUp(t: seq<Event>) {
    exists j :: 0 <= j < |t| && t[j].SignUpRequest?
  }

  /**
   * The photo is uploaded exactly when validation passed and a photo is
   * selected, always before the sign-up request; the sign-up request is sent
   * exactly when validation passed and the upload, if any, resolved.
   */
  lemma UploadBeforeSignUp(f: Form, validEmail: string -> bool,
                           upload: Outcome<UploadResponse>, post: Outcome<()>)
    ensures var t := SubmitTrace(f, validEmail, upload, post);
      (exists i :: 0 <= i < |t| && t[i].UploadRequest?) <==>
        Validate(f, validEmail) == None && f.hasProfilePic
    ensures var t := SubmitTrace(f, validEmail, upload, post);
      forall i, j :: 0 <= i < |t| && 0 <= j < |t| && t[i].UploadRequest? && t[j].SignUpRequest? ==> i < j
    ensures SendsSignUp(SubmitTrace(f, validEmail, upload, post)) <==>
      Validate(f, validEmail) == None && (f.hasProfilePic ==> upload.Resolved?)
  {
    var t := SubmitTrace(f, validEmail, upload, post);
    if Validate(f, validEmail) == None {
      if f.hasProfilePic {
        assert t[1].UploadRequest?;
        if upload.Resolved? {
          assert t[2].SignUpRequest?;
        }
      } else {
        assert t[1].SignUpRequest?;
      }
    }
  }

  /** What the sign-up request carries whenever it is sent. */
  lemma SignUpRequestBody(f: Form, validEmail: string -> bool,
                          upload: Outcome<UploadResponse>, post: Outcome<()>)
    ensures var t := SubmitTrace(f, validEmail, upload, post);
      forall i :: 0 <= i < |t| && t[i].SignUpRequest? ==>
        var p := t[i].body;
        && t[i].path == SignUpPath
        && p.name == f.fullName && p.email == f.email && p.password == f.password
        && (p.adminJoinCode != "" <==> f.isAdmin)
        && (f.isAdmin ==> p.adminJoinCode == f.adminInviteToken)
        && (!f.hasProfilePic ==> p.profileImageUrl == "")
        && (f.hasProfilePic ==> upload.Resolved? && p.profileImageUrl == UploadedImageUrl(upload.value))
  {
  }

  /**
   * The page state after one submission: the validation message, the message
   * of the call that failed, or no error and the login page.
   */
  lemma SubmitOutcome(s: PageState, f: Form, validEmail: string -> bool,
                      upload: Outcome<UploadResponse>, post: Outcome<()>)
    ensures var r := Replay(s, SubmitTrace(f, validEmail, upload, post));
      && (Validate(f, validEmail).Some? ==>
            r == PageState(Validate(f, validEmail), s.navigatedTo))
      && (Validate(f, validEmail) == None && f.hasProfilePic && upload.Rejected? ==>
            r == PageState(Some(ErrorText(upload.thrown.message)), s.navigatedTo))
      && (Validate(f, validEmail) == None && (f.hasProfilePic ==> upload.Resolved?) && post.Rejected? ==>
            r == PageState(Some(ErrorText(post.thrown.message)), s.navigatedTo))
      && (Validate(f, validEmail) == None && (f.hasProfilePic ==> upload.Resolved?) && post.Resolved? ==>
            r == PageState(None, Some(LoginPath)))
  {
    if Validate(f, validEmail) == None {
      var s0 := s.(error := None);
      ReplayCons(s, ErrorSet(None), RequestTrace(f, upload, post));
      var url := "";
      if f.hasProfilePic {
        ReplayCons(s0, UploadRequest, RequestTrace(f, upload, post)[1..]);
        assert RequestTrace(f, upload, post) == [UploadRequest] + RequestTrace(f, upload, post)[1..];
        match upload
        case Rejected(th) =>
          ReplayCons(s0, ErrorSet(Some(ErrorText(th.message))), []);
          return;
        case Resolved(res) =>
          url := UploadedImageUrl(res);
      }
      var pt := PostTrace(f, url, post);
      assert Replay(s, SubmitTrace(f, validEmail, upload, post)) == Replay(s0, pt);
      ReplayCons(s0, pt[0], [pt[1]]);
      ReplayCons(Apply(s0, pt[0]), pt[1], []);
      assert pt == [pt[0]] + [pt[1]];
    }
  }

  /**
   * A submission always overwrites the displayed error, so an earlier message
   * never survives it; an error is shown exactly when the page did not navigate,
   * and a shown error is never the empty string.
   */
  lemma ErrorReflectsLatestSubmit(s1: PageState, s2: PageState, f: Form, validEmail: string -> bool,
                                  upload: Outcome<UploadResponse>, post: Outcome<()>)
    ensures var t := SubmitTrace(f, validEmail, upload, post);
      Replay(s1, t).error == Replay(s2, t).error
    ensures var t := SubmitTrace(f, validEmail, upload, post);
      Replay(s1, t).error == None <==> t[|t| - 1].NavigateTo?
    ensures var t := SubmitTrace(f, validEmail, upload, post);
      Replay(s1, t).error.Some? ==> Replay(s1, t).error.value != ""
  {
    SubmitOutcome(s1, f, validEmail, upload, post);
    SubmitOutcome(s2, f, validEmail, upload, post);
    NavigationOnlyAfterSignUp(f, validEmail, upload, post);
  }
}
