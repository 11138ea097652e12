/**
 * The sign-up page as an object: the form fields and the displayed error are
 * the component's state, `effects` records every effect the page has produced
 * (error updates, requests, navigation) in order, and HandleSubmit is the
 * submit handler, run step by step.
 */
module SignUpComponent {
  import opened Optional
  import opened SignUp

  class SignUpPage {
    var fullName: string
    var email: string
    var password: string
    var isAdmin: bool
    var adminInviteToken: string
    /** Whether a profile photo is selected; its bytes are not modelled. */
    var profilePic: bool

    var error: Option<string>
    var navigatedTo: Option<string>
    var effects: seq<Event>

    /** The form as the handler reads it. */
    function CurrentForm(): Form
      reads this
    {
      Form(fullName, email, password, isAdmin, adminInviteToken, profilePic)
    }

    /** The part of the page the effects act on. */
    function State(): PageState
      reads this
    {
      PageState(error, navigatedTo)
    }

    /** A freshly mounted page: empty fields, no photo, no error. */
    constructor ()
      ensures CurrentForm() == Form("", "", "", false, "", false)
      ensures State() == PageState(None, None) && effects == []
    {
      fullName, email, password := "", "", "";
      isAdmin, adminInviteToken, profilePic := false, "", false;
      error, navigatedTo, effects := None, None, [];
    }

    /** `setError(e)`. */
    method SetError(e: Option<string>)
      modifies this`error, this`effects
      ensures error == e
      ensures effects == old(effects) + [ErrorSet(e)]
    {
      error := e;
      effects := effects + [ErrorSet(e)];
    }

    /** An outgoing call: the image upload or the sign-up request. */
    method Send(request: Event)
      requires request.IsRequest()
      modifies this`effects
      ensures effects == old(effects) + [request]
    {
      effects := effects + [request];
    }

    /** `navigate(path)`. */
    method Navigate(path: string)
      modifies this`navigatedTo, this`effects
      ensures navigatedTo == Some(path)
      ensures effects == old(effects) + [NavigateTo(path)]
    {
      navigatedTo := Some(path);
      effects := effects + [NavigateTo(path)];
    }

    /**
     * The submit handler. `upload` and `post` are how the two awaited calls
     * settle if they are made; `posted` tells whether the sign-up request left.
     */
    method HandleSubmit(validEmail: string -> bool,
                        upload: Outcome<UploadResponse>, post: Outcome<()>)
      returns (posted: bool)
      modifies this`error, this`navigatedTo, this`effects
      ensures effects == old(effects) + SubmitTrace(CurrentForm(), validEmail, upload, post)
      ensures State() == Replay(old(State()), SubmitTrace(CurrentForm(), validEmail, upload, post))
      ensures posted <==>
        Validate(CurrentForm(), validEmail) == None && (profilePic ==> upload.Resolved?)
      ensures posted <==> SendsSignUp(SubmitTrace(CurrentForm(), validEmail, upload, post))
    {
      var form := CurrentForm();
      ghost var s0 := State();
      ghost var t := SubmitTrace(form, validEmail, upload, post);

      var invalid := Validate(form, validEmail);
      if invalid.Some? {
        SetError(invalid);
        assert CurrentForm() == form;
        assert effects == old(effects) + t && State() == Replay(s0, t) by {
          SubmitTraceSplit(form, validEmail, upload, post);
          ReplayCons(s0, ErrorSet(invalid), []);
        }
        assert !SendsSignUp(t) by {
          UploadBeforeSignUp(form, validEmail, upload, post);
        }
        return false;
      }

      SetError(None);
      assert CurrentForm() == form;
      posted := Requests(upload, post);
      assert CurrentForm() == form;
      assert effects == old(effects) + t && State() == Replay(s0, t) by {
        SubmitTraceSplit(form, validEmail, upload, post);
        ReplayCons(s0, ErrorSet(None), RequestTrace(form, upload, post));
      }
      assert posted <==> SendsSignUp(t) by {
        UploadBeforeSignUp(form, validEmail, upload, post);
      }
    }

    /** The `try`/`catch` block: the optional upload, then the sign-up request. */
    method Requests(upload: Outcome<UploadResponse>, post: Outcome<()>) returns (posted: bool)
      modifies this`error, this`navigatedTo, this`effects
      ensures effects == old(effects) + RequestTrace(CurrentForm(), upload, post)
      ensures State() == Replay(old(State()), RequestTrace(CurrentForm(), upload, post))
      ensures posted <==> (profilePic ==> upload.Resolved?)
    {
      var form := CurrentForm();
      ghost var s0 := State();
      var profileImageUrl := "";
      if profilePic {
        Send(UploadRequest);
        match upload {
          case Rejected(thrown) =>
            SetError(Some(ErrorText(thrown.message)));
            ReplayCons(s0, UploadRequest, [ErrorSet(Some(ErrorText(thrown.message)))]);
            ReplayCons(s0, ErrorSet(Some(ErrorText(thrown.message))), []);
            return false;
          case Resolved(response) =>
            profileImageUrl := UploadedImageUrl(response);
        }
        ReplayCons(s0, UploadRequest, PostTrace(form, profileImageUrl, post));
      }
      PostSignUp(form, profileImageUrl, post);
      posted := true;
    }

    /** The sign-up request, then navigation on success or the error message on failure. */
    method PostSignUp(form: Form, profileImageUrl: string, post: Outcome<()>)
      modifies this`error, this`navigatedTo, this`effects
      ensures effects == old(effects) + PostTrace(form, profileImageUrl, post)
      ensures State() == Replay(old(State()), PostTrace(form, profileImageUrl, post))
    {
      ghost var s0 := State();
      var request := SignUpRequest(SignUpPath, BuildPayload(form, profileImageUrl));
      Send(request);
      match post {
        case Rejected(thrown) =>
          var shown := Some(ErrorText(thrown.message));
          SetError(shown);
          ReplayCons(s0, request, [ErrorSet(shown)]);
          ReplayCons(s0, ErrorSet(shown), []);
        case Resolved(_) =>
          Navigate(LoginPath);
          ReplayCons(s0, request, [NavigateTo(LoginPath)]);
          ReplayCons(s0, NavigateTo(LoginPath), []);
      }
    }
  }
}
