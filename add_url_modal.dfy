/**
 * The add-URL dialog: a text field, a loading flag and an error line. Submitting a
 * non-blank value sends the trimmed value to the create endpoint; success clears the
 * field and notifies the page, failure shows a fixed message and keeps the input.
 * While a submission is pending the field and both close controls are disabled.
 */
module AddURLModal {
  import opened Wrappers
  import opened Strings
  import opened Api

  const AddFailedMessage := "Failed to add URL. Please check the URL and try again."

  class AddUrlModal {
    var url: string
    var isLoading: bool
    var error: Option<string>
    /** The requests this dialog sent to the create endpoint. */
    var sent: seq<ApiCall>
    /** How often the page's `onSuccess` and `onClose` callbacks were called. */
    var successCalls: nat
    var closeCalls: nat

    constructor ()
      ensures url == "" && !isLoading && error == None && sent == []
      ensures successCalls == 0 && closeCalls == 0
    {
      url := "";
      isLoading := false;
      error := None;
      sent := [];
      successCalls := 0;
      closeCalls := 0;
    }

    /** The submit button is disabled while loading or while the field is blank. */
    function SubmitDisabled(): (b: bool)
      reads this
      ensures b <==> isLoading || AllSpace(url)
    {
      isLoading || Trim(url) == ""
    }

    /** Typing; a disabled field (while loading) receives no input. */
    method HandleChange(value: string)
      modifies this
      ensures isLoading ==> url == old(url)
      ensures !isLoading ==> url == value
      ensures isLoading == old(isLoading) && error == old(error) && sent == old(sent)
      ensures successCalls == old(successCalls) && closeCalls == old(closeCalls)
    {
      if !isLoading {
        url := value;
      }
    }

    /** The state a submission enters once its request is sent. */
    method StartRequest(value: string)
      modifies this
      ensures isLoading && error == None && sent == old(sent) + [CreateURL(value)]
      ensures url == old(url) && successCalls == old(successCalls) && closeCalls == old(closeCalls)
    {
      isLoading := true;
      error := None;
      sent := sent + [CreateURL(value)];
    }

    /** Submission up to the request: a blank field does nothing. */
    method BeginSubmit() returns (started: bool)
      modifies this
      ensures url == old(url) && successCalls == old(successCalls) && closeCalls == old(closeCalls)
      ensures started <==> !AllSpace(old(url))
      ensures started ==>
        isLoading && error == None && sent == old(sent) + [CreateURL(Trim(old(url)))]
      ensures !started ==> isLoading == old(isLoading) && error == old(error) && sent == old(sent)
    {
      var trimmed := Trim(url);
      started := trimmed != [];
      if started {
        StartRequest(trimmed);
      }
    }

    /** Submission after the request settles; loading ends either way. */
    method FinishSubmit(outcome: Result<(), ApiError>)
      modifies this
      ensures !isLoading && sent == old(sent) && closeCalls == old(closeCalls)
      ensures outcome.Ok? ==> url == "" && error == old(error) && successCalls == old(successCalls) + 1
      ensures outcome.Err? ==>
        url == old(url) && error == Some(AddFailedMessage) && successCalls == old(successCalls)
    {
      if outcome.Ok? {
        url := "";
        successCalls := successCalls + 1;
      } else {
        error := Some(AddFailedMessage);
      }
      isLoading := false;
    }

    /** `handleSubmit` with the create request's outcome. */
    method HandleSubmit(outcome: Result<(), ApiError>)
      modifies this
      ensures AllSpace(old(url)) ==>
        url == old(url) && isLoading == old(isLoading) && error == old(error) &&
        sent == old(sent) && successCalls == old(successCalls)
      ensures !AllSpace(old(url)) ==> !isLoading && sent == old(sent) + [CreateURL(Trim(old(url)))]
      ensures !AllSpace(old(url)) && outcome.Ok? ==>
        url == "" && error == None && successCalls == old(successCalls) + 1
      ensures !AllSpace(old(url)) && outcome.Err? ==>
        url == old(url) && error == Some(AddFailedMessage) && successCalls == old(successCalls)
      ensures closeCalls == old(closeCalls)
    {
      var started := BeginSubmit();
      if started {
        FinishSubmit(outcome);
      }
    }

    /** Close and Cancel: ignored while loading; otherwise reset the form and notify the page. */
    method HandleClose()
      modifies this
      ensures isLoading == old(isLoading) && sent == old(sent) && successCalls == old(successCalls)
      ensures old(isLoading) ==> url == old(url) && error == old(error) && closeCalls == old(closeCalls)
      ensures !old(isLoading) ==> url == "" && error == None && closeCalls == old(closeCalls) + 1
    {
      if !isLoading {
        url := "";
        error := None;
        closeCalls := closeCalls + 1;
      }
    }
  }

  /** What a padded entry sends: the text between the blanks, exactly. */
  lemma SubmittedUrlIsUnpadded(pre: string, core: string, post: string)
    requires AllSpace(pre) && AllSpace(post) && core != [] && Tight(core)
    ensures Trim(pre + core + post) == core
    ensures !AllSpace(pre + core + post)
  {
    TrimPadded(pre, core, post);
  }
}
