/** The object-removal page: the checks made before the upload (one object
    name, an image file), the form it sends, and how the page state
    (`content`, `isLoading`, the toasts) changes around the request. */
module RemoveObject {
  import opened Wrappers
  import opened Js
  import opened Toasts

  const OneObjectMessage := "Please enter only one object name"
  const InvalidImageMessage := "Please upload a valid image file."
  const NoSuccessMessage := "Something went wrong"
  const GenericErrorMessage := "Error occurred"

  /** A chosen file: only its MIME type matters to the checks. */
  datatype FileInput = FileInput(name: string, mimeType: string)

  /** The multipart form: the image and the trimmed object name. */
  datatype RemovalForm = RemovalForm(image: FileInput, objectName: string)

  /** The POST's outcome: a JSON reply, or an axios error carrying the
      server's message (if any). */
  datatype PostOutcome =
    | Responded(success: bool, content: string, message: Option<string>)
    | AxiosFailed(serverMessage: Option<string>)

  /** `object.trim().split(" ").length > 1`. A refused name still has at
      least three characters once trimmed: a character, a space, a character. */
  predicate NamesSeveralObjects(name: string)
    ensures NamesSeveralObjects(name) ==> |Trim(name)| >= 3
  {
    var t := Trim(name);
    SplitSpacesMany(t);
    assert |SplitSpaces(t)| > 1 ==> |t| >= 3 by {
      if |SplitSpaces(t)| > 1 {
        var k :| 0 <= k < |t| && t[k] == ' ';
        assert k != 0 && k != |t| - 1;
      }
    }
    |SplitSpaces(t)| > 1
  }

  /** `input instanceof File && input.type.startsWith("image/")`: a file
      whose type is "image/" followed by anything. */
  predicate IsImageFile(input: Option<FileInput>)
    ensures IsImageFile(input) <==>
      input.Some? && |input.value.mimeType| >= 6 && input.value.mimeType == "image/" + input.value.mimeType[6..]
  {
    input.Some? && StartsWith(input.value.mimeType, "image/")
  }

  /** A name is refused exactly when a space is left inside it once trimmed. */
  lemma SeveralObjectsIffInnerSpace(name: string)
    ensures NamesSeveralObjects(name) <==> ' ' in Trim(name)
  {
    SplitSpacesMany(Trim(name));
  }

  /** Padding is ignored: leading and trailing white space never makes a
      name pass or fail. */
  lemma PaddingIgnored(lead: string, name: string, trail: string)
    requires AllTrimmable(lead) && AllTrimmable(trail)
    ensures NamesSeveralObjects(lead + name + trail) <==> NamesSeveralObjects(name)
  {
    TrimIgnoresPadding(lead, name, trail);
  }

  /** A name made only of white space, the empty name included, passes:
      splitting "" gives a single piece. */
  lemma BlankNamePasses(name: string)
    requires AllTrimmable(name)
    ensures !NamesSeveralObjects(name)
  {
    assert Trim(name) == [];
    SeveralObjectsIffInnerSpace(name);
  }

  /** A name with clean ends is refused exactly when it holds a space. */
  lemma CleanNameRefusedIffSpace(name: string)
    requires name == [] || (!IsTrimmable(name[0]) && !IsTrimmable(name[|name| - 1]))
    ensures NamesSeveralObjects(name) <==> ' ' in name
  {
    TrimKeepsCleanString(name);
    assert Trim(name) == name;
    SeveralObjectsIffInnerSpace(name);
  }

  /** Two words around a space, such as "cup spoon", are refused. */
  lemma WordsAroundSpaceRefused(first: string, second: string)
    requires first != [] && !IsTrimmable(first[0])
    requires second != [] && !IsTrimmable(second[|second| - 1])
    ensures NamesSeveralObjects(first + " " + second)
  {
    var name := first + " " + second;
    assert name[0] == first[0] && name[|name| - 1] == second[|second| - 1];
    assert name[|first|] == ' ';
    CleanNameRefusedIffSpace(name);
  }

  /** Only the space character separates names: two words around a tab,
      such as "cup\tspoon", pass. */
  lemma WordsAroundTabPass(first: string, second: string)
    requires first != [] && !IsTrimmable(first[0]) && ' ' !in first
    requires second != [] && !IsTrimmable(second[|second| - 1]) && ' ' !in second
    ensures !NamesSeveralObjects(first + "\t" + second)
  {
    var name := first + "\t" + second;
    assert name[0] == first[0] && name[|name| - 1] == second[|second| - 1];
    assert forall k :: 0 <= k < |name| ==> name[k] != ' ' by {
      forall k | 0 <= k < |name| ensures name[k] != ' ' {
        if k < |first| { assert name[k] == first[k]; }
        else if k > |first| { assert name[k] == second[k - |first| - 1]; }
      }
    }
    CleanNameRefusedIffSpace(name);
  }

  /** The message of the first failing check, the name check first. */
  function SubmitRejection(name: string, input: Option<FileInput>): (r: Option<string>)
    ensures NamesSeveralObjects(name) ==> r == Some(OneObjectMessage)
    ensures !NamesSeveralObjects(name) && !IsImageFile(input) ==> r == Some(InvalidImageMessage)
    ensures r.None? <==> !NamesSeveralObjects(name) && IsImageFile(input)
  {
    if NamesSeveralObjects(name) then Some(OneObjectMessage)
    else if !IsImageFile(input) then Some(InvalidImageMessage)
    else None
  }

  /** The error toast after a request that did not succeed: a reply without
      `success` raises `message || "Something went wrong"`, which is then
      shown; an axios error shows the server's message. */
  function FailureText(outcome: PostOutcome): (t: string)
    requires !(outcome.Responded? && outcome.success)
    ensures t != ""
    ensures outcome.Responded? && !Truthy(outcome.message) ==> t == NoSuccessMessage
    ensures outcome.AxiosFailed? && !Truthy(outcome.serverMessage) ==> t == GenericErrorMessage
  {
    match outcome
    case Responded(_, _, message) => if Truthy(message) then message.value else NoSuccessMessage
    case AxiosFailed(serverMessage) => if Truthy(serverMessage) then serverMessage.value else GenericErrorMessage
  }

  class RemoveObjectPage {
    /** `content`: false (None) until a removal succeeds. */
    var content: Option<string>
    var isLoading: bool
    var toasts: seq<Toast>

    constructor ()
      ensures content.None? && !isLoading && toasts == []
    {
      content := None;
      isLoading := false;
      toasts := [];
    }

    /** The inner try/finally: the request, and the spinner cleared whatever
        its outcome. Content changes only on success. */
    method Send(form: RemovalForm, outcome: PostOutcome)
      modifies this
      ensures !isLoading
      ensures outcome.Responded? && outcome.success ==>
        content == Some(outcome.content) && toasts == old(toasts)
      ensures !(outcome.Responded? && outcome.success) ==>
        content == old(content) && toasts == old(toasts) + [ErrorToast(FailureText(outcome))]
    {
      if outcome.Responded? && outcome.success {
        content := Some(outcome.content);
      } else {
        toasts := toasts + [ErrorToast(FailureText(outcome))];
      }
      isLoading := false;
    }

    /** onSubmitHandler as written: a refused submission is caught by the
        outer handler, which does not clear the spinner. */
    method OnSubmitAsWritten(name: string, input: Option<FileInput>, outcome: PostOutcome)
      returns (sent: Option<RemovalForm>)
      modifies this
      ensures SubmitRejection(name, input).Some? ==>
        sent.None? && isLoading && content == old(content)
        && toasts == old(toasts) + [ErrorToast(SubmitRejection(name, input).value)]
      ensures SubmitRejection(name, input).None? ==>
        input.Some? && sent == Some(RemovalForm(input.value, Trim(name))) && !isLoading
      ensures SubmitRejection(name, input).None? && outcome.Responded? && outcome.success ==>
        content == Some(outcome.content) && toasts == old(toasts)
      ensures SubmitRejection(name, input).None? && !(outcome.Responded? && outcome.success) ==>
        content == old(content) && toasts == old(toasts) + [ErrorToast(FailureText(outcome))]
    {
      isLoading := true;
      var rejection := SubmitRejection(name, input);
      if rejection.Some? {
        toasts := toasts + [ErrorToast(rejection.value)];
        sent := None;
      } else {
        var form := RemovalForm(input.value, Trim(name));
        Send(form, outcome);
        sent := Some(form);
      }
    }

    /** onSubmitHandler with the spinner cleared on every path. */
    method OnSubmit(name: string, input: Option<FileInput>, outcome: PostOutcome)
      returns (sent: Option<RemovalForm>)
      modifies this
      ensures !isLoading
      ensures SubmitRejection(name, input).Some? ==>
        sent.None? && content == old(content)
        && toasts == old(toasts) + [ErrorToast(SubmitRejection(name, input).value)]
      ensures SubmitRejection(name, input).None? ==>
        input.Some? && sent == Some(RemovalForm(input.value, Trim(name)))
      ensures SubmitRejection(name, input).None? && outcome.Responded? && outcome.success ==>
        content == Some(outcome.content) && toasts == old(toasts)
      ensures SubmitRejection(name, input).None? && !(outcome.Responded? && outcome.success) ==>
        content == old(content) && toasts == old(toasts) + [ErrorToast(FailureText(outcome))]
    {
      isLoading := true;
      var rejection := SubmitRejection(name, input);
      if rejection.Some? {
        toasts := toasts + [ErrorToast(rejection.value)];
        sent := None;
        isLoading := false;
      } else {
        var form := RemovalForm(input.value, Trim(name));
        Send(form, outcome);
        sent := Some(form);
      }
    }
  }

  /** Submitting a name of several words with a valid image (for instance
      "cup spoon", see WordsAroundSpaceRefused) leaves the page loading, and
      the submit button disabled, under the handler as written, and not
      under the corrected one. */
  method SpinnerAfterRejectedName(name: string, image: Option<FileInput>, outcome: PostOutcome)
    returns (asWritten: bool, corrected: bool)
    requires NamesSeveralObjects(name) && IsImageFile(image)
    ensures asWritten && !corrected
  {
    var page := new RemoveObjectPage();
    var sent := page.OnSubmitAsWritten(name, image, outcome);
    asWritten := page.isLoading;
    var fixedPage := new RemoveObjectPage();
    sent := fixedPage.OnSubmit(name, image, outcome);
    corrected := fixedPage.isLoading;
  }
}
