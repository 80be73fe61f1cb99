/**
  The upload screen of app/upload.tsx: the selected-image slot that the media
  picker fills, the upload request built from it, the upload mutation's
  status, the alerts the screen raises and the navigation its success alert
  offers. The permission prompt, the picker, the network and the user's press
  on an alert's OK button arrive as method inputs.
 */
module Upload {
  import opened Wrappers
  import opened Api

  /** A picked file as the picker reports it. */
  datatype Asset = Asset(uri: string)

  /** What the image-library picker resolves to; `assets` may be missing. */
  datatype PickerResult = PickerResult(canceled: bool, assets: Option<seq<Asset>>)

  /** The single multipart field of an upload request. */
  datatype FilePart = FilePart(field: string, uri: string, name: string, mimeType: string)

  /** The status of the upload mutation. */
  datatype MutationStatus =
    | Idle
    | Pending
    | Succeeded(response: UploadResponse)
    | Failed(message: Option<string>)

  /**
    How an upload request ended: a successful (2xx) answer from the service, or
    a rejected request. A rejected request is one with no answer, one that could
    not be sent, or one answered with an error status; the HTTP client raises
    each of these as an error carrying a message.
   */
  datatype ServerOutcome = Responded(response: UploadResponse) | RequestFailed(message: Option<string>)

  /** A modal alert: its title, its message and the route its OK button pushes, if any. */
  datatype Alert = Alert(title: string, message: string, onOk: Option<string>)

  const PermissionAlert := Alert("Permission Required", "Permission to access camera roll is required!", None)
  const NoImageAlert := Alert("No Image Selected", "Please select an image to upload.", None)
  const SuccessAlert := Alert("Success", "Image uploaded successfully!", Some("/"))
  const RejectedAlert := Alert("Upload Failed", "The image could not be uploaded.", None)

  /** JavaScript truthiness of a `string | null`: the empty string counts as nothing. */
  predicate Truthy(s: Option<string>)
  {
    s.Some? && s.value != ""
  }

  /** A field the upload mutation may be handed: the fixed field, file name and type, and a real URI. */
  predicate WellFormedPart(p: FilePart)
  {
    p.field == "file" && p.name == "cat.jpg" && p.mimeType == "image/jpeg" && p.uri != ""
  }

  /** The URI the picker hands back, when it was not canceled and returned at least one asset. */
  function PickedUri(result: PickerResult): (r: Option<string>)
    ensures r.Some? <==> !result.canceled && result.assets.Some? && |result.assets.value| > 0
    ensures r.Some? ==> r.value == result.assets.value[0].uri
  {
    if !result.canceled && result.assets.Some? && |result.assets.value| > 0
    then Some(result.assets.value[0].uri)
    else None
  }

  /** The multipart field `uploadImage` submits for a selection, or None when it refuses. */
  function UploadRequest(selected: Option<string>): (r: Option<FilePart>)
    ensures r.None? <==> !Truthy(selected)
    ensures r.Some? ==> WellFormedPart(r.value) && r.value.uri == selected.value
  {
    if !Truthy(selected) then None
    else Some(FilePart("file", selected.value, "cat.jpg", "image/jpeg"))
  }

  /** The alert raised when the service answered the upload. */
  function ResponseAlert(response: UploadResponse): (a: Alert)
    ensures response.approved != 0 ==> a == SuccessAlert
    ensures response.approved == 0 ==> a == RejectedAlert
    ensures a.onOk == Some("/") <==> response.approved != 0
    ensures a.onOk.None? <==> response.approved == 0
    ensures response.approved == 0 ==> a.title == "Upload Failed"
  {
    if response.approved != 0 then SuccessAlert else RejectedAlert
  }

  /** The upload button: whether it ignores presses, and whether it shows a spinner. */
  datatype UploadButton = UploadButton(disabled: bool, spinner: bool)

  /** What the upload screen shows besides the always-present pick button. */
  datatype UploadView = UploadView(errorText: Option<string>, preview: Option<string>, uploadButton: Option<UploadButton>)

  /** The error line: present only for a failed mutation, with a fallback for a missing or empty message. */
  function ErrorText(status: MutationStatus): (r: Option<string>)
    ensures r.Some? <==> status.Failed?
    ensures status.Failed? && Truthy(status.message) ==> r == Some("Error: " + status.message.value)
    ensures status.Failed? && !Truthy(status.message) ==> r == Some("Error: Unknown error")
  {
    match status
    case Failed(message) =>
      assert "Error: " + "Unknown error" == "Error: Unknown error";
      Some("Error: " + (if Truthy(message) then message.value else "Unknown error"))
    case _ => None
  }

  /** The render of the upload screen for a selection and a mutation status. */
  function RenderUpload(selected: Option<string>, status: MutationStatus): (v: UploadView)
    ensures v.errorText.Some? <==> status.Failed?
    ensures v.errorText == ErrorText(status)
    ensures v.preview.Some? <==> Truthy(selected)
    ensures v.preview.Some? ==> v.preview == selected
    ensures v.uploadButton.Some? <==> Truthy(selected)
    ensures v.uploadButton.Some? ==> (v.uploadButton.value.disabled <==> status.Pending?)
    ensures v.uploadButton.Some? ==> (v.uploadButton.value.spinner <==> status.Pending?)
  {
    var button := UploadButton(status.Pending?, status.Pending?);
    UploadView(ErrorText(status),
               if Truthy(selected) then selected else None,
               if Truthy(selected) then Some(button) else None)
  }

  /** The upload button is offered exactly when pressing it submits a request. */
  lemma UploadButtonMeansRequest(selected: Option<string>, status: MutationStatus)
    ensures RenderUpload(selected, status).uploadButton.Some? <==> UploadRequest(selected).Some?
  {
  }

  /** At least one answer approved the image. */
  ghost predicate AnyApproved(responses: seq<UploadResponse>)
  {
    exists i :: 0 <= i < |responses| && responses[i].approved != 0
  }

  /** The state of one upload screen. */
  class UploadScreen {
    var selected: Option<string>
    var status: MutationStatus
    /** The alert on display, if any. */
    var alert: Option<Alert>
    /** How many times the picker was opened. */
    var pickerLaunches: nat
    /** Every multipart field handed to the upload mutation, oldest first. */
    var submitted: seq<FilePart>
    /** Every route pushed onto the router, oldest first. */
    var routes: seq<string>
    /** Every answer the service gave to an upload. */
    ghost var responses: seq<UploadResponse>

    ghost predicate Valid()
      reads this
    {
      (forall i :: 0 <= i < |submitted| ==> WellFormedPart(submitted[i])) &&
      (!status.Idle? ==> submitted != []) &&
      (alert.Some? && alert.value.onOk.Some? ==> alert.value.onOk.value == "/" && AnyApproved(responses)) &&
      (forall i :: 0 <= i < |routes| ==> routes[i] == "/") &&
      (routes != [] ==> AnyApproved(responses))
    }

    constructor ()
      ensures Valid()
      ensures selected == None && status == Idle && alert == None
      ensures pickerLaunches == 0 && submitted == [] && routes == [] && responses == []
    {
      selected := None;
      status := Idle;
      alert := None;
      pickerLaunches := 0;
      submitted := [];
      routes := [];
      responses := [];
    }

    /**
      `pickImage`: without permission, raise the permission alert and keep
      everything else; with it, open the picker and take the first asset's URI
      unless the pick was canceled or returned nothing.
     */
    method Pick(granted: bool, result: PickerResult)
      requires Valid()
      modifies this
      ensures Valid()
      ensures !granted ==> selected == old(selected) && alert == Some(PermissionAlert) &&
                           pickerLaunches == old(pickerLaunches)
      ensures granted ==> alert == old(alert) && pickerLaunches == old(pickerLaunches) + 1
      ensures granted && PickedUri(result).Some? ==> selected == PickedUri(result)
      ensures granted && PickedUri(result).None? ==> selected == old(selected)
      ensures status == old(status) && submitted == old(submitted) && routes == old(routes)
      ensures responses == old(responses)
    {
      if !granted {
        alert := Some(PermissionAlert);
        return;
      }
      pickerLaunches := pickerLaunches + 1;
      if !result.canceled && result.assets.Some? && |result.assets.value| > 0 {
        selected := Some(result.assets.value[0].uri);
      }
    }

    /**
      `uploadImage`: with nothing (or an empty URI) selected, raise the
      "No Image Selected" alert and submit nothing; otherwise hand the one
      `file` field to the upload mutation, which becomes pending.
     */
    method Upload()
      requires Valid()
      modifies this
      ensures Valid()
      ensures !Truthy(old(selected)) ==>
        alert == Some(NoImageAlert) && status == old(status) && submitted == old(submitted)
      ensures Truthy(old(selected)) ==>
        alert == old(alert) && status == Pending &&
        submitted == old(submitted) + [UploadRequest(old(selected)).value]
      ensures selected == old(selected) && pickerLaunches == old(pickerLaunches) && routes == old(routes)
      ensures responses == old(responses)
    {
      if !Truthy(selected) {
        alert := Some(NoImageAlert);
        return;
      }
      var part := FilePart("file", selected.value, "cat.jpg", "image/jpeg");
      submitted := submitted + [part];
      status := Pending;
    }

    /**
      The pending upload ends: an answer makes the mutation succeed and raises
      the success alert when the image was approved and the failure alert when
      it was not; a rejected request (including an error status) makes the
      mutation fail.
     */
    method Settle(outcome: ServerOutcome)
      requires Valid()
      modifies this
      ensures Valid()
      ensures !old(status).Pending? ==> status == old(status) && alert == old(alert) && responses == old(responses)
      ensures old(status).Pending? && outcome.Responded? ==>
        status == Succeeded(outcome.response) && alert == Some(ResponseAlert(outcome.response)) &&
        responses == old(responses) + [outcome.response]
      ensures old(status).Pending? && outcome.RequestFailed? ==>
        status == Failed(outcome.message) && alert == old(alert) && responses == old(responses)
      ensures selected == old(selected) && pickerLaunches == old(pickerLaunches)
      ensures submitted == old(submitted) && routes == old(routes)
    {
      if !status.Pending? {
        return;
      }
      match outcome
      case Responded(response) =>
        ghost var before := responses;
        responses := responses + [response];
        assert responses[|responses| - 1] == response;
        if AnyApproved(before) {
          var i :| 0 <= i < |before| && before[i].approved != 0;
          assert responses[i] == before[i];
        }
        status := Succeeded(response);
        alert := Some(if response.approved != 0 then SuccessAlert else RejectedAlert);
      case RequestFailed(message) =>
        status := Failed(message);
    }

    /** The user presses OK on the alert on display; the success alert's OK goes to `/`. */
    method PressAlertOk()
      requires Valid()
      modifies this
      ensures Valid()
      ensures alert == None
      ensures old(alert).Some? && old(alert).value.onOk.Some? ==> routes == old(routes) + [old(alert).value.onOk.value]
      ensures old(alert).None? || old(alert).value.onOk.None? ==> routes == old(routes)
      ensures selected == old(selected) && status == old(status) && pickerLaunches == old(pickerLaunches)
      ensures submitted == old(submitted) && responses == old(responses)
    {
      if alert.Some? && alert.value.onOk.Some? {
        routes := routes + [alert.value.onOk.value];
      }
      alert := None;
    }
  }
}
