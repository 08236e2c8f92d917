/** The upload form: controlled fields, the multipart body a submit sends
    (with a recipient only for admins who picked one other than "all"),
    and the reset after a successful upload. */
module UploadForm {
  import opened Common
  import opened Sessions

  datatype UploadFormState = UploadFormState(
    title: string, description: string, category: string, recipientId: string, video: Option<VideoFile>)

  const InitialForm := UploadFormState("", "", "entertainment", "", None)

  const UploadPath := "/videos/upload"
  const UploadedMessage := "Video uploaded successfully!"

  datatype TextField = TitleField | DescriptionField | CategoryField | RecipientField

  /** A change event: a text or select input, or the file input with the
      list of files the browser reports. */
  datatype ChangeEvent = TextInput(field: TextField, value: string) | FileInput(files: seq<VideoFile>)

  /** `handleChange`: the named field takes the value; the file input
      stores the first file, or nothing when the list is empty. */
  function WithChange(form: UploadFormState, e: ChangeEvent): (r: UploadFormState)
    ensures e.FileInput? ==> r == form.(video := if |e.files| > 0 then Some(e.files[0]) else None)
    ensures e.TextInput? ==> r.video == form.video
    ensures e.TextInput? ==> (r.title == if e.field == TitleField then e.value else form.title)
    ensures e.TextInput? ==> (r.description == if e.field == DescriptionField then e.value else form.description)
    ensures e.TextInput? ==> (r.category == if e.field == CategoryField then e.value else form.category)
    ensures e.TextInput? ==> (r.recipientId == if e.field == RecipientField then e.value else form.recipientId)
  {
    match e
    case FileInput(files) => form.(video := if |files| > 0 then Some(files[0]) else None)
    case TextInput(field, value) =>
      match field
      case TitleField => form.(title := value)
      case DescriptionField => form.(description := value)
      case CategoryField => form.(category := value)
      case RecipientField => form.(recipientId := value)
  }

  function EntryNames(entries: seq<FormEntry>): (names: seq<string>)
    ensures |names| == |entries|
    ensures forall k :: 0 <= k < |entries| ==> names[k] == entries[k].name
  {
    if entries == [] then [] else [entries[0].name] + EntryNames(entries[1..])
  }

  /** The multipart body of the upload, field by field. */
  function UploadEntries(form: UploadFormState, isAdmin: bool): (entries: seq<FormEntry>)
    requires form.video.Some?
    ensures |entries| == if isAdmin && form.recipientId != "all" then 5 else 4
    ensures entries[0] == FormEntry("title", Text(form.title))
    ensures entries[1] == FormEntry("description", Text(form.description))
    ensures entries[2] == FormEntry("category", Text(form.category))
    ensures isAdmin && form.recipientId != "all" ==> entries[3] == FormEntry("recipient_id", Text(form.recipientId))
    ensures entries[|entries| - 1] == FormEntry("video", FileValue(form.video.value))
  {
    [FormEntry("title", Text(form.title)),
     FormEntry("description", Text(form.description)),
     FormEntry("category", Text(form.category))]
    + (if isAdmin && form.recipientId != "all" then [FormEntry("recipient_id", Text(form.recipientId))] else [])
    + [FormEntry("video", FileValue(form.video.value))]
  }

  /** The fields go out in the order title, description, category, the
      optional recipient, video; the recipient is there exactly when an
      admin has not chosen "all", so an admin's untouched "" is sent. */
  lemma UploadEntriesShape(form: UploadFormState, isAdmin: bool)
    requires form.video.Some?
    ensures EntryNames(UploadEntries(form, isAdmin)) ==
              ["title", "description", "category"] +
              (if isAdmin && form.recipientId != "all" then ["recipient_id"] else []) + ["video"]
    ensures ("recipient_id" in EntryNames(UploadEntries(form, isAdmin))) <==> isAdmin && form.recipientId != "all"
    ensures UploadEntries(form, isAdmin)[|UploadEntries(form, isAdmin)| - 1] == FormEntry("video", FileValue(form.video.value))
  {
    var names := EntryNames(UploadEntries(form, isAdmin));
    assert names[0] == "title" && names[1] == "description" && names[2] == "category";
    if isAdmin && form.recipientId != "all" {
      assert names[3] == "recipient_id" && names[4] == "video" && |names| == 5;
    } else {
      assert names[3] == "video" && |names| == 4;
      assert forall k :: 0 <= k < 4 ==> names[k] != "recipient_id";
    }
  }

  class UploadVideoForm {
    var form: UploadFormState
    var users: seq<User>
    var loading: bool
    var successMsg: string
    const isAdmin: bool

    constructor (isAdmin: bool)
      ensures this.isAdmin == isAdmin
      ensures form == InitialForm && users == [] && !loading && successMsg == ""
    {
      this.isAdmin := isAdmin;
      form, users, loading, successMsg := InitialForm, [], false, "";
    }

    /** The mount effect: only an admin fetches the recipient list; a
        failed fetch leaves it as it was. */
    method LoadRecipients(resp: Response<seq<User>>) returns (req: Option<Request>)
      modifies this`users
      ensures req.Some? <==> isAdmin
      ensures req.Some? ==> req.value == Request(Get, "/users", NoBody)
      ensures users == if isAdmin && resp.Success? then resp.data else old(users)
    {
      req := None;
      if isAdmin {
        req := Some(Request(Get, "/users", NoBody));
        if resp.Success? {
          users := resp.data;
        }
      }
    }

    method HandleChange(e: ChangeEvent)
      modifies this`form
      ensures form == WithChange(old(form), e)
    {
      form := WithChange(form, e);
    }

    /** The part of `handleSubmit` before the request: with no video chosen
        nothing is sent and nothing changes; otherwise the body is built by
        successive appends and `loading` is set. */
    method BeginSubmit() returns (req: Option<Request>)
      modifies this`loading
      ensures form.video.None? ==> req.None? && loading == old(loading)
      ensures form.video.Some? ==> req == Some(Request(Post, UploadPath, Multipart(UploadEntries(form, isAdmin))))
      ensures form.video.Some? ==> loading
    {
      if form.video.None? {
        req := None;
        return;
      }
      var data: seq<FormEntry> := [];
      data := data + [FormEntry("title", Text(form.title))];
      data := data + [FormEntry("description", Text(form.description))];
      data := data + [FormEntry("category", Text(form.category))];
      if isAdmin && form.recipientId != "all" {
        data := data + [FormEntry("recipient_id", Text(form.recipientId))];
      }
      data := data + [FormEntry("video", FileValue(form.video.value))];
      assert data == UploadEntries(form, isAdmin);
      loading := true;
      req := Some(Request(Post, UploadPath, Multipart(data)));
    }

    /** The part after the request settles: success shows the message and
        resets the form; failure keeps the form; `loading` ends false. */
    method Settle(resp: Response<Unit>)
      modifies this`form, this`successMsg, this`loading
      ensures !loading
      ensures resp.Success? ==> successMsg == UploadedMessage && form == InitialForm
      ensures resp.Failure? ==> successMsg == old(successMsg) && form == old(form)
    {
      if resp.Success? {
        successMsg := UploadedMessage;
        form := InitialForm;
      }
      loading := false;
    }

    /** The whole `handleSubmit`. */
    method HandleSubmit(resp: Response<Unit>) returns (req: Option<Request>)
      modifies this`form, this`successMsg, this`loading
      ensures old(form).video.None? ==> req.None? && unchanged(this)
      ensures old(form).video.Some? ==>
                req == Some(Request(Post, UploadPath, Multipart(UploadEntries(old(form), isAdmin)))) && !loading
      ensures old(form).video.Some? && resp.Success? ==> successMsg == UploadedMessage && form == InitialForm
      ensures old(form).video.Some? && resp.Failure? ==> successMsg == old(successMsg) && form == old(form)
    {
      req := BeginSubmit();
      if req.Some? {
        Settle(resp);
      }
    }
  }
}
