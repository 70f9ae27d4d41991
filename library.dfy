/** The "My Library" screen: a list of library items kept in step with the
    `documents` table of the backend's REST catalog and with the object store
    that holds uploaded files. Every remote call, the file picker and the
    clock are inputs; the remote requests the screen issues are an output. */
module Library {
  import opened Outcomes
  import opened JsText

  /** A row of the `documents` table as the catalog returns it. `kind` is the
      row's `type` column, which may be null. */
  datatype CatalogRecord = CatalogRecord(id: string, title: string, url: string, kind: Option<string>)

  /** An entry of the displayed list. `kind` is null only when a saved row
      came back without a type. */
  datatype Item = Item(id: string, title: string, kind: Option<string>, uri: string)

  /** A `fetch` response: its `ok` flag and what awaiting `text()` or
      `json()` on it yields. */
  datatype Reply = Reply(ok: bool, text: Attempt<string>, json: Attempt<seq<CatalogRecord>>)

  /** One asset of the document picker's result. */
  datatype PickedFile = PickedFile(name: string, uri: string)

  /** The document picker's result; `assets` may be missing. */
  datatype PickerResult = PickerResult(canceled: bool, assets: Option<seq<PickedFile>>)

  /** Everything the outside world contributes to one file upload: the clock
      when the key is derived, reading the picked file into a blob, and the
      replies to the upload and to the metadata insert. */
  datatype UploadWorld = UploadWorld(
    now: nat,
    blob: Attempt<seq<bv8>>,
    upload: Attempt<Reply>,
    insert: Attempt<Reply>)

  /** The remote requests an upload can issue, in the order it issues them. */
  datatype Request =
    | FetchLocalFile(uri: string)
    | UploadObject(url: string, contentType: string, upsert: bool, body: seq<bv8>)
    | InsertDocument(title: string, url: string, kind: string)

  const ObjectPath := "/storage/v1/object/"
  const PublicSegment := "public/"

  const FetchDocumentsError := "Failed to fetch documents"
  const SaveFailedText := "Failed to save document info."
  const UploadedText := "\U{2705} PDF uploaded and saved!"
  /** The message of the TypeError that Hermes, React Native's engine,
      raises for `savedDoc[0].id` when `savedDoc` is empty. */
  const MissingRowMessage := "Cannot read property 'id' of undefined"

  /** The alerts an upload raises. */
  datatype Alert =
    | UploadFailed(errorText: string)   // the object store refused the upload
    | SaveFailed                        // the catalog refused the metadata insert
    | UploadError(message: string)      // an exception inside the workflow
    | Uploaded                          // full success

  /** The text shown for an alert. The metadata-stage refusal and the
      success message are each shown for their own alert and no other. */
  function AlertText(a: Alert): (t: string)
    ensures t == SaveFailedText <==> a == SaveFailed
    ensures t == UploadedText <==> a == Uploaded
  {
    match a
    case UploadFailed(errorText) =>
      assert ("Upload failed: " + errorText)[0] == 'U' != SaveFailedText[0] && UploadedText[0] != 'U';
      "Upload failed: " + errorText
    case SaveFailed => SaveFailedText
    case UploadError(message) =>
      assert ("Upload error: " + message)[0] == 'U' != SaveFailedText[0] && UploadedText[0] != 'U';
      "Upload error: " + message
    case Uploaded => UploadedText
  }

  /** Different alerts read differently: in particular the text naming the
      upload stage never reads like the one naming the metadata stage. */
  lemma AlertTextsDistinct(a: Alert, b: Alert)
    requires a != b
    ensures AlertText(a) != AlertText(b)
  {
    var ta, tb := AlertText(a), AlertText(b);
    if a.UploadFailed? && b.UploadFailed? {
      assert ta[15..] == a.errorText && tb[15..] == b.errorText;
    } else if a.UploadError? && b.UploadError? {
      assert ta[14..] == a.message && tb[14..] == b.message;
    } else if (a.UploadFailed? && b.UploadError?) || (a.UploadError? && b.UploadFailed?) {
      assert ta[7] != tb[7];
    }
  }

  /** The item a catalog row is shown as after a load: same id, title and
      address, and a type that is the row's when truthy and "PDF" otherwise. */
  function HydratedItem(r: CatalogRecord): (it: Item)
    ensures it.id == r.id && it.title == r.title && it.uri == r.url
    ensures Truthy(it.kind)
    ensures Truthy(r.kind) ==> it.kind == r.kind
    ensures !Truthy(r.kind) ==> it.kind == Some("PDF")
  {
    Item(r.id, r.title, Some(if Truthy(r.kind) then r.kind.value else "PDF"), r.url)
  }

  /** A load's mapping of the catalog rows: one item per row, in row order. */
  function Hydrate(records: seq<CatalogRecord>): (items: seq<Item>)
    ensures |items| == |records|
    ensures forall i :: 0 <= i < |records| ==> items[i] == HydratedItem(records[i])
  {
    if records == [] then []
    else [HydratedItem(records[0])] + Hydrate(records[1..])
  }

  /** A row's fields as a successful upload appends them: its type is copied
      as it is, without the "PDF" default a load applies, so the appended
      item is the one a later load shows if and only if the type is truthy. */
  function SavedItem(r: CatalogRecord): (it: Item)
    ensures it.id == r.id && it.title == r.title && it.uri == r.url && it.kind == r.kind
    ensures it == HydratedItem(r) <==> Truthy(r.kind)
  {
    Item(r.id, r.title, r.kind, r.url)
  }

  /** The object-store key of a picked file: the clock's decimal text, a dot
      and the file name's extension. Both parts can be read back from it:
      the text after its last '.' is the file name's extension, and the
      digits before that dot denote the clock value. */
  function StorageKey(now: nat, name: string): (key: string)
    ensures AfterLast(key, '.') == AfterLast(name, '.')
    ensures |key| > |AfterLast(name, '.')|
    ensures var stamp := key[..|key| - |AfterLast(name, '.')| - 1];
      IsDigits(stamp) && ParseDecimal(stamp) == now
  {
    var stamp := Decimal(now);
    var ext := AfterLast(name, '.');
    AfterLastShape(name, '.');
    AfterLastOfJoin(stamp, '.', ext);
    ParseDecimalOfDecimal(now);
    assert (stamp + "." + ext)[..|stamp|] == stamp;
    stamp + "." + ext
  }

  /** Where a key is uploaded to in the given bucket. The object's name
      reads back from the address: a key without '/' is its last path
      segment. */
  function UploadUrl(baseUrl: string, bucket: string, key: string): (url: string)
    ensures '/' !in key ==> AfterLast(url, '/') == key
  {
    var folder := baseUrl + ObjectPath + bucket;
    assert folder + "/" + key == baseUrl + ObjectPath + bucket + "/" + key;
    if '/' !in key then AfterLastOfJoin(folder, '/', key); folder + "/" + key
    else folder + "/" + key
  }

  /** `s` with `t` inserted before position `k`. */
  function InsertAt(s: string, k: nat, t: string): string
    requires k <= |s|
  {
    s[..k] + t + s[k..]
  }

  /** The public address of an uploaded object: the upload address with
      "public/" inserted right after the object path. */
  function PublicUrl(baseUrl: string, bucket: string, key: string): (url: string)
    ensures |baseUrl + ObjectPath| <= |UploadUrl(baseUrl, bucket, key)|
    ensures url == InsertAt(UploadUrl(baseUrl, bucket, key), |baseUrl + ObjectPath|, PublicSegment)
  {
    var prefix := baseUrl + ObjectPath;
    var rest := bucket + "/" + key;
    assert UploadUrl(baseUrl, bucket, key) == prefix + rest;
    assert (prefix + rest)[..|prefix|] == prefix;
    assert (prefix + rest)[|prefix|..] == rest;
    baseUrl + ObjectPath + PublicSegment + bucket + "/" + key
  }

  /** The item a link submission appends: kind "Link", the text untrimmed
      as both title and address, and an id that reads back as the clock
      value. */
  function LinkItem(now: nat, text: string): (it: Item)
    ensures it.kind == Some("Link") && it.title == text && it.uri == text
    ensures IsDigits(it.id) && ParseDecimal(it.id) == now
  {
    ParseDecimalOfDecimal(now);
    Item(Decimal(now), text, Some("Link"), text)
  }

  /** The picker produced a file: not cancelled, with at least one asset. */
  predicate Picked(pick: PickerResult) {
    !pick.canceled && pick.assets.Some? && |pick.assets.value| > 0
  }

  /** The catalog answered a list request with rows. */
  predicate Loads(response: Attempt<Reply>) {
    response.Returned? && response.value.ok && response.value.json.Returned?
  }

  /** The object store accepted the upload. */
  predicate UploadOk(w: UploadWorld) {
    w.blob.Returned? && w.upload.Returned? && w.upload.value.ok
  }

  /** The catalog accepted the insert and sent back at least one row. */
  predicate InsertSaved(insert: Attempt<Reply>) {
    insert.Returned? && insert.value.ok && insert.value.json.Returned? && |insert.value.json.value| > 0
  }

  /** The alert the metadata stage ends with, once the insert was issued:
      a rejection or a body that cannot be read is an upload error, a
      refused insert is reported as such, a reply without rows fails on the
      missing row, and a saved row is a success. The success alert is raised
      exactly when a row was saved, and the refusal alert exactly when the
      catalog refused the insert with a readable reason. */
  function MetadataAlert(insert: Attempt<Reply>): (a: Alert)
    ensures a == Uploaded <==> InsertSaved(insert)
    ensures a == SaveFailed <==> insert.Returned? && !insert.value.ok && insert.value.text.Returned?
  {
    match insert
    case Threw(m) => UploadError(m)
    case Returned(reply) =>
      if !reply.ok then
        match reply.text
        case Threw(m) => UploadError(m)
        case Returned(_) => SaveFailed
      else
        match reply.json
        case Threw(m) => UploadError(m)
        case Returned(rows) => if rows == [] then UploadError(MissingRowMessage) else Uploaded
  }

  /** The upload and the metadata insert both succeeded. */
  predicate Saved(w: UploadWorld) {
    UploadOk(w) && InsertSaved(w.insert)
  }

  class LibraryScreen {
    const baseUrl: string
    const bucket: string
    var items: seq<Item>
    var linkInput: string
    var modalVisible: bool

    /** The screen as first rendered: empty list, empty link field, modal
        hidden; the backend address and bucket come from configuration. */
    constructor (baseUrl: string, bucket: string)
      ensures this.baseUrl == baseUrl && this.bucket == bucket
      ensures items == [] && linkInput == "" && !modalVisible
    {
      this.baseUrl := baseUrl;
      this.bucket := bucket;
      items := [];
      linkInput := "";
      modalVisible := false;
    }

    /** The "+" button. */
    method OpenModal()
      modifies this`modalVisible
      ensures modalVisible
    {
      modalVisible := true;
    }

    /** The modal's Cancel button and the platform's close request. */
    method CloseModal()
      modifies this`modalVisible
      ensures !modalVisible
    {
      modalVisible := false;
    }

    /** Typing in the link field. */
    method EditLink(text: string)
      modifies this`linkInput
      ensures linkInput == text
    {
      linkInput := text;
    }

    /** The load on mount: a successful listing replaces the list with the
        mapped rows; a failed request, a non-ok status or an unreadable body
        leaves the list as it was, and the logged message is returned. */
    method LoadLibrary(response: Attempt<Reply>) returns (logged: Option<string>)
      modifies this`items
      ensures Loads(response) ==> items == Hydrate(response.value.json.value) && logged == None
      ensures !Loads(response) ==> items == old(items) && logged.Some?
      ensures response.Threw? ==> logged == Some(response.message)
      ensures response.Returned? && !response.value.ok ==> logged == Some(FetchDocumentsError)
      ensures response.Returned? && response.value.ok && response.value.json.Threw? ==>
        logged == Some(response.value.json.message)
    {
      if response.Threw? {
        return Some(response.message);
      }
      var res := response.value;
      if !res.ok {
        return Some(FetchDocumentsError);
      }
      if res.json.Threw? {
        return Some(res.json.message);
      }
      items := Hydrate(res.json.value);
      logged := None;
    }

    /** Uploading a picked file: derive the key, read the file, upload it,
        insert its metadata, append the saved row. Each failure returns
        early with the alert that names its stage, so the later requests are
        never issued and neither the list nor the modal changes. */
    method UploadPdf(pick: PickerResult, w: UploadWorld) returns (requests: seq<Request>, alert: Option<Alert>)
      modifies this`items, this`modalVisible
      // a cancelled or empty pick does nothing at all
      ensures !Picked(pick) ==>
        requests == [] && alert == None && items == old(items) && modalVisible == old(modalVisible)
      // the requests issued: the file read, then the upload once the blob is
      // read, then the insert only once the upload was accepted
      ensures Picked(pick) ==>
        var file := pick.assets.value[0];
        var key := StorageKey(w.now, file.name);
        1 <= |requests| <= 3
        && requests[0] == FetchLocalFile(file.uri)
        && (|requests| >= 2 <==> w.blob.Returned?)
        && (|requests| >= 2 ==>
              requests[1] == UploadObject(UploadUrl(baseUrl, bucket, key), "application/pdf", true, w.blob.value))
        && (|requests| == 3 <==> UploadOk(w))
        && (|requests| == 3 ==>
              requests[2] == InsertDocument(file.name, PublicUrl(baseUrl, bucket, key), "PDF"))
      // the list grows by the saved row, and the modal closes, only on full success
      ensures items == if Picked(pick) && Saved(w) then old(items) + [SavedItem(w.insert.value.json.value[0])]
                       else old(items)
      ensures modalVisible == if Picked(pick) && Saved(w) then false else old(modalVisible)
      // the alert of each stage
      ensures Picked(pick) ==> alert.Some?
      ensures Picked(pick) && w.blob.Threw? ==> alert == Some(UploadError(w.blob.message))
      ensures Picked(pick) && w.blob.Returned? && w.upload.Threw? ==>
        alert == Some(UploadError(w.upload.message))
      ensures Picked(pick) && w.blob.Returned? && w.upload.Returned? && !w.upload.value.ok ==>
        alert == Some(match w.upload.value.text
                      case Threw(m) => UploadError(m)
                      case Returned(t) => UploadFailed(t))
      ensures Picked(pick) && UploadOk(w) ==> alert == Some(MetadataAlert(w.insert))
    {
      requests := [];
      alert := None;
      if !Picked(pick) {
        return;
      }
      var file := pick.assets.value[0];
      var key := StorageKey(w.now, file.name);

      var fetchFile := FetchLocalFile(file.uri);
      requests := [fetchFile];
      if w.blob.Threw? {
        alert := Some(UploadError(w.blob.message));
        return;
      }
      var blob := w.blob.value;

      var uploadUrl := UploadUrl(baseUrl, bucket, key);
      var uploadObject := UploadObject(uploadUrl, "application/pdf", true, blob);
      requests := [fetchFile, uploadObject];
      if w.upload.Threw? {
        alert := Some(UploadError(w.upload.message));
        return;
      }
      var uploadResponse := w.upload.value;
      if !uploadResponse.ok {
        match uploadResponse.text {
          case Threw(m) => alert := Some(UploadError(m));
          case Returned(errorText) => alert := Some(UploadFailed(errorText));
        }
        return;
      }

      var publicUrl := PublicUrl(baseUrl, bucket, key);
      requests := [fetchFile, uploadObject, InsertDocument(file.name, publicUrl, "PDF")];
      alert := FinishUpload(w.insert);
    }

    /** The metadata stage of an upload, once the insert was issued: only a
        reply with at least one saved row appends that row and closes the
        modal; any other reply changes nothing and yields its alert. */
    method FinishUpload(insert: Attempt<Reply>) returns (alert: Option<Alert>)
      modifies this`items, this`modalVisible
      ensures items == if InsertSaved(insert) then old(items) + [SavedItem(insert.value.json.value[0])] else old(items)
      ensures modalVisible == if InsertSaved(insert) then false else old(modalVisible)
      ensures alert == Some(MetadataAlert(insert))
    {
      if insert.Threw? {
        return Some(UploadError(insert.message));
      }
      var docResponse := insert.value;
      if !docResponse.ok {
        match docResponse.text {
          case Threw(m) => alert := Some(UploadError(m));
          case Returned(_) => alert := Some(SaveFailed);
        }
        return;
      }
      if docResponse.json.Threw? {
        return Some(UploadError(docResponse.json.message));
      }
      var savedDoc := docResponse.json.value;
      if savedDoc == [] {
        return Some(UploadError(MissingRowMessage));
      }
      items := items + [SavedItem(savedDoc[0])];
      modalVisible := false;
      alert := Some(Uploaded);
    }

    /** The "Upload Link" button: a blank field changes nothing; otherwise
        the untrimmed text is appended as a link item, the field is cleared
        and the modal closes. No remote request is made. */
    method UploadLink(now: nat)
      modifies this`items, this`linkInput, this`modalVisible
      ensures IsBlank(old(linkInput)) ==>
        items == old(items) && linkInput == old(linkInput) && modalVisible == old(modalVisible)
      ensures !IsBlank(old(linkInput)) ==>
        items == old(items) + [LinkItem(now, old(linkInput))] && linkInput == "" && !modalVisible
    {
      var trimmed := Trim(linkInput);
      if trimmed != "" {
        var newItem := LinkItem(now, linkInput);
        items := items + [newItem];
        linkInput := "";
        modalVisible := false;
      }
    }
  }
}
