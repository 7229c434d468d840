/**
 * The multipart upload the lab and dietary screens share: a `FormData`
 * object that the screen appends to one entry at a time (the user, each
 * text input under its own key, then the picked image), the presence check
 * that guards it, and the platform-dependent image URI.
 */
module Multipart {
  import opened Wrappers
  import opened Text

  /** A picked image as the picker returns it; its `type` and `fileName` may be absent. */
  datatype Image = Image(uri: string, mimeType: Option<string>, fileName: Option<string>)

  /** One entry of a multipart body: plain text, or a file given by its URI, type and name. */
  datatype Part = Field(text: string) | File(uri: string, mimeType: Option<string>, name: Option<string>)

  /** A `FormData` under construction: its entries in the order they were appended. */
  class FormPayload {
    var parts: seq<(string, Part)>

    /** `new FormData()`. */
    constructor ()
      ensures parts == []
    {
      parts := [];
    }

    /** `formPayload.append(key, value)`: entries are only ever added at the end. */
    method Append(key: string, value: Part)
      modifies this
      ensures parts == old(parts) + [(key, value)]
    {
      parts := parts + [(key, value)];
    }
  }

  /** `!field` for a text input: only the empty string is falsy. */
  predicate AnyBlank(fields: seq<(string, string)>) {
    exists i :: 0 <= i < |fields| && fields[i].1 == ""
  }

  /** The "Missing Fields" alert: some text input is empty or no image was picked. */
  predicate Refused(fields: seq<(string, string)>, image: Option<Image>) {
    AnyBlank(fields) || image.None?
  }

  /** `String(user.user_uid)`, which is what `FormData` keeps for a plain value: "undefined" when there is none. */
  function UidText(userId: Option<string>): string {
    if userId.Some? then userId.value else "undefined"
  }

  /** The URI sent for the image: as picked on Android, otherwise with its first `file://` removed. */
  function UploadUri(uri: string, android: bool): string {
    if android then uri else ReplaceFirst(uri, "file://", "")
  }

  /**
   * On Android the URI is sent untouched. Elsewhere a leading `file://`
   * goes and the rest is kept whatever it holds (a second `file://`
   * included), and a URI without `file://` is sent untouched.
   */
  lemma UploadUriMeaning(uri: string, rest: string)
    ensures UploadUri(uri, true) == uri
    ensures UploadUri("file://" + rest, false) == rest
    ensures Find(uri, "file://").None? ==> UploadUri(uri, false) == uri
  {
    StripLeading("file://", rest);
  }

  /** The image entry: the URI for this platform, with the picker's type and file name. */
  function ImagePart(image: Image, android: bool): Part {
    File(UploadUri(image.uri, android), image.mimeType, image.fileName)
  }

  /** The entries `Object.keys(otherFields).forEach(key => formPayload.append(key, otherFields[key]))` adds. */
  function FieldParts(fields: seq<(string, string)>): (parts: seq<(string, Part)>)
    ensures |parts| == |fields|
    ensures forall i :: 0 <= i < |fields| ==> parts[i] == (fields[i].0, Field(fields[i].1))
  {
    seq(|fields|, i requires 0 <= i < |fields| => (fields[i].0, Field(fields[i].1)))
  }

  /** The `forEach` over the text inputs: one `append` per input, in order. */
  method AppendFields(payload: FormPayload, fields: seq<(string, string)>)
    modifies payload
    ensures payload.parts == old(payload.parts) + FieldParts(fields)
  {
    for i := 0 to |fields|
      invariant payload.parts == old(payload.parts) + FieldParts(fields[..i])
    {
      assert FieldParts(fields[..i + 1]) == FieldParts(fields[..i]) + [(fields[i].0, Field(fields[i].1))];
      payload.Append(fields[i].0, Field(fields[i].1));
    }
    assert fields[..|fields|] == fields;
  }

  /** The body a submission sends: the user, the text inputs, then the image under `imageKey`. */
  function ComposedParts(userId: Option<string>, fields: seq<(string, string)>, imageKey: string, image: Image, android: bool): seq<(string, Part)> {
    [("user_uid", Field(UidText(userId)))] + FieldParts(fields) + [(imageKey, ImagePart(image, android))]
  }

  /** Builds the upload body of an accepted submission. */
  method Compose(userId: Option<string>, fields: seq<(string, string)>, imageKey: string, image: Image, android: bool)
    returns (payload: FormPayload)
    ensures fresh(payload)
    ensures payload.parts == ComposedParts(userId, fields, imageKey, image, android)
  {
    payload := new FormPayload();
    payload.Append("user_uid", Field(UidText(userId)));
    AppendFields(payload, fields);
    payload.Append(imageKey, ImagePart(image, android));
  }

  /**
   * The body has one entry more than the inputs at each end: `user_uid`
   * first, every input next under its own key with its text as typed, and
   * the image last, with the URI for this platform.
   */
  lemma ComposedPartsMeaning(userId: Option<string>, fields: seq<(string, string)>, imageKey: string, image: Image, android: bool)
    ensures var parts := ComposedParts(userId, fields, imageKey, image, android);
            |parts| == |fields| + 2
            && parts[0] == ("user_uid", Field(UidText(userId)))
            && (forall i :: 0 <= i < |fields| ==> parts[i + 1] == (fields[i].0, Field(fields[i].1)))
            && parts[|fields| + 1] == (imageKey, File(UploadUri(image.uri, android), image.mimeType, image.fileName))
  {
    var head := [("user_uid", Field(UidText(userId)))];
    var middle := FieldParts(fields);
    var tail := [(imageKey, ImagePart(image, android))];
    var parts := head + middle + tail;
    assert parts == ComposedParts(userId, fields, imageKey, image, android);
    assert parts[|fields| + 1] == tail[0];
    forall i | 0 <= i < |fields|
      ensures parts[i + 1] == (fields[i].0, Field(fields[i].1))
    {
      assert parts[i + 1] == middle[i];
    }
  }
}
