/** The image uploader: a drop zone and file picker that accept only image
    files and hand the selected image's base64 payload and MIME type on. */
module Uploader {
  import opened Wrappers
  import opened Text

  /** A chosen file: its declared MIME type and the data URL a full read of it
      yields (the read itself is the browser's). */
  datatype File = File(mimeType: string, dataUrl: string)

  /** What the uploader passes on: the payload (absent when the data URL
      has no comma) and the file's declared MIME type. */
  datatype Selection = Selection(base64: Option<string>, mimeType: string)

  /** Only declared image types are accepted. */
  predicate IsImageType(mimeType: string)
  {
    StartsWith(mimeType, "image/")
  }

  /** `dataUrl.split(',')[1]`: the text between the first comma and the next
      one, or undefined when there is no comma. */
  function Payload(dataUrl: string): (payload: Option<string>)
    ensures payload.Some? <==> ',' in dataUrl
    ensures payload.Some? ==> ',' !in payload.value
  {
    var pieces := Split(dataUrl, ',');
    if |pieces| > 1 then Some(pieces[1]) else None
  }

  /** The payload is exactly the field after the first comma, up to the next
      comma or the end. */
  lemma {:induction false} PayloadField(head: string, payload: string, tail: string)
    requires ',' !in head && ',' !in payload
    requires tail == "" || tail[0] == ','
    ensures Payload(head + "," + payload + tail) == Some(payload)
  {
    var after := payload + tail;
    assert head + "," + payload + tail == head + ([','] + after);
    SplitAfterPlain(head, [','] + after, ',');
    SplitAtSep(after, ',');
    SplitAfterPlain(payload, tail, ',');
    if tail == "" {
      assert Split(tail, ',') == [""];
    } else {
      assert tail == [','] + tail[1..];
      SplitAtSep(tail[1..], ',');
    }
    assert payload + "" == payload;
  }

  /** What reading one file hands on: nothing for a non-image type, otherwise
      the payload of its data URL with the file's own declared type. */
  function HandleFile(file: File): Option<Selection>
  {
    if !IsImageType(file.mimeType) then None
    else Some(Selection(Payload(file.dataUrl), file.mimeType))
  }

  /** A non-image file is ignored; an image file always hands something on,
      and the type passed on is the declared one, never parsed from the URL. */
  lemma HandleFileFilters(file: File)
    ensures HandleFile(file).Some? <==> IsImageType(file.mimeType)
    ensures HandleFile(file).Some? ==> HandleFile(file).value.mimeType == file.mimeType
  {
  }

  /** For an image file whose data URL has the payload after its first comma,
      exactly that payload is handed on. */
  lemma HandleFilePayload(file: File, head: string, payload: string, tail: string)
    requires IsImageType(file.mimeType)
    requires file.dataUrl == head + "," + payload + tail
    requires ',' !in head && ',' !in payload && (tail == "" || tail[0] == ',')
    ensures HandleFile(file) == Some(Selection(Some(payload), file.mimeType))
  {
    PayloadField(head, payload, tail);
  }

  /** The first file of an event's file list, if it has one. */
  function FirstFile(files: Option<seq<File>>): Option<File>
  {
    if files.Some? && |files.value| > 0 then Some(files.value[0]) else None
  }

  /** The file picker's change event: only the first file is read. */
  function HandleChange(files: Option<seq<File>>): Option<Selection>
  {
    match FirstFile(files)
    case None => None
    case Some(file) => HandleFile(file)
  }

  /** Files after the first never matter, and an empty or absent list hands
      nothing on. */
  lemma OnlyFirstFile(file: File, others: seq<File>)
    ensures HandleChange(Some([file] + others)) == HandleFile(file)
    ensures HandleChange(Some([])) == None && HandleChange(None) == None
  {
  }

  /** The drop zone, which highlights while a file is dragged over it. */
  class ImageUploader {
    var isDragging: bool

    constructor ()
      ensures !isDragging
    {
      isDragging := false;
    }

    method DragOver()
      modifies this
      ensures isDragging
    {
      isDragging := true;
    }

    method DragLeave()
      modifies this
      ensures !isDragging
    {
      isDragging := false;
    }

    /** A drop ends the drag and reads the first dropped file, as a change
        event does. */
    method Drop(files: Option<seq<File>>) returns (selection: Option<Selection>)
      modifies this
      ensures !isDragging
      ensures selection == HandleChange(files)
    {
      isDragging := false;
      if files.Some? && |files.value| > 0 {
        selection := HandleFile(files.value[0]);
      } else {
        selection := None;
      }
    }
  }
}
