/**
 * The fundus-image drop zone (src/components/diagnosis/ImageUpload.jsx): a drag flag, a
 * drop that forwards only image files, and a file picker that forwards any file.
 */
module ImageUpload {
  import opened Wrappers
  import opened JsText
  import opened Dom

  /** What a drop forwards: the first dropped file, and only when its MIME type is `image/…`. */
  function ImageDropForwards(files: Option<seq<File>>): (r: Option<File>)
    ensures r.Some? <==> FirstFile(files).Some? && StartsWith(FirstFile(files).value.mimeType, "image/")
    ensures r.Some? ==> r == FirstFile(files)
  {
    var first := FirstFile(files);
    if first.Some? && StartsWith(first.value.mimeType, "image/") then first else None
  }

  /** A dropped file that is not an image is dropped silently. */
  lemma NonImageIgnored(f: File, rest: seq<File>)
    requires !StartsWith(f.mimeType, "image/")
    ensures ImageDropForwards(Some([f] + rest)) == None
  {
  }

  class ImageUploadWidget {
    var dragActive: bool

    constructor ()
      ensures !dragActive
    {
      dragActive := false;
    }

    method HandleDrag(eventType: string)
      modifies this
      ensures dragActive == DragActiveAfter(old(dragActive), eventType)
    {
      if eventType == "dragenter" || eventType == "dragover" {
        dragActive := true;
      } else if eventType == "dragleave" {
        dragActive := false;
      }
    }

    /** `handleDrop`: always clears the drag flag; returns the file handed to `onImageUpload`. */
    method HandleDrop(files: Option<seq<File>>) returns (forwarded: Option<File>)
      modifies this
      ensures !dragActive
      ensures forwarded == ImageDropForwards(files)
    {
      dragActive := false;
      forwarded := None;
      if files.Some? && |files.value| > 0 {
        var file := files.value[0];
        if StartsWith(file.mimeType, "image/") {
          forwarded := Some(file);
        }
      }
    }

    /** `handleFileSelect`: the picker forwards its first file with no type check. */
    method HandleFileSelect(files: Option<seq<File>>) returns (forwarded: Option<File>)
      ensures forwarded == FirstFile(files)
    {
      forwarded := FirstFile(files);
    }
  }
}
