/**
 * The ERG-report drop zone (src/components/diagnosis/ErgUpload.jsx): the same drag flag as
 * the image widget, but both the drop and the picker forward the first file of any type.
 */
module ErgUpload {
  import opened Wrappers
  import opened Dom

  class ErgUploadWidget {
    var dragActive: bool

    constructor ()
      ensures !dragActive
    {
      dragActive := false;
    }

    method HandleDrag(eventType: string)
      modifies this
      ensures dragActive == DragActiveAfter(old(dragActive), eventType)
    {
      if eventType == "dragenter" || eventType == "dragover" {
        dragActive := true;
      } else if eventType == "dragleave" {
        dragActive := false;
      }
    }

    /** `handleDrop`: clears the drag flag and forwards the first file, whatever its type. */
    method HandleDrop(files: Option<seq<File>>) returns (forwarded: Option<File>)
      modifies this
      ensures !dragActive
      ensures forwarded == FirstFile(files)
    {
      dragActive := false;
      forwarded := None;
      if files.Some? && |files.value| > 0 {
        forwarded := Some(files.value[0]);
      }
    }

    /** `handleFileSelect`: forwards the first picked file. */
    method HandleFileSelect(files: Option<seq<File>>) returns (forwarded: Option<File>)
      ensures forwarded == FirstFile(files)
    {
      forwarded := FirstFile(files);
    }
  }
}
