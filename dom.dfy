/**
 * The browser objects the upload widgets see: a picked or dropped file, the optional
 * file list of an input or drop event, and the drag-state rule both widgets share.
 */
module Dom {
  import opened Wrappers

  /** A `File` as the widgets read it: its name and its MIME type (`file.type`). */
  datatype File = File(name: string, mimeType: string)

  /**
   * `handleDrag`: entering or moving over the drop zone lights it up, leaving it turns it
   * off, any other event type keeps the current state.
   */
  function DragActiveAfter(active: bool, eventType: string): (r: bool)
    ensures eventType == "dragenter" || eventType == "dragover" ==> r
    ensures eventType == "dragleave" ==> !r
    ensures eventType !in {"dragenter", "dragover", "dragleave"} ==> r == active
  {
    if eventType == "dragenter" || eventType == "dragover" then true
    else if eventType == "dragleave" then false
    else active
  }

  /** `files && files[0]`: the first file of a list that may be missing or empty. */
  function FirstFile(files: Option<seq<File>>): (r: Option<File>)
    ensures r.Some? <==> files.Some? && |files.value| > 0
    ensures r.Some? ==> r.value == files.value[0]
  {
    if files.Some? && |files.value| > 0 then Some(files.value[0]) else None
  }
}
