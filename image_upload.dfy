/**
 * The file selector (frontend/src/components/ImageUpload.jsx): the file
 * input's change handler forwards the first chosen file to `onUpload`, or
 * nothing when no file was chosen; the "Choose File" button only opens the
 * browser's file picker.
 */
module ImageUpload {
  import opened Wrappers
  import opened Browser

  /** What happens to the component: the input reports its files, or the button is clicked. */
  datatype UploadEvent = FilesChosen(files: seq<File>) | ChooseFileClicked

  /** The component's reply: the file it passes to `onUpload`, if any, and whether it opens the picker. */
  datatype Reaction = Reaction(forwarded: Option<File>, opensPicker: bool)

  /** `handleFile`: `e.target.files[0]`, forwarded when present (a `File` is always truthy). */
  function HandleFile(files: seq<File>): (forwarded: Option<File>)
    ensures forwarded.None? <==> files == []
    ensures forwarded.Some? ==> forwarded.value == files[0]
  {
    if |files| == 0 then None else Some(files[0])
  }

  /** The component's two handlers: the input's `onChange` and the button's `onClick`. */
  function OnEvent(event: UploadEvent): (r: Reaction)
    ensures event.ChooseFileClicked? ==> r.forwarded.None? && r.opensPicker
    ensures event.FilesChosen? ==> !r.opensPicker
    ensures event.FilesChosen? && event.files != [] ==> r.forwarded == Some(event.files[0])
    ensures event.FilesChosen? && event.files == [] ==> r.forwarded.None?
  {
    match event
    case FilesChosen(files) => Reaction(HandleFile(files), false)
    case ChooseFileClicked => Reaction(None, true)
  }
}
