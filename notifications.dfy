/** The toast notifications the components raise. The toast hook itself is
    not part of this model; a toast is the value the component hands to it. */
module Notifications {

  datatype Toast =
    | InvalidFileType
    | NoNamesFound
    | Extracted(count: nat)
    | ErrorProcessingFile
    | DownloadFeature
  {
    /** The toast's title as shown to the user. */
    function Title(): string {
      match this
      case InvalidFileType => "Invalid File Type"
      case NoNamesFound => "No Names Found"
      case Extracted(_) => "Success"
      case ErrorProcessingFile => "Error Processing File"
      case DownloadFeature => "Download Feature"
    }

    /** Whether the toast uses the "destructive" (error) variant. */
    predicate Destructive() {
      match this
      case InvalidFileType => true
      case NoNamesFound => true
      case Extracted(_) => false
      case ErrorProcessingFile => true
      case DownloadFeature => false
    }
  }

  /** Titles tell the toasts apart: two toasts with the same title are the
      same kind (only the success toast carries a count). */
  lemma TitlesIdentifyToasts(a: Toast, b: Toast)
    requires a.Title() == b.Title()
    ensures a.Extracted? <==> b.Extracted?
    ensures !a.Extracted? ==> a == b
  {
  }
}
