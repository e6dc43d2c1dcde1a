/**
 * Stand-ins for the Android platform types the bridge reads. The platform's own
 * parsing (Uri.getScheme, Uri.getPath, Uri.toString, Intent.getParcelableExtra)
 * is foreign code; its results are taken as fields of these values.
 */
module Android {
  import opened Wrappers

  /** An android.net.Uri as the bridge sees it: its scheme, its full string form, its path. */
  datatype Uri = Uri(scheme: Option<string>, text: string, path: Option<string>)

  /** The action of an intent: ACTION_VIEW ("open with"), ACTION_SEND ("share"), or anything else (including none). */
  datatype Action = View | Send | Other

  /**
   * An android.content.Intent: its action, its data URI, its declared MIME type
   * and the URI attached under EXTRA_STREAM.
   */
  datatype Intent = Intent(action: Action, data: Option<Uri>, mimeType: Option<string>, stream: Option<Uri>)
}
