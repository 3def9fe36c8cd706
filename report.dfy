/**
 * What a download_file request ends with: the payload handed to
 * wp_send_json_error or wp_send_json_success, both of which end the request.
 */
module Report {
  import opened Wrappers
  import opened PhpStrings
  import opened Environment

  /** The messages the handlers send; Text gives their wording. */
  datatype Message =
    | MissingUrl
    | InvalidUrlFormat
    | MissingCustomPath
    | InvalidDirectoryPath
    | CreateFailed(directory: string)
    | NotWritable(directory: string)
    | TransportFailed(reason: string)
    | BadStatus(code: int)
    | NotAccessible
    | SizeMismatch
    | Downloaded

  /** The English text of a message, with the sprintf arguments filled in. */
  function Text(m: Message): string
  {
    match m
    case MissingUrl => "Please provide a valid URL"
    case InvalidUrlFormat => "Invalid URL format"
    case MissingCustomPath => "Please enter a custom directory path"
    case InvalidDirectoryPath => "Invalid directory path"
    case CreateFailed(d) => "Failed to create directory: " + d
    case NotWritable(d) => "Directory is not writable: " + d
    case TransportFailed(reason) => "Download failed: " + reason
    case BadStatus(code) => "Download failed with status code: " + DecimalString(code)
    case NotAccessible => "Downloaded file is not accessible"
    case SizeMismatch => "Downloaded file size does not match expected size"
    case Downloaded => "File downloaded successfully"
  }

  /**
   * The $debug_info array. responseCode is None, and responseMessage and
   * headers are empty, where WordPress's retrieve helpers answer '' or
   * array() for a WP_Error.
   */
  datatype DebugInfo = DebugInfo(
    url: string,
    filepath: string,
    directory: string,
    responseCode: Option<int>,
    responseMessage: string,
    headers: map<string, string>)

  /**
   * Rejected: wp_send_json_error with a bare message (every failure before
   * the fetch). Failed: wp_send_json_error with message and debug.
   * Succeeded: wp_send_json_success with message, filename, filepath, debug.
   */
  datatype Outcome =
    | Rejected(message: Message)
    | Failed(message: Message, debug: DebugInfo)
    | Succeeded(message: Message, filename: string, filepath: string, debug: DebugInfo)

  /** The debug payload built right after wp_remote_get. */
  function DebugOf(url: string, filepath: string, directory: string, r: Response): (d: DebugInfo)
    ensures d.url == url && d.filepath == filepath && d.directory == directory
    ensures d.responseCode.Some? <==> r.Reply?
    ensures r.Reply? ==> d.responseCode == Some(r.code) && d.responseMessage == r.message && d.headers == r.headers
    ensures r.WpError? ==> d.responseMessage == "" && d.headers == map[]
  {
    match r
    case WpError(_) => DebugInfo(url, filepath, directory, None, "", map[])
    case Reply(code, message, headers) => DebugInfo(url, filepath, directory, Some(code), message, headers)
  }

  /** wp_remote_retrieve_header($r, $name): '' when there is no such header or the response is a WP_Error. */
  function Header(r: Response, name: string): string
  {
    if r.Reply? && name in r.headers then r.headers[name] else ""
  }

  /** The status-code message carries the code itself: reading back the number in it gives the code. */
  lemma BadStatusNamesCode(code: int)
    ensures var t := Text(BadStatus(code)); var p := "Download failed with status code: ";
      |p| < |t| && t[..|p|] == p && IntCast(t[|p|..]) == code
  {
    var t := Text(BadStatus(code));
    var p := "Download failed with status code: ";
    assert t[|p|..] == DecimalString(code);
    IntCastDecimalString(code);
  }
}
