/**
 * The WordPress host as the download handlers see it: configuration
 * constants, the posted request, the host functions they call, and the part
 * of the filesystem those functions observe or change. The library functions
 * whose internals are not modelled (esc_url_raw, sanitize_text_field,
 * filter_var, wp_mkdir_p, wp_unique_filename, wp_remote_get) are oracles:
 * functions the host is given and the handlers only call.
 */
module Environment {
  import opened Wrappers

  /** ABSPATH, WP_CONTENT_DIR and get_bloginfo('version' / 'url'). */
  datatype Config = Config(absPath: string, wpContentDir: string, version: string, siteUrl: string)

  /** The $_POST fields read by download_file; None when the key is not set. */
  datatype Request = Request(url: Option<string>, directory: Option<string>, customDirectory: Option<string>)

  /**
   * The options array handed to wp_remote_get. An option the caller leaves
   * out is None, so that the host's defaults apply.
   */
  datatype Args = Args(
    timeout: int,
    stream: bool,
    filename: string,
    headers: RequestHeaders,
    sslverify: Option<bool>,
    redirection: Option<int>,
    rejectUnsafeUrls: Option<bool>)

  /** The request headers the handlers set: Accept, and User-Agent when given (None: the host's default). */
  datatype RequestHeaders = RequestHeaders(accept: string, userAgent: Option<string>)

  /** What wp_remote_get returns: a WP_Error, or a response with its status line and headers (names in lower case). */
  datatype Response =
    | WpError(errorMessage: string)
    | Reply(code: int, message: string, headers: map<string, string>)

  /** What the streamed write leaves at the target path. */
  datatype Stored = Stored(readable: bool, size: int)

  /** One wp_remote_get: its return value and its effect on the target file (None: the file is not touched). */
  datatype Fetched = Fetched(response: Response, stored: Option<Stored>)

  /** The host functions whose internals are outside the model. */
  datatype Oracles = Oracles(
    escUrlRaw: string -> string,
    sanitizeTextField: string -> string,
    validUrl: string -> bool,                    // filter_var($u, FILTER_VALIDATE_URL) !== false
    mkdirSucceeds: string -> bool,               // the flag wp_mkdir_p returns for an absent directory
    uniqueFilename: (string, string) -> string,  // wp_unique_filename($dir, $name)
    remoteGet: (string, Args) -> Fetched)        // wp_remote_get($url, $args)

  /**
   * The filesystem as the handlers observe it: the paths file_exists,
   * is_writable and is_readable accept, and the sizes filesize reports.
   */
  datatype Fs = Fs(present: set<string>, writable: set<string>, readable: set<string>, sizes: map<string, int>)

  /** One call of the host that looks at or changes the filesystem or the network. */
  datatype Call =
    | Exists(path: string)
    | Mkdir(path: string)
    | Writable(path: string)
    | PickName(dir: string, name: string)
    | Get(url: string, args: Args)
    | Readable(path: string)
    | Size(path: string)

  /** filesize($p): None for PHP's false. */
  function FileSize(fs: Fs, p: string): Option<int>
  {
    if p in fs.sizes then Some(fs.sizes[p]) else None
  }

  /** The filesystem after a successful wp_mkdir_p of d. */
  function Created(fs: Fs, d: string): (fs': Fs)
    ensures fs'.present == fs.present + {d}
    ensures fs'.writable == fs.writable && fs'.readable == fs.readable && fs'.sizes == fs.sizes
  {
    fs.(present := fs.present + {d})
  }

  /** The filesystem after the streamed download wrote (or did not write) path p. */
  function Store(fs: Fs, p: string, stored: Option<Stored>): (fs': Fs)
    ensures stored.None? ==> fs' == fs
    ensures stored.Some? ==> p in fs'.present && (p in fs'.readable <==> stored.value.readable)
    ensures stored.Some? ==> FileSize(fs', p) == Some(stored.value.size)
    ensures fs'.writable == fs.writable
    ensures forall q :: q != p ==> (q in fs'.present <==> q in fs.present)
    ensures forall q :: q != p ==> (q in fs'.readable <==> q in fs.readable) && FileSize(fs', q) == FileSize(fs, q)
  {
    match stored
    case None => fs
    case Some(st) =>
      Fs(fs.present + {p},
         fs.writable,
         if st.readable then fs.readable + {p} else fs.readable - {p},
         fs.sizes[p := st.size])
  }

  /**
   * The host: its oracles, the current filesystem, and the log of the calls
   * made so far. Each method is one host function and appends itself to calls.
   */
  class Host {
    const oracles: Oracles
    var fs: Fs
    var calls: seq<Call>

    constructor (o: Oracles, fs0: Fs)
      ensures oracles == o && fs == fs0 && calls == []
    {
      oracles := o;
      fs := fs0;
      calls := [];
    }

    /** file_exists($p). */
    method FileExists(p: string) returns (b: bool)
      modifies this
      ensures b == (p in old(fs).present)
      ensures fs == old(fs) && calls == old(calls) + [Exists(p)]
    {
      b := p in fs.present;
      calls := calls + [Exists(p)];
    }

    /** wp_mkdir_p($p): on success the directory exists afterwards. */
    method MkdirP(p: string) returns (ok: bool)
      modifies this
      ensures ok == oracles.mkdirSucceeds(p)
      ensures fs == if ok then Created(old(fs), p) else old(fs)
      ensures calls == old(calls) + [Mkdir(p)]
    {
      ok := oracles.mkdirSucceeds(p);
      if ok {
        fs := Created(fs, p);
      }
      calls := calls + [Mkdir(p)];
    }

    /** is_writable($p). */
    method IsWritable(p: string) returns (b: bool)
      modifies this
      ensures b == (p in old(fs).writable)
      ensures fs == old(fs) && calls == old(calls) + [Writable(p)]
    {
      b := p in fs.writable;
      calls := calls + [Writable(p)];
    }

    /** wp_unique_filename($dir, $name). */
    method UniqueFilename(dir: string, name: string) returns (f: string)
      modifies this
      ensures f == oracles.uniqueFilename(dir, name)
      ensures fs == old(fs) && calls == old(calls) + [PickName(dir, name)]
    {
      f := oracles.uniqueFilename(dir, name);
      calls := calls + [PickName(dir, name)];
    }

    /** wp_remote_get($url, $args), streaming the body to $args['filename']. */
    method RemoteGet(url: string, args: Args) returns (r: Response)
      modifies this
      ensures r == oracles.remoteGet(url, args).response
      ensures fs == Store(old(fs), args.filename, oracles.remoteGet(url, args).stored)
      ensures calls == old(calls) + [Get(url, args)]
    {
      var f := oracles.remoteGet(url, args);
      r := f.response;
      fs := Store(fs, args.filename, f.stored);
      calls := calls + [Get(url, args)];
    }

    /** is_readable($p). */
    method IsReadable(p: string) returns (b: bool)
      modifies this
      ensures b == (p in old(fs).readable)
      ensures fs == old(fs) && calls == old(calls) + [Readable(p)]
    {
      b := p in fs.readable;
      calls := calls + [Readable(p)];
    }

    /** filesize($p). */
    method Filesize(p: string) returns (n: Option<int>)
      modifies this
      ensures n == FileSize(old(fs), p)
      ensures fs == old(fs) && calls == old(calls) + [Size(p)]
    {
      n := FileSize(fs, p);
      calls := calls + [Size(p)];
    }
  }
}
