/**
 * download_file of wordpress-remote-data-puller.php, the hardened handler:
 * the URL checks, the 'custom' directory branch with its ".." refusal, then
 * the shared normalise / prepare / fetch / verify stages with the hardened
 * wp_remote_get options and the Content-Length size check.
 */
module RemoteDataPuller {
  import opened Wrappers
  import opened PhpStrings
  import opened Environment
  import opened Report
  import opened Pipeline

  /** $custom_path as first read: the sanitized posted custom_directory, '' when none is posted. */
  function ReadCustomPath(o: Oracles, req: Request): string
  {
    if req.customDirectory.Some? then o.sanitizeTextField(req.customDirectory.value) else ""
  }

  /**
   * The directory the request names, before normalisation: the token as
   * read, or for the token 'custom' ABSPATH followed by the custom path with
   * separators trimmed from both ends; the custom path is refused when it is
   * empty() or its trimmed form contains "..".
   */
  function ResolveDirectory(cfg: Config, o: Oracles, req: Request): Result<string, Message>
  {
    var directory := ReadDirectory(cfg, o, req);
    if directory != "custom" then
      Ok(directory)
    else
      var customPath := ReadCustomPath(o, req);
      if Empty(customPath) then Err(MissingCustomPath)
      else
        var trimmed := Trim(customPath, Separators);
        if Contains(trimmed, "..") then Err(InvalidDirectoryPath)
        else Ok(cfg.absPath + trimmed)
  }

  /** The whole request: outcome, final filesystem and the host calls made, in order. */
  function Handle(cfg: Config, o: Oracles, fs: Fs, req: Request): Run
  {
    var url := ReadUrl(o, req);
    match CheckUrl(o, url)
    case Some(m) => Run(Rejected(m), fs, [])
    case None =>
      match ResolveDirectory(cfg, o, req)
      case Err(m) => Run(Rejected(m), fs, [])
      case Ok(directory) => SaveRun(cfg, o, fs, url, directory, Hardened)
  }

  /** download_file performed on the host; every return is a wp_send_json_* that ends the request. */
  method DownloadFile(cfg: Config, host: Host, req: Request) returns (out: Outcome)
    modifies host
    ensures var r := Handle(cfg, host.oracles, old(host.fs), req);
      out == r.outcome && host.fs == r.fs && host.calls == old(host.calls) + r.calls
  {
    ghost var spec := Handle(cfg, host.oracles, host.fs, req);
    var url := if req.url.Some? then host.oracles.escUrlRaw(req.url.value) else "";
    var directory := if req.directory.Some? then host.oracles.sanitizeTextField(req.directory.value) else BackupDir(cfg);
    assert url == ReadUrl(host.oracles, req) && directory == ReadDirectory(cfg, host.oracles, req);
    if Empty(url) {
      assert spec == Run(Rejected(MissingUrl), host.fs, []);
      return Rejected(MissingUrl);
    }
    if !host.oracles.validUrl(url) {
      assert spec == Run(Rejected(InvalidUrlFormat), host.fs, []);
      return Rejected(InvalidUrlFormat);
    }
    assert CheckUrl(host.oracles, url).None?;
    ghost var resolved := ResolveDirectory(cfg, host.oracles, req);
    if directory == "custom" {
      var customPath := if req.customDirectory.Some? then host.oracles.sanitizeTextField(req.customDirectory.value) else "";
      assert customPath == ReadCustomPath(host.oracles, req);
      if Empty(customPath) {
        assert resolved == Err(MissingCustomPath);
        return Rejected(MissingCustomPath);
      }
      customPath := Trim(customPath, Separators);
      if Contains(customPath, "..") {
        assert resolved == Err(InvalidDirectoryPath);
        return Rejected(InvalidDirectoryPath);
      }
      directory := cfg.absPath + customPath;
    }
    assert resolved == Ok(directory);
    assert spec == SaveRun(cfg, host.oracles, host.fs, url, directory, Hardened);
    out := Save(cfg, host, url, directory, Hardened);
  }

  /**
   * An empty() URL (also one not posted) fails with "Please provide a valid
   * URL", and a URL filter_var rejects with "Invalid URL format"; either way
   * no host call is made and the filesystem is unchanged.
   */
  lemma UrlRejectedBeforeAnyIo(cfg: Config, o: Oracles, fs: Fs, req: Request)
    ensures var url := ReadUrl(o, req); var r := Handle(cfg, o, fs, req);
      && (req.url.None? ==> r == Run(Rejected(MissingUrl), fs, []))
      && (Empty(url) ==> r == Run(Rejected(MissingUrl), fs, []))
      && (!Empty(url) && !o.validUrl(url) ==> r == Run(Rejected(InvalidUrlFormat), fs, []))
  {
  }

  /**
   * The 'custom' branch once the URL passed: an empty() custom path fails,
   * a custom path containing ".." anywhere (trimming cannot remove one) fails
   * with "Invalid directory path", in both cases before any host call; any
   * other custom path continues under ABSPATH with separators trimmed.
   */
  lemma CustomPathChecks(cfg: Config, o: Oracles, fs: Fs, req: Request)
    requires CheckUrl(o, ReadUrl(o, req)).None?
    requires ReadDirectory(cfg, o, req) == "custom"
    ensures var c := ReadCustomPath(o, req); var r := Handle(cfg, o, fs, req);
      && (Empty(c) ==> r == Run(Rejected(MissingCustomPath), fs, []))
      && (!Empty(c) && Contains(c, "..") ==> r == Run(Rejected(InvalidDirectoryPath), fs, []))
      && (!Empty(c) && !Contains(c, "..") ==>
            r == SaveRun(cfg, o, fs, ReadUrl(o, req), cfg.absPath + Trim(c, Separators), Hardened))
  {
    TrimKeepsDotDot(ReadCustomPath(o, req));
  }

  /**
   * "Invalid directory path" is sent exactly when the URL passed, the token
   * is 'custom', and the non-empty custom path contains "..".
   */
  lemma InvalidDirectoryPathIff(cfg: Config, o: Oracles, fs: Fs, req: Request)
    ensures var c := ReadCustomPath(o, req);
      Handle(cfg, o, fs, req).outcome == Rejected(InvalidDirectoryPath) <==>
        && CheckUrl(o, ReadUrl(o, req)).None?
        && ReadDirectory(cfg, o, req) == "custom"
        && !Empty(c) && Contains(c, "..")
  {
    var url := ReadUrl(o, req);
    TrimKeepsDotDot(ReadCustomPath(o, req));
    if CheckUrl(o, url).None? && ResolveDirectory(cfg, o, req).Ok? {
      SaveRejectsOnlyOnDirectory(cfg, o, fs, url, ResolveDirectory(cfg, o, req).value, Hardened);
    }
  }

  /** The ".." test is a substring test: "a..b" is refused, as is "../../etc". */
  lemma DotDotIsSubstringTest(cfg: Config, o: Oracles, fs: Fs, req: Request)
    requires CheckUrl(o, ReadUrl(o, req)).None?
    requires ReadDirectory(cfg, o, req) == "custom"
    requires ReadCustomPath(o, req) == "a..b" || ReadCustomPath(o, req) == "../../etc"
    ensures Handle(cfg, o, fs, req) == Run(Rejected(InvalidDirectoryPath), fs, [])
  {
    var c := ReadCustomPath(o, req);
    assert OccursAt(c, "..", if c == "a..b" then 1 else 0);
    CustomPathChecks(cfg, o, fs, req);
  }

  /**
   * An accepted custom directory is ABSPATH followed by the trimmed custom
   * path, which neither starts nor ends with '/' or '\' and holds no "..";
   * the first host call probes its normalised form.
   */
  lemma AcceptedCustomDirectory(cfg: Config, o: Oracles, fs: Fs, req: Request)
    requires CheckUrl(o, ReadUrl(o, req)).None?
    requires ReadDirectory(cfg, o, req) == "custom"
    requires ResolveDirectory(cfg, o, req).Ok?
    ensures var t := Trim(ReadCustomPath(o, req), Separators);
      && ResolveDirectory(cfg, o, req).value == cfg.absPath + t
      && (t == [] || (t[0] !in Separators && t[|t| - 1] !in Separators))
      && !Contains(t, "..")
      && Handle(cfg, o, fs, req).calls[0] == Exists(TrailingSlashIt(cfg.absPath + t))
  {
    SaveDirectoryFirst(cfg, o, fs, ReadUrl(o, req), ResolveDirectory(cfg, o, req).value, Hardened);
  }

  /**
   * The backup directory is used only when the directory key is absent; a
   * posted token other than 'custom' is used as given, so a posted empty
   * token becomes the filesystem root "/".
   */
  lemma DefaultOnlyWhenKeyAbsent(cfg: Config, o: Oracles, fs: Fs, req: Request)
    requires CheckUrl(o, ReadUrl(o, req)).None?
    ensures req.directory.None? ==>
      Handle(cfg, o, fs, req) == SaveRun(cfg, o, fs, ReadUrl(o, req), BackupDir(cfg), Hardened)
    ensures req.directory.Some? && o.sanitizeTextField(req.directory.value) != "custom" ==>
      Handle(cfg, o, fs, req) == SaveRun(cfg, o, fs, ReadUrl(o, req), o.sanitizeTextField(req.directory.value), Hardened)
    ensures req.directory.Some? && o.sanitizeTextField(req.directory.value) == "" ==>
      Handle(cfg, o, fs, req).calls[0] == Exists("/")
  {
    if req.directory.Some? && o.sanitizeTextField(req.directory.value) == "" {
      SaveDirectoryFirst(cfg, o, fs, ReadUrl(o, req), "", Hardened);
      assert TrailingSlashIt("") == "/";
    }
  }

  /**
   * Once the directory is resolved, wp_mkdir_p is called exactly when its
   * normalised form is absent; failing to create it, or finding it not
   * writable, ends the request with a bare message naming that directory
   * and no fetch.
   */
  lemma DirectoryChecks(cfg: Config, o: Oracles, fs: Fs, req: Request)
    requires CheckUrl(o, ReadUrl(o, req)).None?
    requires ResolveDirectory(cfg, o, req).Ok?
    ensures var d := TrailingSlashIt(ResolveDirectory(cfg, o, req).value);
      var r := Handle(cfg, o, fs, req);
      && r.calls[0] == Exists(d)
      && (Mkdir(d) in r.calls <==> d !in fs.present)
      && (d !in fs.present && !o.mkdirSucceeds(d) ==> r.outcome == Rejected(CreateFailed(d)) && forall c :: c in r.calls ==> !c.Get?)
      && ((d in fs.present || o.mkdirSucceeds(d)) && d !in fs.writable ==>
            r.outcome == Rejected(NotWritable(d)) && forall c :: c in r.calls ==> !c.Get?)
  {
    var d := TrailingSlashIt(ResolveDirectory(cfg, o, req).value);
    SaveDirectoryFirst(cfg, o, fs, ReadUrl(o, req), ResolveDirectory(cfg, o, req).value, Hardened);
    PrepareErrors(o, fs, d);
  }

  /**
   * A request ends in a bare message exactly when no fetch was made. Once
   * fetched, a WP_Error is reported before the status is looked at and any
   * other status than 200 is reported with its code, and every outcome
   * carries the debug payload: the url, the normalised directory and
   * directory ++ filename as the file path.
   */
  lemma DebugOnlyAfterFetch(cfg: Config, o: Oracles, fs: Fs, req: Request)
    ensures var r := Handle(cfg, o, fs, req);
      && (r.outcome.Rejected? <==> forall c :: c in r.calls ==> !c.Get?)
      && (!r.outcome.Rejected? ==>
            && CheckUrl(o, ReadUrl(o, req)).None? && ResolveDirectory(cfg, o, req).Ok?
            && var url := ReadUrl(o, req);
               var d := TrailingSlashIt(ResolveDirectory(cfg, o, req).value);
               var resp := FetchOf(cfg, o, url, d, Hardened).response;
               && r.outcome.debug == DebugOf(url, d + Filename(o, url, d), d, resp)
               && (resp.WpError? ==> r.outcome == Failed(TransportFailed(resp.errorMessage), r.outcome.debug))
               && (resp.Reply? && resp.code != 200 ==> r.outcome == Failed(BadStatus(resp.code), r.outcome.debug)))
  {
    var url := ReadUrl(o, req);
    if CheckUrl(o, url).None? && ResolveDirectory(cfg, o, req).Ok? {
      var directory := ResolveDirectory(cfg, o, req).value;
      var d := TrailingSlashIt(directory);
      SaveRejectsOnlyOnDirectory(cfg, o, fs, url, directory, Hardened);
      SaveDirectoryFirst(cfg, o, fs, url, directory, Hardened);
      FetchCallsAndDebug(cfg, o, PrepareRun(o, fs, d).fs, url, d, Hardened);
      FetchErrorsBeforeProbes(cfg, o, PrepareRun(o, fs, d).fs, url, d, Hardened);
    }
  }

  /**
   * The request succeeds exactly when the URL passes, the directory
   * resolves, its normalised form exists or is created and is writable, and
   * the fetch verifies (status 200, file present and readable, truthy
   * Content-Length equal to filesize). A success carries the file name
   * wp_unique_filename chose and directory ++ filename as its path.
   */
  lemma SucceedsIff(cfg: Config, o: Oracles, fs: Fs, req: Request)
    ensures var r := Handle(cfg, o, fs, req); var url := ReadUrl(o, req);
      && (r.outcome.Succeeded? <==>
            && CheckUrl(o, url).None?
            && ResolveDirectory(cfg, o, req).Ok?
            && var d := TrailingSlashIt(ResolveDirectory(cfg, o, req).value);
               && (d in fs.present || o.mkdirSucceeds(d)) && d in fs.writable
               && FetchVerified(cfg, o, PrepareRun(o, fs, d).fs, url, d, Hardened))
      && (r.outcome.Succeeded? ==>
            var d := TrailingSlashIt(ResolveDirectory(cfg, o, req).value);
            && r.outcome.filename == Filename(o, url, d)
            && r.outcome.filepath == d + r.outcome.filename
            && r.outcome.debug.filepath == r.outcome.filepath)
  {
    var url := ReadUrl(o, req);
    if CheckUrl(o, url).None? && ResolveDirectory(cfg, o, req).Ok? {
      var directory := ResolveDirectory(cfg, o, req).value;
      var d := TrailingSlashIt(directory);
      PrepareErrors(o, fs, d);
      SaveDirectoryFirst(cfg, o, fs, url, directory, Hardened);
      FetchSucceedsIff(cfg, o, PrepareRun(o, fs, d).fs, url, d, Hardened);
    }
  }
}
