/**
 * download_file of migration-data-puller.php, the permissive handler: the
 * URL checks, then the posted directory token used as given (there is no
 * 'custom' branch and no ".." refusal), the shared normalise / prepare /
 * fetch / verify stages with only the basic wp_remote_get options, and no
 * size check.
 */
module MigrationDataPuller {
  import opened Wrappers
  import opened PhpStrings
  import opened Environment
  import opened Report
  import opened Pipeline

  /** The whole request: outcome, final filesystem and the host calls made, in order. */
  function Handle(cfg: Config, o: Oracles, fs: Fs, req: Request): Run
  {
    var url := ReadUrl(o, req);
    match CheckUrl(o, url)
    case Some(m) => Run(Rejected(m), fs, [])
    case None => SaveRun(cfg, o, fs, url, ReadDirectory(cfg, o, req), Permissive)
  }

  /** download_file performed on the host; every return is a wp_send_json_* that ends the request. */
  method DownloadFile(cfg: Config, host: Host, req: Request) returns (out: Outcome)
    modifies host
    ensures var r := Handle(cfg, host.oracles, old(host.fs), req);
      out == r.outcome && host.fs == r.fs && host.calls == old(host.calls) + r.calls
  {
    ghost var spec := Handle(cfg, host.oracles, host.fs, req);
    var url := if req.url.Some? then host.oracles.escUrlRaw(req.url.value) else "";
    var directory := if req.directory.Some? then host.oracles.sanitizeTextField(req.directory.value) else BackupDir(cfg);
    assert url == ReadUrl(host.oracles, req) && directory == ReadDirectory(cfg, host.oracles, req);
    if Empty(url) {
      assert spec == Run(Rejected(MissingUrl), host.fs, []);
      return Rejected(MissingUrl);
    }
    if !host.oracles.validUrl(url) {
      assert spec == Run(Rejected(InvalidUrlFormat), host.fs, []);
      return Rejected(InvalidUrlFormat);
    }
    assert spec == SaveRun(cfg, host.oracles, host.fs, url, directory, Permissive);
    out := Save(cfg, host, url, directory, Permissive);
  }

  /**
   * An empty() URL (also one not posted) fails with "Please provide a valid
   * URL", and a URL filter_var rejects with "Invalid URL format"; either way
   * no host call is made and the filesystem is unchanged.
   */
  lemma UrlRejectedBeforeAnyIo(cfg: Config, o: Oracles, fs: Fs, req: Request)
    ensures var url := ReadUrl(o, req); var r := Handle(cfg, o, fs, req);
      && (req.url.None? ==> r == Run(Rejected(MissingUrl), fs, []))
      && (Empty(url) ==> r == Run(Rejected(MissingUrl), fs, []))
      && (!Empty(url) && !o.validUrl(url) ==> r == Run(Rejected(InvalidUrlFormat), fs, []))
  {
  }

  /**
   * Once the URL passed, the first host call probes the normalised token:
   * the backup directory only when the key is absent, "/" for a posted empty
   * token, and "custom/" for the token 'custom', which gets no special
   * treatment here.
   */
  lemma TokenUsedAsGiven(cfg: Config, o: Oracles, fs: Fs, req: Request)
    requires CheckUrl(o, ReadUrl(o, req)).None?
    ensures var r := Handle(cfg, o, fs, req);
      && r == SaveRun(cfg, o, fs, ReadUrl(o, req), ReadDirectory(cfg, o, req), Permissive)
      && (req.directory.None? ==> r.calls[0] == Exists(TrailingSlashIt(BackupDir(cfg))))
      && (req.directory.Some? && o.sanitizeTextField(req.directory.value) == "" ==> r.calls[0] == Exists("/"))
      && (req.directory.Some? && o.sanitizeTextField(req.directory.value) == "custom" ==> r.calls[0] == Exists("custom/"))
  {
    var token := ReadDirectory(cfg, o, req);
    SaveDirectoryFirst(cfg, o, fs, ReadUrl(o, req), token, Permissive);
    if token == "" {
      assert TrailingSlashIt(token) == "/";
    } else if token == "custom" {
      assert RTrim(token, Separators) == token;
      assert TrailingSlashIt(token) == "custom/";
    }
  }

  /**
   * Once the URL passed, wp_mkdir_p is called exactly when the normalised
   * directory is absent; failing to create it, or finding it not writable,
   * ends the request with a bare message naming that directory and no fetch.
   */
  lemma DirectoryChecks(cfg: Config, o: Oracles, fs: Fs, req: Request)
    requires CheckUrl(o, ReadUrl(o, req)).None?
    ensures var d := TrailingSlashIt(ReadDirectory(cfg, o, req));
      var r := Handle(cfg, o, fs, req);
      && r.calls[0] == Exists(d)
      && (Mkdir(d) in r.calls <==> d !in fs.present)
      && (d !in fs.present && !o.mkdirSucceeds(d) ==> r.outcome == Rejected(CreateFailed(d)) && forall c :: c in r.calls ==> !c.Get?)
      && ((d in fs.present || o.mkdirSucceeds(d)) && d !in fs.writable ==>
            r.outcome == Rejected(NotWritable(d)) && forall c :: c in r.calls ==> !c.Get?)
  {
    var d := TrailingSlashIt(ReadDirectory(cfg, o, req));
    SaveDirectoryFirst(cfg, o, fs, ReadUrl(o, req), ReadDirectory(cfg, o, req), Permissive);
    PrepareErrors(o, fs, d);
  }

  /**
   * The bare messages of this handler are the two URL messages and the two
   * directory messages; it never refuses a directory path, never asks for a
   * custom path, never calls filesize and never reports a size mismatch.
   */
  lemma OnlyUrlAndDirectoryRefusals(cfg: Config, o: Oracles, fs: Fs, req: Request)
    ensures var r := Handle(cfg, o, fs, req);
      var d := TrailingSlashIt(ReadDirectory(cfg, o, req));
      && (r.outcome.Rejected? ==>
            r.outcome.message in {MissingUrl, InvalidUrlFormat, CreateFailed(d), NotWritable(d)})
      && (forall c :: c in r.calls ==> !c.Size?)
      && !(r.outcome.Failed? && r.outcome.message == SizeMismatch)
  {
    var url := ReadUrl(o, req);
    if CheckUrl(o, url).None? {
      var directory := ReadDirectory(cfg, o, req);
      var d := TrailingSlashIt(directory);
      var p := PrepareRun(o, fs, d);
      SaveRejectsOnlyOnDirectory(cfg, o, fs, url, directory, Permissive);
      SaveDirectoryFirst(cfg, o, fs, url, directory, Permissive);
      if p.error.None? {
        var f := FetchRun(cfg, o, p.fs, url, d, Permissive);
        PermissiveNeverSizes(cfg, o, p.fs, url, d);
        assert forall c :: c in p.calls ==> !c.Size?;
        assert forall c :: c in p.calls + f.calls ==> c in p.calls || c in f.calls;
      }
    }
  }

  /**
   * A request ends in a bare message exactly when no fetch was made. Once
   * fetched, a WP_Error is reported before the status is looked at and any
   * other status than 200 is reported with its code, and every outcome
   * carries the debug payload: the url, the normalised directory and
   * directory ++ filename as the file path.
   */
  lemma DebugOnlyAfterFetch(cfg: Config, o: Oracles, fs: Fs, req: Request)
    ensures var r := Handle(cfg, o, fs, req);
      && (r.outcome.Rejected? <==> forall c :: c in r.calls ==> !c.Get?)
      && (!r.outcome.Rejected? ==>
            && CheckUrl(o, ReadUrl(o, req)).None?
            && var url := ReadUrl(o, req);
               var d := TrailingSlashIt(ReadDirectory(cfg, o, req));
               var resp := FetchOf(cfg, o, url, d, Permissive).response;
               && r.outcome.debug == DebugOf(url, d + Filename(o, url, d), d, resp)
               && (resp.WpError? ==> r.outcome == Failed(TransportFailed(resp.errorMessage), r.outcome.debug))
               && (resp.Reply? && resp.code != 200 ==> r.outcome == Failed(BadStatus(resp.code), r.outcome.debug)))
  {
    var url := ReadUrl(o, req);
    if CheckUrl(o, url).None? {
      var directory := ReadDirectory(cfg, o, req);
      var d := TrailingSlashIt(directory);
      SaveRejectsOnlyOnDirectory(cfg, o, fs, url, directory, Permissive);
      SaveDirectoryFirst(cfg, o, fs, url, directory, Permissive);
      FetchCallsAndDebug(cfg, o, PrepareRun(o, fs, d).fs, url, d, Permissive);
      FetchErrorsBeforeProbes(cfg, o, PrepareRun(o, fs, d).fs, url, d, Permissive);
    }
  }

  /**
   * The request succeeds exactly when the URL passes, the normalised
   * directory exists or is created and is writable, and the fetch verifies
   * (status 200, file present and readable). A success carries the file
   * name wp_unique_filename chose and directory ++ filename as its path.
   */
  lemma SucceedsIff(cfg: Config, o: Oracles, fs: Fs, req: Request)
    ensures var r := Handle(cfg, o, fs, req); var url := ReadUrl(o, req);
      var d := TrailingSlashIt(ReadDirectory(cfg, o, req));
      && (r.outcome.Succeeded? <==>
            && CheckUrl(o, url).None?
            && (d in fs.present || o.mkdirSucceeds(d)) && d in fs.writable
            && FetchVerified(cfg, o, PrepareRun(o, fs, d).fs, url, d, Permissive))
      && (r.outcome.Succeeded? ==>
            && r.outcome.filename == Filename(o, url, d)
            && r.outcome.filepath == d + r.outcome.filename
            && r.outcome.debug.filepath == r.outcome.filepath)
  {
    var url := ReadUrl(o, req);
    if CheckUrl(o, url).None? {
      var directory := ReadDirectory(cfg, o, req);
      var d := TrailingSlashIt(directory);
      PrepareErrors(o, fs, d);
      SaveDirectoryFirst(cfg, o, fs, url, directory, Permissive);
      FetchSucceedsIff(cfg, o, PrepareRun(o, fs, d).fs, url, d, Permissive);
    }
  }
}
