/**
 * The stages both download_file handlers share, in the order they run:
 * reading the posted fields, the URL checks, directory normalisation and
 * preparation (create if absent, then writability), and the fetch with its
 * verification. Each stage is a function of the oracles and the filesystem
 * that returns the outcome, the new filesystem and the host calls made, and
 * a method that performs the same stage on a Host.
 */
module Pipeline {
  import opened Wrappers
  import opened PhpStrings
  import opened Environment
  import opened Report

  /** The two handlers: wordpress-remote-data-puller (hardened) and migration-data-puller (permissive). */
  datatype Variant = Hardened | Permissive

  /** Where a stage left the request: its outcome, the filesystem, and the host calls it made, in order. */
  datatype Run = Run(outcome: Outcome, fs: Fs, calls: seq<Call>)

  /** WRDP_BACKUP_DIR and MDP_BACKUP_DIR: WP_CONTENT_DIR . '/ai1wm-backups'. */
  function BackupDir(cfg: Config): string
  {
    cfg.wpContentDir + "/ai1wm-backups"
  }

  /** $url: esc_url_raw of the posted url, '' when none is posted. */
  function ReadUrl(o: Oracles, req: Request): string
  {
    if req.url.Some? then o.escUrlRaw(req.url.value) else ""
  }

  /** $directory as first read: the sanitized posted value, the backup directory only when the key is absent. */
  function ReadDirectory(cfg: Config, o: Oracles, req: Request): string
  {
    if req.directory.Some? then o.sanitizeTextField(req.directory.value) else BackupDir(cfg)
  }

  /** The URL checks, in order: empty() first, then filter_var. */
  function CheckUrl(o: Oracles, url: string): (m: Option<Message>)
    ensures m == Some(MissingUrl) <==> Empty(url)
    ensures m == Some(InvalidUrlFormat) <==> !Empty(url) && !o.validUrl(url)
    ensures m.None? <==> !Empty(url) && o.validUrl(url)
  {
    if Empty(url) then Some(MissingUrl)
    else if !o.validUrl(url) then Some(InvalidUrlFormat)
    else None
  }

  /** What preparing a directory ended with: the error to send, if any, the filesystem and the calls made. */
  datatype Prepared = Prepared(error: Option<Message>, fs: Fs, calls: seq<Call>)

  /**
   * Preparing the normalised directory d: file_exists, then wp_mkdir_p only
   * when d is absent, then is_writable unless creation failed.
   */
  function PrepareRun(o: Oracles, fs: Fs, d: string): Prepared
  {
    if d in fs.present then
      Prepared(if d in fs.writable then None else Some(NotWritable(d)), fs, [Exists(d), Writable(d)])
    else if !o.mkdirSucceeds(d) then
      Prepared(Some(CreateFailed(d)), fs, [Exists(d), Mkdir(d)])
    else
      var fs1 := Created(fs, d);
      Prepared(if d in fs1.writable then None else Some(NotWritable(d)), fs1, [Exists(d), Mkdir(d), Writable(d)])
  }

  /** The preparation stage performed on the host. */
  method PrepareDirectory(host: Host, d: string) returns (error: Option<Message>)
    modifies host
    ensures var p := PrepareRun(host.oracles, old(host.fs), d);
      error == p.error && host.fs == p.fs && host.calls == old(host.calls) + p.calls
  {
    var present := host.FileExists(d);
    if !present {
      var made := host.MkdirP(d);
      if !made {
        return Some(CreateFailed(d));
      }
    }
    var writable := host.IsWritable(d);
    if !writable {
      return Some(NotWritable(d));
    }
    return None;
  }

  /** wp_mkdir_p is called exactly when the directory is absent; a present directory is left as it is. */
  lemma PrepareMkdirOnlyWhenAbsent(o: Oracles, fs: Fs, d: string)
    ensures var p := PrepareRun(o, fs, d);
      (Mkdir(d) in p.calls <==> d !in fs.present) && (d in fs.present ==> p.fs == fs) && p.calls[0] == Exists(d)
  {
  }

  /**
   * The errors of the preparation stage and when each occurs; both name the
   * directory. When there is none, the directory exists and is writable.
   */
  lemma PrepareErrors(o: Oracles, fs: Fs, d: string)
    ensures var p := PrepareRun(o, fs, d);
      && (p.error == Some(CreateFailed(d)) <==> d !in fs.present && !o.mkdirSucceeds(d))
      && (p.error == Some(NotWritable(d)) <==> (d in fs.present || o.mkdirSucceeds(d)) && d !in fs.writable)
      && (p.error.Some? ==> p.error == Some(CreateFailed(d)) || p.error == Some(NotWritable(d)))
      && (p.error.None? <==> d in p.fs.present && d in p.fs.writable)
  {
  }

  /**
   * Preparing a directory again once it succeeded changes nothing and does
   * not call wp_mkdir_p: only file_exists and is_writable are asked.
   */
  lemma PrepareIdempotent(o: Oracles, fs: Fs, d: string)
    requires PrepareRun(o, fs, d).error.None?
    ensures var p := PrepareRun(o, fs, d);
      PrepareRun(o, p.fs, d) == Prepared(None, p.fs, [Exists(d), Writable(d)])
  {
  }

  /** The options array each handler passes to wp_remote_get for target path p. */
  function DownloadArgs(cfg: Config, v: Variant, p: string): (a: Args)
    ensures a.timeout == 300 && a.stream && a.filename == p
    ensures a.headers.accept == "application/octet-stream"
    ensures v.Hardened? <==> a.headers.userAgent.Some?
    ensures v.Hardened? ==> a.headers.userAgent == Some("WordPress/" + cfg.version + "; " + cfg.siteUrl)
    ensures v.Hardened? ==> a.sslverify == Some(true) && a.redirection == Some(5) && a.rejectUnsafeUrls == Some(true)
    ensures v.Permissive? ==> a.sslverify.None? && a.redirection.None? && a.rejectUnsafeUrls.None?
  {
    match v
    case Hardened =>
      Args(300, true, p,
           RequestHeaders("application/octet-stream", Some("WordPress/" + cfg.version + "; " + cfg.siteUrl)),
           Some(true), Some(5), Some(true))
    case Permissive =>
      Args(300, true, p, RequestHeaders("application/octet-stream", None), None, None, None)
  }

  /** The name wp_unique_filename picks in d for the basename of url. */
  function Filename(o: Oracles, url: string, d: string): string
  {
    o.uniqueFilename(d, Basename(url))
  }

  /** What wp_remote_get answers and stores when fetching url into d. */
  function FetchOf(cfg: Config, o: Oracles, url: string, d: string, v: Variant): Fetched
  {
    o.remoteGet(url, DownloadArgs(cfg, v, d + Filename(o, url, d)))
  }

  /** How the checks after the fetch ended, and the host calls they made. */
  datatype Checked = Checked(outcome: Outcome, calls: seq<Call>)

  /**
   * The checks after the fetch, in order: the WP_Error, the status, file
   * existence then readability, and (hardened only) a truthy Content-Length
   * against filesize. fs is the filesystem after the download.
   */
  function VerifyRun(fs: Fs, r: Response, filename: string, filepath: string, debug: DebugInfo, v: Variant): Checked
  {
    if r.WpError? then
      Checked(Failed(TransportFailed(r.errorMessage), debug), [])
    else if r.code != 200 then
      Checked(Failed(BadStatus(r.code), debug), [])
    else if filepath !in fs.present then
      Checked(Failed(NotAccessible, debug), [Exists(filepath)])
    else if filepath !in fs.readable then
      Checked(Failed(NotAccessible, debug), [Exists(filepath), Readable(filepath)])
    else if v.Hardened? && !Empty(Header(r, "content-length")) then
      Checked(if FileSize(fs, filepath) != Some(IntCast(Header(r, "content-length")))
              then Failed(SizeMismatch, debug)
              else Succeeded(Downloaded, filename, filepath, debug),
              [Exists(filepath), Readable(filepath), Size(filepath)])
    else
      Checked(Succeeded(Downloaded, filename, filepath, debug), [Exists(filepath), Readable(filepath)])
  }

  /** The checks after the fetch, performed on the host. */
  method Verify(host: Host, r: Response, filename: string, filepath: string, debug: DebugInfo, v: Variant)
    returns (out: Outcome)
    modifies host
    ensures var c := VerifyRun(old(host.fs), r, filename, filepath, debug, v);
      out == c.outcome && host.fs == old(host.fs) && host.calls == old(host.calls) + c.calls
  {
    if r.WpError? {
      return Failed(TransportFailed(r.errorMessage), debug);
    }
    if r.code != 200 {
      return Failed(BadStatus(r.code), debug);
    }
    ghost var calls0 := host.calls;
    var present := host.FileExists(filepath);
    if !present {
      return Failed(NotAccessible, debug);
    }
    var readable := host.IsReadable(filepath);
    assert host.calls == calls0 + [Exists(filepath), Readable(filepath)];
    if !readable {
      return Failed(NotAccessible, debug);
    }
    var contentLength := Header(r, "content-length");
    if v.Hardened? && !Empty(contentLength) {
      var size := host.Filesize(filepath);
      assert host.calls == calls0 + [Exists(filepath), Readable(filepath), Size(filepath)];
      if size != Some(IntCast(contentLength)) {
        return Failed(SizeMismatch, debug);
      }
    }
    return Succeeded(Downloaded, filename, filepath, debug);
  }

  /**
   * Fetching url into the prepared directory d: pick the file name, fetch to
   * d ++ filename, build the debug payload, then verify.
   */
  function FetchRun(cfg: Config, o: Oracles, fs: Fs, url: string, d: string, v: Variant): Run
  {
    var filename := Filename(o, url, d);
    var filepath := d + filename;
    var f := FetchOf(cfg, o, url, d, v);
    var fs1 := Store(fs, filepath, f.stored);
    var c := VerifyRun(fs1, f.response, filename, filepath, DebugOf(url, filepath, d, f.response), v);
    Run(c.outcome, fs1, [PickName(d, Basename(url)), Get(url, DownloadArgs(cfg, v, filepath))] + c.calls)
  }

  /** Appending two stages' calls to the log one after the other appends their concatenation. */
  lemma LogAppend(log: seq<Call>, first: seq<Call>, second: seq<Call>)
    ensures (log + first) + second == log + (first + second)
  {
  }

  /** The fetch stage performed on the host. */
  method FetchAndVerify(cfg: Config, host: Host, url: string, d: string, v: Variant) returns (out: Outcome)
    modifies host
    ensures var r := FetchRun(cfg, host.oracles, old(host.fs), url, d, v);
      out == r.outcome && host.fs == r.fs && host.calls == old(host.calls) + r.calls
  {
    ghost var fs0, calls0 := host.fs, host.calls;
    var filename := host.UniqueFilename(d, Basename(url));
    var filepath := d + filename;
    var response := host.RemoteGet(url, DownloadArgs(cfg, v, filepath));
    ghost var f := FetchOf(cfg, host.oracles, url, d, v);
    assert filename == Filename(host.oracles, url, d);
    assert response == f.response && host.fs == Store(fs0, filepath, f.stored);
    ghost var fetched := [PickName(d, Basename(url)), Get(url, DownloadArgs(cfg, v, filepath))];
    assert host.calls == calls0 + fetched;
    var debug := DebugOf(url, filepath, d, response);
    out := Verify(host, response, filename, filepath, debug, v);
    LogAppend(calls0, fetched, VerifyRun(Store(fs0, filepath, f.stored), response, filename, filepath, debug, v).calls);
  }

  /**
   * The fetch stage always starts with wp_unique_filename and makes exactly
   * one wp_remote_get, with the variant's options, to directory ++ filename;
   * it never ends in a bare message, and its debug payload names the url,
   * the file path and the directory.
   */
  lemma FetchCallsAndDebug(cfg: Config, o: Oracles, fs: Fs, url: string, d: string, v: Variant)
    ensures var r := FetchRun(cfg, o, fs, url, d, v);
      var filepath := d + Filename(o, url, d);
      && 2 <= |r.calls|
      && r.calls[0] == PickName(d, Basename(url))
      && r.calls[1] == Get(url, DownloadArgs(cfg, v, filepath))
      && (forall i :: 2 <= i < |r.calls| ==> !r.calls[i].Get? && !r.calls[i].Mkdir?)
      && !r.outcome.Rejected?
      && r.outcome.debug == DebugOf(url, filepath, d, FetchOf(cfg, o, url, d, v).response)
  {
    var filepath := d + Filename(o, url, d);
    var f := FetchOf(cfg, o, url, d, v);
    var debug := DebugOf(url, filepath, d, f.response);
    var c := VerifyRun(Store(fs, filepath, f.stored), f.response, Filename(o, url, d), filepath, debug, v);
    VerifyKeepsDebug(Store(fs, filepath, f.stored), f.response, Filename(o, url, d), filepath, debug, v);
    var r := FetchRun(cfg, o, fs, url, d, v);
    assert r.calls == [PickName(d, Basename(url)), Get(url, DownloadArgs(cfg, v, filepath))] + c.calls;
    assert r.outcome == c.outcome;
  }

  /** The checks after the fetch only probe the file, and end with the debug payload they were given. */
  lemma VerifyKeepsDebug(fs: Fs, r: Response, filename: string, filepath: string, debug: DebugInfo, v: Variant)
    ensures var c := VerifyRun(fs, r, filename, filepath, debug, v);
      && !c.outcome.Rejected? && c.outcome.debug == debug
      && forall i :: 0 <= i < |c.calls| ==> !c.calls[i].Get? && !c.calls[i].Mkdir?
  {
    if r.Reply? && r.code == 200 && filepath in fs.present && filepath in fs.readable {
      var c := VerifyRun(fs, r, filename, filepath, debug, v);
      assert forall i :: 0 <= i < |c.calls| ==> c.calls[i] in {Exists(filepath), Readable(filepath), Size(filepath)};
    }
  }

  /**
   * A WP_Error is reported before the status is looked at, and a status
   * other than 200 is reported with that code; in both cases nothing is
   * probed after the fetch.
   */
  lemma FetchErrorsBeforeProbes(cfg: Config, o: Oracles, fs: Fs, url: string, d: string, v: Variant)
    ensures var r := FetchRun(cfg, o, fs, url, d, v);
      var resp := FetchOf(cfg, o, url, d, v).response;
      && (resp.WpError? ==> r.outcome.Failed? && r.outcome.message == TransportFailed(resp.errorMessage) && |r.calls| == 2)
      && (resp.Reply? && resp.code != 200 ==> r.outcome.Failed? && r.outcome.message == BadStatus(resp.code) && |r.calls| == 2)
      && (r.outcome.Succeeded? ==> resp.Reply? && resp.code == 200)
  {
  }

  /**
   * The success condition of the fetch stage, stated flat: status 200, the
   * file exists and is readable after the download, and, for the hardened
   * handler only, a truthy Content-Length equals filesize.
   */
  predicate FetchVerified(cfg: Config, o: Oracles, fs: Fs, url: string, d: string, v: Variant)
  {
    var filepath := d + Filename(o, url, d);
    var f := FetchOf(cfg, o, url, d, v);
    var fs1 := Store(fs, filepath, f.stored);
    var contentLength := Header(f.response, "content-length");
    && f.response.Reply? && f.response.code == 200
    && filepath in fs1.present && filepath in fs1.readable
    && (v.Hardened? && !Empty(contentLength) ==> FileSize(fs1, filepath) == Some(IntCast(contentLength)))
  }

  /**
   * The fetch stage succeeds exactly when FetchVerified holds. A success
   * carries the chosen file name, directory ++ filename as its path, and the
   * debug payload; the filesystem is the one the download left.
   */
  lemma FetchSucceedsIff(cfg: Config, o: Oracles, fs: Fs, url: string, d: string, v: Variant)
    ensures var r := FetchRun(cfg, o, fs, url, d, v);
      var filename := Filename(o, url, d);
      var filepath := d + filename;
      var f := FetchOf(cfg, o, url, d, v);
      && (r.outcome.Succeeded? <==> FetchVerified(cfg, o, fs, url, d, v))
      && (r.outcome.Succeeded? ==>
            r.outcome == Succeeded(Downloaded, filename, filepath, DebugOf(url, filepath, d, f.response)))
      && r.fs == Store(fs, filepath, f.stored)
  {
  }

  /** The permissive handler never calls filesize: no size comparison is made. */
  lemma PermissiveNeverSizes(cfg: Config, o: Oracles, fs: Fs, url: string, d: string)
    ensures forall c :: c in FetchRun(cfg, o, fs, url, d, Permissive).calls ==> !c.Size?
  {
  }

  /**
   * A file that exists and is readable after a 200 fails the hardened
   * handler with the size message exactly when a truthy Content-Length
   * differs from filesize (a missing file size counts as different).
   */
  lemma FetchSizeMismatch(cfg: Config, o: Oracles, fs: Fs, url: string, d: string)
    ensures var r := FetchRun(cfg, o, fs, url, d, Hardened);
      var filepath := d + Filename(o, url, d);
      var f := FetchOf(cfg, o, url, d, Hardened);
      var fs1 := Store(fs, filepath, f.stored);
      var contentLength := Header(f.response, "content-length");
      (r.outcome.Failed? && r.outcome.message == SizeMismatch) <==>
        && f.response.Reply? && f.response.code == 200
        && filepath in fs1.present && filepath in fs1.readable
        && !Empty(contentLength) && FileSize(fs1, filepath) != Some(IntCast(contentLength))
  {
  }

  /**
   * Everything after the directory is chosen (normalise, prepare, fetch, verify):
   * the part of download_file both handlers run alike.
   */
  function SaveRun(cfg: Config, o: Oracles, fs: Fs, url: string, directory: string, v: Variant): Run
  {
    var d := TrailingSlashIt(directory);
    var p := PrepareRun(o, fs, d);
    if p.error.Some? then
      Run(Rejected(p.error.value), p.fs, p.calls)
    else
      var f := FetchRun(cfg, o, p.fs, url, d, v);
      Run(f.outcome, f.fs, p.calls + f.calls)
  }

  /**
   * The steps from normalisation on, performed on the host; directory is
   * reassigned to its normalised form as the handlers do.
   */
  method Save(cfg: Config, host: Host, url: string, directory: string, v: Variant) returns (out: Outcome)
    modifies host
    ensures var r := SaveRun(cfg, host.oracles, old(host.fs), url, directory, v);
      out == r.outcome && host.fs == r.fs && host.calls == old(host.calls) + r.calls
  {
    ghost var fs0, calls0 := host.fs, host.calls;
    var dir := TrailingSlashIt(directory);
    var error := PrepareDirectory(host, dir);
    ghost var p := PrepareRun(host.oracles, fs0, dir);
    if error.Some? {
      assert SaveRun(cfg, host.oracles, fs0, url, directory, v) == Run(Rejected(error.value), p.fs, p.calls);
      return Rejected(error.value);
    }
    ghost var calls1 := host.calls;
    out := FetchAndVerify(cfg, host, url, dir, v);
    ghost var f := FetchRun(cfg, host.oracles, p.fs, url, dir, v);
    assert SaveRun(cfg, host.oracles, fs0, url, directory, v) == Run(f.outcome, f.fs, p.calls + f.calls);
    LogAppend(calls0, p.calls, f.calls);
  }

  /**
   * From normalisation on: every call is about the normalised directory
   * until the fetch; mkdir is called exactly when that directory is absent;
   * a directory failure ends in a bare message naming it with no fetch; and
   * the run is the fetch stage on the prepared filesystem otherwise.
   */
  lemma SaveDirectoryFirst(cfg: Config, o: Oracles, fs: Fs, url: string, directory: string, v: Variant)
    ensures var r := SaveRun(cfg, o, fs, url, directory, v);
      var d := TrailingSlashIt(directory);
      var p := PrepareRun(o, fs, d);
      && r.calls[0] == Exists(d)
      && (Mkdir(d) in r.calls <==> d !in fs.present)
      && (p.error.Some? ==> r == Run(Rejected(p.error.value), p.fs, p.calls) && forall c :: c in r.calls ==> !c.Get?)
      && (p.error.None? ==> r == Run(FetchRun(cfg, o, p.fs, url, d, v).outcome, FetchRun(cfg, o, p.fs, url, d, v).fs,
                                     p.calls + FetchRun(cfg, o, p.fs, url, d, v).calls))
  {
    var r := SaveRun(cfg, o, fs, url, directory, v);
    var d := TrailingSlashIt(directory);
    var p := PrepareRun(o, fs, d);
    if p.error.None? {
      var f := FetchRun(cfg, o, p.fs, url, d, v);
      FetchCallsAndDebug(cfg, o, p.fs, url, d, v);
      assert forall i :: 0 <= i < |f.calls| ==> !f.calls[i].Mkdir?;
      assert r.calls == p.calls + f.calls;
      assert Mkdir(d) in r.calls <==> Mkdir(d) in p.calls;
    }
  }

  /**
   * The bare failures of this stage are exactly the two directory messages,
   * and then no fetch was made; a fetch was made exactly when the directory
   * was prepared.
   */
  lemma SaveRejectsOnlyOnDirectory(cfg: Config, o: Oracles, fs: Fs, url: string, directory: string, v: Variant)
    ensures var r := SaveRun(cfg, o, fs, url, directory, v);
      var d := TrailingSlashIt(directory);
      && (r.outcome.Rejected? ==> r.outcome.message == CreateFailed(d) || r.outcome.message == NotWritable(d))
      && (r.outcome.Rejected? <==> PrepareRun(o, fs, d).error.Some?)
      && (r.outcome.Rejected? <==> forall c :: c in r.calls ==> !c.Get?)
  {
    var d := TrailingSlashIt(directory);
    var p := PrepareRun(o, fs, d);
    PrepareErrors(o, fs, d);
    if p.error.None? {
      FetchCallsAndDebug(cfg, o, p.fs, url, d, v);
      var r := SaveRun(cfg, o, fs, url, directory, v);
      assert r.calls[|p.calls| + 1].Get?;
    }
  }
}
