/**
 * The two handlers side by side: for an ordinary directory token and a
 * server that answers both option sets alike, the hardened handler accepts
 * no download the permissive one refuses, while the permissive one accepts
 * a truncated download the hardened one refuses.
 */
module Variants {
  import opened Wrappers
  import opened PhpStrings
  import opened Environment
  import opened Report
  import opened Pipeline
  import RemoteDataPuller
  import MigrationDataPuller

  /**
   * Every success of the hardened handler is, for a token other than
   * 'custom' and a server that answers both option sets alike, the very
   * same success of the permissive handler.
   */
  lemma HardenedSuccessIsPermissiveSuccess(cfg: Config, o: Oracles, fs: Fs, req: Request)
    requires ReadDirectory(cfg, o, req) != "custom"
    requires var url := ReadUrl(o, req); var d := TrailingSlashIt(ReadDirectory(cfg, o, req));
      FetchOf(cfg, o, url, d, Hardened) == FetchOf(cfg, o, url, d, Permissive)
    ensures var hardened := RemoteDataPuller.Handle(cfg, o, fs, req).outcome;
      hardened.Succeeded? ==> MigrationDataPuller.Handle(cfg, o, fs, req).outcome == hardened
  {
    var url := ReadUrl(o, req);
    var d := TrailingSlashIt(ReadDirectory(cfg, o, req));
    RemoteDataPuller.SucceedsIff(cfg, o, fs, req);
    MigrationDataPuller.SucceedsIff(cfg, o, fs, req);
    if CheckUrl(o, url).None? {
      var p := PrepareRun(o, fs, d);
      FetchSucceedsIff(cfg, o, p.fs, url, d, Hardened);
      FetchSucceedsIff(cfg, o, p.fs, url, d, Permissive);
    }
  }

  /** A server that announces five bytes and leaves a readable file of four. */
  function TruncatingOracles(): Oracles
  {
    Oracles(s => s, s => s, s => true, s => true, (dir, name) => "backup.wpress",
            (u, a) => Fetched(Reply(200, "OK", map["content-length" := "5"]), Some(Stored(true, 4))))
  }

  function SampleConfig(): Config
  {
    Config("/var/www/", "/var/www/wp-content", "6.4", "https://site.example")
  }

  /** An existing, writable "/tmp/" and nothing else. */
  function SampleFs(): Fs
  {
    Fs({"/tmp/"}, {"/tmp/"}, {}, map[])
  }

  function SampleRequest(): Request
  {
    Request(Some("https://a.example/b"), Some("/tmp"), None)
  }

  /**
   * The fetch stage against any server that answers every request with a 200
   * announcing five bytes and leaves a readable file of four: the hardened
   * options report the size mismatch, the permissive ones report success.
   */
  lemma TruncatedFetchAny(cfg: Config, o: Oracles, fs: Fs, url: string, d: string)
    requires forall u, a :: o.remoteGet(u, a) == Fetched(Reply(200, "OK", map["content-length" := "5"]), Some(Stored(true, 4)))
    ensures var hardened := FetchRun(cfg, o, fs, url, d, Hardened).outcome;
      hardened.Failed? && hardened.message == SizeMismatch
    ensures FetchRun(cfg, o, fs, url, d, Permissive).outcome.Succeeded?
  {
    assert DecimalString(5) == "5";
    IntCastDecimalString(5);
    FetchSucceedsIff(cfg, o, fs, url, d, Permissive);
    FetchSizeMismatch(cfg, o, fs, url, d);
  }

  /** The fetch stage of the truncated download, for both option sets. */
  lemma TruncatedFetch()
    ensures var url := "https://a.example/b";
      var hardened := FetchRun(SampleConfig(), TruncatingOracles(), SampleFs(), url, "/tmp/", Hardened).outcome;
      && hardened.Failed? && hardened.message == SizeMismatch
      && FetchRun(SampleConfig(), TruncatingOracles(), SampleFs(), url, "/tmp/", Permissive).outcome.Succeeded?
  {
    TruncatedFetchAny(SampleConfig(), TruncatingOracles(), SampleFs(), "https://a.example/b", "/tmp/");
  }

  /** Up to the fetch both handlers take the same path on the sample request: "/tmp" becomes "/tmp/", which is ready. */
  lemma SampleReachesFetch(v: Variant)
    ensures var url := "https://a.example/b";
      var fetch := FetchRun(SampleConfig(), TruncatingOracles(), SampleFs(), url, "/tmp/", v).outcome;
      && (v.Hardened? ==> RemoteDataPuller.Handle(SampleConfig(), TruncatingOracles(), SampleFs(), SampleRequest()).outcome == fetch)
      && (v.Permissive? ==> MigrationDataPuller.Handle(SampleConfig(), TruncatingOracles(), SampleFs(), SampleRequest()).outcome == fetch)
  {
    var o, req := TruncatingOracles(), SampleRequest();
    var url := ReadUrl(o, req);
    assert url == "https://a.example/b" && !Empty(url);
    assert CheckUrl(o, url).None?;
    assert ReadDirectory(SampleConfig(), o, req) == "/tmp";
    assert RTrim("/tmp", Separators) == "/tmp";
    assert TrailingSlashIt("/tmp") == "/tmp/";
    assert PrepareRun(o, SampleFs(), "/tmp/").error.None? && PrepareRun(o, SampleFs(), "/tmp/").fs == SampleFs();
    SaveDirectoryFirst(SampleConfig(), o, SampleFs(), url, "/tmp", v);
  }

  /**
   * A truncated download into an existing writable "/tmp/": the hardened
   * handler reports the size mismatch, the permissive one reports success.
   */
  lemma TruncatedDownloadOnlyCaughtByHardened()
    ensures var hardened := RemoteDataPuller.Handle(SampleConfig(), TruncatingOracles(), SampleFs(), SampleRequest()).outcome;
      && hardened.Failed? && hardened.message == SizeMismatch
      && MigrationDataPuller.Handle(SampleConfig(), TruncatingOracles(), SampleFs(), SampleRequest()).outcome.Succeeded?
  {
    TruncatedFetch();
    SampleReachesFetch(Hardened);
    SampleReachesFetch(Permissive);
  }
}
