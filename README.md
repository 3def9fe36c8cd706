# Remote data puller: the `download_file` handler

Two WordPress admin plugins each define and register their own AJAX
handler named `download_file`, in separate namespaces. The two handlers
are nearly identical. Each pulls a remote file (typically an All-in-One WP Migration `.wpress`
backup) over HTTP(S) into a directory on the server:

- `wordpress-remote-data-puller.php` holds the **hardened** variant. It accepts a
  `custom` directory under the WordPress root (`ABSPATH`) and refuses any
  custom path that contains `..`. It passes TLS verification, a redirect
  limit, a User-Agent and `reject_unsafe_urls` to `wp_remote_get`. After the
  download it compares a truthy `Content-Length` with `filesize`.
- `migration-data-puller.php` holds the **permissive** variant. It uses the
  posted directory token as given, with no custom branch and no `..`
  check. It sends only the basic fetch options and makes no size check.

The model follows the handler's steps:

1. read `url` and `directory`;
2. check the URL (`empty`, then `filter_var`);
3. for the hardened handler only, resolve the `custom` directory;
4. normalise with `trailingslashit`;
5. prepare the directory (`file_exists`, `wp_mkdir_p` only when absent,
   `is_writable`);
6. pick a name (`wp_unique_filename` of `basename($url)`) and fetch, streaming
   to `directory . filename`;
7. verify (WP_Error, status 200, exists and readable, and for the hardened
   handler the size).

The handler returns at the first failing step with a JSON error. Steps
from the fetch on also attach a `debug` payload.

Each stage is a specification function over an abstract host: `PrepareRun`,
`FetchRun`, `SaveRun`, and `Handle` per variant. Each function returns
the outcome, the final filesystem and the ordered log of host calls made.
Beside each function is an imperative module-level method taking a
`host: Host` parameter: `PrepareDirectory`, `Verify`, `FetchAndVerify`,
`Save` and the two `DownloadFile` methods. It performs the same steps
through the host calls, which are the methods of the `Environment.Host`
class, one at a time. The method's postcondition equates its outcome, its new `fs` and its
appended `calls` with the function. The call log lets "no directory is
touched and no fetch happens" be stated exactly.

The host's library functions are parameters, in `Environment.Oracles`:
`esc_url_raw`, `sanitize_text_field`, `filter_var(FILTER_VALIDATE_URL)`,
whether `wp_mkdir_p` succeeds, `wp_unique_filename` and `wp_remote_get`.
The filesystem is a value, `Fs`: the sets of present, writable and
readable paths and a size map. The PHP string built-ins the handler uses
are modelled in `PhpStrings`: `trim`/`ltrim`/`rtrim` with a character
list, `strpos`, `empty`, `trailingslashit`, `basename`, the `(int)` string
cast and `sprintf('%d')`.

Points where the code is followed rather than the plugins' descriptions:

- **Default directory.** The backup directory `WP_CONTENT_DIR . '/ai1wm-backups'`
  is used only when the `directory` key is absent. A posted empty token
  is kept and becomes `/` after `trailingslashit`.
- **Hardened `custom` branch.** The hardened plugin's script
  (`js/wordpress-remote-data-puller.js:37-44`) replaces the token `custom`
  with the typed path before posting, and never posts `custom_directory`.
  So the shipped page reaches this branch only when the typed path is
  itself `custom`. The model follows the PHP as written, whatever the
  client posts.

## Model

| member | source | states |
|---|---|---|
| PhpStrings.LTrim | wordpress-remote-data-puller.php:110 | the result is a suffix of the input, every dropped character is in the list, and the result does not start with one |
| PhpStrings.RTrim | wordpress-remote-data-puller.php:122 | the result is a prefix of the input, every dropped character is in the list, and the result does not end with one |
| PhpStrings.Trim | wordpress-remote-data-puller.php:110 | `trim($s, '/\\')` neither starts nor ends with a character of the list and is no longer than its input |
| PhpStrings.TrimIsInfix | wordpress-remote-data-puller.php:110 | what `trim` keeps is a contiguous infix of the input, and everything outside it is in the character list |
| PhpStrings.StrPos | wordpress-remote-data-puller.php:113 | `strpos` finds the first index where the needle occurs, and false exactly when it occurs nowhere |
| PhpStrings.Contains | wordpress-remote-data-puller.php:113 | definition of `strpos(...) !== false`; `StrPos` returns None exactly when it does not hold, and `TrimKeepsDotDot` and `InvalidDirectoryPathIff` use it |
| PhpStrings.TrimKeepsDotDot | wordpress-remote-data-puller.php:110-113 | the trimmed custom path contains `..` exactly when the untrimmed one does, so trimming cannot hide a traversal |
| PhpStrings.TrailingSlashIt | wordpress-remote-data-puller.php:122 | the normalised directory ends in exactly one `/`, and only trailing `/` and `\` were removed from a prefix of the input |
| PhpStrings.TrailingSlashItIdempotent | wordpress-remote-data-puller.php:122 | normalising an already normalised directory leaves it unchanged |
| PhpStrings.Empty | wordpress-remote-data-puller.php:93 | definition of `empty()` on a string: true for `""` and `"0"`; used at lines 93 and 105, its cases are in `CheckUrl` and `CustomPathChecks` |
| PhpStrings.Basename | wordpress-remote-data-puller.php:140 | definition of `basename`; its properties are in `BasenameIsLastSegment` |
| PhpStrings.IntCast | wordpress-remote-data-puller.php:197 | definition of the `(int)` string cast; its properties are in `IntCastDecimalString` and `DigitPrefix` |
| PhpStrings.DecimalString | wordpress-remote-data-puller.php:180 | `%d` of an integer starts with `-` exactly when the integer is negative, and the rest is a non-empty run of digits with no leading zero; reading it back is in `IntCastDecimalString` |
| PhpStrings.BasenameIsLastSegment | wordpress-remote-data-puller.php:140 | `basename($url)` holds no `/` and is the last segment of the URL after trailing `/` are dropped |
| PhpStrings.DigitPrefix | wordpress-remote-data-puller.php:197 | the `(int)` cast reads the longest run of digits at the front |
| PhpStrings.NatString | wordpress-remote-data-puller.php:180 | `%d` of a natural number is a nonempty digit string without leading zeros |
| PhpStrings.IntCastDecimalString | wordpress-remote-data-puller.php:180 | the `(int)` cast of `sprintf('%d', n)` gives n back, for every integer n |
| Environment.Created | wordpress-remote-data-puller.php:124 | after `wp_mkdir_p` succeeds the directory is present, and nothing else changes |
| Environment.Store | wordpress-remote-data-puller.php:144-147 | the streamed download either leaves the filesystem unchanged or writes the target path with the stored readability and size; no other path's presence, readability or size changes, and writability is kept |
| Environment.Host.FileExists | wordpress-remote-data-puller.php:123 | answers presence in the current filesystem, changes nothing and logs the call |
| Environment.Host.MkdirP | wordpress-remote-data-puller.php:124 | answers the oracle's success flag and creates the directory only on success |
| Environment.Host.IsWritable | wordpress-remote-data-puller.php:132 | answers writability, changes nothing and logs the call |
| Environment.Host.UniqueFilename | wordpress-remote-data-puller.php:140 | answers the oracle's name for the directory and base name and logs the call |
| Environment.Host.RemoteGet | wordpress-remote-data-puller.php:144-155 | answers the oracle's response, and the filesystem becomes what the streamed download stored at the target file |
| Environment.Host.IsReadable | wordpress-remote-data-puller.php:188 | answers readability, changes nothing and logs the call |
| Environment.Host.Filesize | wordpress-remote-data-puller.php:197 | answers the recorded size, or false for an unknown path |
| Environment.FileSize | wordpress-remote-data-puller.php:197 | definition of the value `filesize` returns (None for false); used in `Host.Filesize`, `Store` and `FetchSizeMismatch` |
| Report.Text | wordpress-remote-data-puller.php:94-205 | definition of each message text sent; the status-code text is characterised in `BadStatusNamesCode` |
| Report.Header | wordpress-remote-data-puller.php:196 | definition of `wp_remote_retrieve_header`: the header's value, `''` when absent or for a WP_Error; its use is characterised in `FetchSizeMismatch` and `FetchSucceedsIff` |
| Report.DebugOf | wordpress-remote-data-puller.php:157-164 | the debug payload carries url, filepath and directory; a WP_Error has empty code, message and headers |
| Report.BadStatusNamesCode | wordpress-remote-data-puller.php:177-185 | the status-code message starts with its fixed prefix, and reading the rest back as an integer gives the code |
| Pipeline.BackupDir | wordpress-remote-data-puller.php:26 | definition of the backup directory `WP_CONTENT_DIR . '/ai1wm-backups'`; its use is in `DefaultOnlyWhenKeyAbsent` and `TokenUsedAsGiven` |
| Pipeline.ReadUrl | wordpress-remote-data-puller.php:90 | definition of `$url`; its cases are in `UrlRejectedBeforeAnyIo` |
| Pipeline.ReadDirectory | wordpress-remote-data-puller.php:91 | definition of `$directory` as first read; its properties are in `DefaultOnlyWhenKeyAbsent` and `TokenUsedAsGiven` |
| Pipeline.CheckUrl | wordpress-remote-data-puller.php:93-100 | "Please provide a valid URL" exactly for an `empty()` URL, "Invalid URL format" exactly for a nonempty URL the validator rejects, and no error otherwise |
| Pipeline.PrepareRun | wordpress-remote-data-puller.php:123-137 | definition of the directory preparation; its properties are in `PrepareMkdirOnlyWhenAbsent`, `PrepareErrors` and `PrepareIdempotent`, and `PrepareDirectory` performs it |
| Pipeline.PrepareDirectory | wordpress-remote-data-puller.php:123-137 | the host performs `file_exists`, `wp_mkdir_p` and `is_writable` exactly as `PrepareRun` says, with the same error, filesystem and calls |
| Pipeline.PrepareMkdirOnlyWhenAbsent | wordpress-remote-data-puller.php:123-130 | `wp_mkdir_p` is called exactly when the directory is absent; a present directory is left untouched |
| Pipeline.PrepareErrors | wordpress-remote-data-puller.php:123-137 | "Failed to create directory" exactly when the directory is absent and creation fails; "not writable" exactly when it exists or was created but is not writable; both name the directory; with no error the directory exists and is writable |
| Pipeline.PrepareIdempotent | wordpress-remote-data-puller.php:123-137 | preparing a prepared directory again succeeds without `wp_mkdir_p` and changes nothing |
| Pipeline.DownloadArgs | wordpress-remote-data-puller.php:144-155 | both variants ask for a 300 s streamed download to the file path with `Accept: application/octet-stream`; only the hardened one adds the User-Agent, `sslverify`, 5 redirects and `reject_unsafe_urls` |
| Pipeline.Filename | wordpress-remote-data-puller.php:140 | definition of `wp_unique_filename($directory, basename($url))`; used in `FetchCallsAndDebug`, `FetchSucceedsIff` and both handlers' `SucceedsIff` and `DebugOnlyAfterFetch` |
| Pipeline.FetchOf | wordpress-remote-data-puller.php:144-155 | definition of the `wp_remote_get` call with the variant's options to `directory . filename`; used in `FetchRun`, `FetchSucceedsIff` and `FetchSizeMismatch` |
| Pipeline.VerifyRun | wordpress-remote-data-puller.php:166-202 | definition of the checks after the fetch; its properties are in `VerifyKeepsDebug`, `FetchErrorsBeforeProbes`, `FetchSucceedsIff` and `FetchSizeMismatch`, and `Verify` performs it |
| Pipeline.Verify | wordpress-remote-data-puller.php:166-202 | the host performs the post-fetch checks exactly as `VerifyRun` says and changes no file |
| Pipeline.VerifyKeepsDebug | wordpress-remote-data-puller.php:166-202 | every post-fetch outcome carries the debug payload, and no check after the fetch fetches or creates anything |
| Pipeline.FetchRun | wordpress-remote-data-puller.php:139-209 | definition of the fetch stage; its properties are in `FetchCallsAndDebug`, `FetchSucceedsIff` and `FetchSizeMismatch`, and `FetchAndVerify` performs it |
| Pipeline.FetchAndVerify | wordpress-remote-data-puller.php:139-209 | the host picks the name, fetches and verifies exactly as `FetchRun` says |
| Pipeline.FetchCallsAndDebug | wordpress-remote-data-puller.php:139-164 | the fetch stage calls `wp_unique_filename` on `basename($url)` and then exactly one `wp_remote_get` to directory ++ filename with the variant's options, and its outcome carries the debug payload |
| Pipeline.FetchErrorsBeforeProbes | wordpress-remote-data-puller.php:166-185 | a WP_Error is reported before the status is inspected, and a status other than 200 is reported with that code; in both cases no file is probed |
| Pipeline.FetchSucceedsIff | wordpress-remote-data-puller.php:166-209 | the fetch stage succeeds exactly when the response is 200, the file exists and is readable, and (hardened only) a truthy Content-Length equals its size; a success carries filename, directory ++ filename and debug |
| Pipeline.PermissiveNeverSizes | migration-data-puller.php:166-179 | the permissive fetch stage never calls `filesize` |
| Pipeline.FetchSizeMismatch | wordpress-remote-data-puller.php:195-202 | after a 200 with an accessible file, the hardened size message is sent exactly when a truthy Content-Length differs from the file size (an unknown size counts as different) |
| Pipeline.SaveRun | wordpress-remote-data-puller.php:122-209 | definition of everything from normalisation on; its properties are in `SaveDirectoryFirst` and `SaveRejectsOnlyOnDirectory`, and `Save` performs it |
| Pipeline.Save | wordpress-remote-data-puller.php:121-209 | the host normalises, prepares, fetches and verifies exactly as `SaveRun` says |
| Pipeline.SaveDirectoryFirst | wordpress-remote-data-puller.php:121-144 | the first call probes the normalised directory; `wp_mkdir_p` happens exactly when it is absent; a directory failure ends with no fetch; otherwise the fetch stage runs on the prepared filesystem |
| Pipeline.SaveRejectsOnlyOnDirectory | wordpress-remote-data-puller.php:121-137 | from normalisation on, the only bare failures are the two directory messages, exactly when preparation fails, and exactly when no fetch was made |
| RemoteDataPuller.ReadCustomPath | wordpress-remote-data-puller.php:104 | definition of `$custom_path` as first read; its cases are in `CustomPathChecks` |
| RemoteDataPuller.ResolveDirectory | wordpress-remote-data-puller.php:103-119 | definition of the directory the hardened handler resolves; its properties are in `CustomPathChecks`, `InvalidDirectoryPathIff` and `AcceptedCustomDirectory` |
| RemoteDataPuller.Handle | wordpress-remote-data-puller.php:83-210 | definition of the hardened request; its properties are in the `RemoteDataPuller` lemmas below, and `DownloadFile` performs it |
| RemoteDataPuller.DownloadFile | wordpress-remote-data-puller.php:83-210 | the hardened handler on the host gives exactly the outcome, filesystem and call log of `Handle` |
| RemoteDataPuller.UrlRejectedBeforeAnyIo | wordpress-remote-data-puller.php:90-100 | a missing or `empty()` URL, then an invalid one, fails with its message, with no host call and the filesystem unchanged |
| RemoteDataPuller.CustomPathChecks | wordpress-remote-data-puller.php:103-119 | for the token `custom`: an empty custom path fails; one containing `..` fails with "Invalid directory path"; both happen before any host call; otherwise the run continues in ABSPATH ++ the trimmed path |
| RemoteDataPuller.InvalidDirectoryPathIff | wordpress-remote-data-puller.php:103-115 | "Invalid directory path" is sent exactly when the URL passed, the token is `custom`, and the non-empty custom path contains `..` |
| RemoteDataPuller.DotDotIsSubstringTest | wordpress-remote-data-puller.php:113-115 | the custom paths `a..b` and `../../etc` are refused before any host call |
| RemoteDataPuller.AcceptedCustomDirectory | wordpress-remote-data-puller.php:110-122 | an accepted custom directory is ABSPATH ++ the trimmed path, which neither starts nor ends with `/` or `\`, holds no `..`, and is probed first in its normalised form |
| RemoteDataPuller.DefaultOnlyWhenKeyAbsent | wordpress-remote-data-puller.php:91 | the backup directory is used only when the key is absent; a posted token other than `custom` is used as given; a posted empty token makes `/` the directory probed |
| RemoteDataPuller.DirectoryChecks | wordpress-remote-data-puller.php:121-137 | `wp_mkdir_p` happens exactly when the normalised directory is absent; a creation failure or a non-writable directory fails, naming that directory, with no fetch |
| RemoteDataPuller.DebugOnlyAfterFetch | wordpress-remote-data-puller.php:157-185 | a bare message exactly when no fetch happened; after a fetch, a WP_Error is reported before the status, a non-200 status is reported with its code, and every outcome has url, directory and directory ++ filename in its debug payload |
| RemoteDataPuller.SucceedsIff | wordpress-remote-data-puller.php:188-209 | success exactly when the URL passes, the directory resolves, exists or is created, is writable, and the download verifies with status 200, accessibility and size; the success payload names the chosen file and directory ++ filename |
| MigrationDataPuller.Handle | migration-data-puller.php:85-180 | definition of the permissive request; its properties are in the `MigrationDataPuller` lemmas below, and `DownloadFile` performs it |
| MigrationDataPuller.DownloadFile | migration-data-puller.php:85-180 | the permissive handler on the host gives exactly the outcome, filesystem and call log of `Handle` |
| MigrationDataPuller.UrlRejectedBeforeAnyIo | migration-data-puller.php:92-102 | a missing or `empty()` URL, then an invalid one, fails with its message, with no host call and the filesystem unchanged |
| MigrationDataPuller.TokenUsedAsGiven | migration-data-puller.php:93-105 | the posted token is only trailing-slashed: the backup directory only when the key is absent, `/` for an empty token, `custom/` for the literal `custom` |
| MigrationDataPuller.DirectoryChecks | migration-data-puller.php:105-120 | `wp_mkdir_p` happens exactly when the normalised directory is absent; a creation failure or a non-writable directory fails, naming that directory, with no fetch |
| MigrationDataPuller.OnlyUrlAndDirectoryRefusals | migration-data-puller.php:92-120 | the only bare failures are the two URL and the two directory messages; `filesize` is never called and no size mismatch is reported |
| MigrationDataPuller.DebugOnlyAfterFetch | migration-data-puller.php:136-164 | a bare message exactly when no fetch happened; after a fetch, a WP_Error is reported before the status, a non-200 status is reported with its code, and every outcome carries the debug payload |
| MigrationDataPuller.SucceedsIff | migration-data-puller.php:122-179 | success exactly when the URL passes, the normalised directory exists or is created and is writable, and the download is a 200 leaving an accessible file; the file path is the directory ++ the name `wp_unique_filename` chose |
| Variants.HardenedSuccessIsPermissiveSuccess | wordpress-remote-data-puller.php:166-209 | for a token other than `custom` and a server answering both option sets alike, every hardened success is the same permissive success |
| Variants.TruncatedDownloadOnlyCaughtByHardened | wordpress-remote-data-puller.php:195-202 | a 200 whose `Content-Length: 5` left a readable 4-byte file: the hardened handler reports the size mismatch and the permissive one reports success |
| Variants.TruncatedFetchAny | wordpress-remote-data-puller.php:195-202 | against any server that answers a 200 with `Content-Length: 5` and leaves a readable 4-byte file, the hardened fetch stage reports the size mismatch and the permissive one (migration-data-puller.php:166-179) reports success |

## Left out

- Nonce and capability checks (`check_ajax_referer`, `current_user_can`, wordpress-remote-data-puller.php:84-88 and migration-data-puller.php:86-90): these are host authentication. The model starts after them.
- `wp_send_json_error` / `wp_send_json_success` are rendered as the `Outcome` datatype. The exact texts are in `Report.Text`. Translation by `__()` is not modelled.
- Registration, admin menu, script enqueueing and `render_admin_page` in both files: these are presentation glue.
- The JavaScript clients, with their jQuery UI and timer-driven progress bar: these are presentation.
- The internals of `esc_url_raw`, `sanitize_text_field`, `filter_var`, `wp_unique_filename`, `wp_mkdir_p` and `wp_remote_get`: this is library code, so it is given as oracle functions. Timeouts, redirects, TLS and the unsafe-URL policy are therefore only recorded as the options passed.
- `wp_mkdir_p` creating intermediate directories, and a fresh directory's permissions: the oracle says only whether the directory exists afterwards. Writability is taken from the filesystem as it was.
- `get_bloginfo('version')`, `get_bloginfo('url')`, `ABSPATH` and `WP_CONTENT_DIR`: these are configuration values (`Environment.Config`).
- Response headers are a map from lower-case names to single strings. A header that the HTTP library returns as an array of values is not modelled.
- PhpStrings.IntCast: reads an optional sign and leading decimal digits after leading whitespace. It does not model exponent or fraction forms of numeric strings (`"1e3"`), nor the saturation of values beyond 64 bits.
- PhpStrings.Basename: follows the POSIX rule (the last run of non-`/` characters). `basename` is locale-dependent and, on Windows, also splits at `\`; neither is modelled.
- PHP strings are byte strings; the model uses `seq<char>`. This does not matter here: every character the model inspects (`/`, `\`, `.`, digits, whitespace) is ASCII, and UTF-8 never encodes any other character with an ASCII byte.
- Concurrency, and races on the name `wp_unique_filename` picks: the handler is one sequential request.
- Environment.Host.constructor and the Host methods state their new state with `old`, so they describe the host step by step rather than properties of the handler. The handler-level properties are the lemmas on `Handle`.
