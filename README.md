# gotunnel, modelled in Dafny

gotunnel exposes local development servers under `.local` host names. This model covers the in-memory bookkeeping and the text handling around its tunnels:

- **`internal/tunnel/tunnel.go`** (module `Tunnel`, plus `HostsEdit`):
  - the tunnel manager keeps a map of running tunnels;
  - starting a tunnel checks for a duplicate, adds `.local`, ensures a certificate, opens a listener, registers the name with mDNS, stores the tunnel and backs up the hosts file;
  - tunnels can be stopped one at a time or all together, which also restores the hosts file;
  - starting and stopping add and remove the tunnel's line in the hosts file.
- **`internal/proxy/proxy.go`** (module `Proxy`):
  - the built-in reverse proxy stores every route under both its bare and its `.local` name;
  - the director rewrites a request that hits a route and marks a miss;
  - the error handler answers 404 for a miss and 502 for any other error;
  - also covered: how the client IP is chosen, and the defaults and mode dispatch of the proxy configuration.
- **`internal/dnsserver/dnsserver.go`** (module `DnsServer`): the custom hosts-file parser, and the rule that answers type-A questions for `.go.` names from those entries.
- **`internal/mdns/mdns.go`** (module `Mdns`): the registry of advertised services.
- **`internal/cert/cert.go`** (module `Cert`): the choice between reusing a certificate and generating one. It runs over an abstract file system, with the cryptography as uninterpreted functions.
- **`internal/logging/logger.go`** (module `Logging`):
  - how a logger configuration is resolved;
  - the attribute rewriting that formats times and shortens source paths;
  - `WithError` and `GetCaller`.

`Text` models the Go `strings` and `bufio` operations the core relies on. `Wrappers` holds `Option` and `Result`.

Side effects are parameters:

- the outcome of opening a listener, of mDNS registration and of certificate creation;
- the outbound IP address;
- `net.ParseIP`, `dns.NewRR` and the upstream DNS exchange;
- `zeroconf.Register`;
- the cryptographic primitives.

The system hosts file and its backup are one value (`Tunnel.HostsFs`). It records whether each file can be read or written. The tunnel manager threads it through every operation.

The manager records its side effects as a ghost sequence of `Tunnel.Event`s: certificate, listener, registration, stop, unregistration, backup and restore. This makes their order part of the contracts.

Go map iteration has no fixed order. Loops over a map pick any remaining key, and a ghost out-parameter reports the order one run took.

Where the code and the tests disagree, the model follows the code:

- `tunnel_test.go` uses `StartTunnelWithPorts`, `NewManager(certManager)` and `SetHostsBackupDir`, none of which exist. It also expects port and domain validation that `StartTunnel` does not perform.
- `mdns_test.go` expects the registry key without `.local`. The code keys the registry by the domain as passed.
- The certificate tests use `.pem` file names and expect an error for an unloadable pair. The code uses `.crt`/`.key` and regenerates the pair.

The tunnel manager has two starts. `StartTunnelAsWritten` is the code as written. `StartTunnel` is the corrected behaviour of the two findings below, which the comments at tunnel.go lines 103 and 156 state as the intent.

## Model

| member | source | states |
|---|---|---|
| Text.Split | internal/dnsserver/dnsserver.go:27 | the pieces hold no separator, there is at least one, and joining them with the separator gives the input back |
| Text.SpaceLength | internal/dnsserver/dnsserver.go:28 | the length of the leading run of white space: every character before it is white space, the one at it is not |
| Text.TrimRightSpace | internal/dnsserver/dnsserver.go:28 | a prefix of the input that is empty or ends in a non-space character, with only white space after it |
| Text.TrimSpace | internal/dnsserver/dnsserver.go:28 | the result is the part of the input right after its leading white space, only white space follows it, and it neither starts nor ends with white space |
| Text.TrimSpaceIsSlice | internal/dnsserver/dnsserver.go:28 | the trimmed line is the slice `s[i..j]` of the original line, everything before `i` and from `j` on is white space, and the slice is empty or starts and ends with a non-space character |
| Text.Fields | internal/dnsserver/dnsserver.go:33 | every field is non-empty and free of white space; an empty line has no fields |
| Text.FieldsSkipsSpace | internal/dnsserver/dnsserver.go:33 | white space in front of the fields adds no field |
| Text.WordLengthOf | internal/dnsserver/dnsserver.go:33 | a non-space run followed by white space or the end is exactly the first word |
| Text.FieldsOfWord | internal/dnsserver/dnsserver.go:33 | a non-empty non-space word followed by white space is the first field, followed by the fields of the rest; with `FieldsSkipsSpace` and `FieldsOfLastWord` this makes the fields exactly the maximal non-space runs, in order |
| Text.FieldsOfLastWord | internal/dnsserver/dnsserver.go:33 | a non-empty non-space word on its own is the only field |
| Text.Digits | internal/proxy/proxy.go:214 | at least one decimal digit, no leading zero for a positive number, and the digits denote the number |
| Text.Itoa | internal/proxy/proxy.go:214 | `%d` text without a colon, which reads back as the number it prints |
| Text.LastIndex | internal/logging/logger.go:117 | the result is -1 exactly when the marker does not occur; otherwise the marker occurs there and at no later position |
| Text.TrimSuffix | internal/proxy/proxy.go:269-270 | one trailing suffix is removed when present, and the text is unchanged otherwise |
| HostsEdit.AddEntry | internal/tunnel/tunnel.go:428-440 | the scan reports a write exactly when no line mentions the domain; the new content is `WithEntry` |
| HostsEdit.RemoveEntry | internal/tunnel/tunnel.go:457-467 | the scan loop computes exactly `WithoutEntry` of the content |
| HostsEdit.Kept | internal/tunnel/tunnel.go:459-463 | no kept line mentions the domain, and there are no more kept lines than input lines |
| HostsEdit.KeptMembers | internal/tunnel/tunnel.go:459-463 | a line is kept exactly when it is an input line that does not mention the domain |
| HostsEdit.KeptNothingToDrop | internal/tunnel/tunnel.go:459-463 | when no line mentions the domain, every line is kept in order |
| HostsEdit.ScanLinesJoin | internal/tunnel/tunnel.go:458-467 | rescanning lines joined by newlines plus a final newline gives back the same lines, up to a trailing carriage return |
| HostsEdit.WithEntryHasEntry | internal/tunnel/tunnel.go:428-440 | for a domain without a newline or a trailing carriage return: after the update, some line of the file mentions the domain |
| HostsEdit.WithEntryIdempotent | internal/tunnel/tunnel.go:428-440 | for a domain without a newline or a trailing carriage return: updating twice gives the same content as updating once |
| HostsEdit.WithoutEntryHasNoEntry | internal/tunnel/tunnel.go:457-467 | after the removal, no line mentions the (non-empty) domain |
| HostsEdit.WithoutEntryLines | internal/tunnel/tunnel.go:457-467 | when no scanned line still ends in a carriage return (LF and CRLF files qualify): rescanning the new content gives exactly the kept lines in their original order, or one empty line when nothing was kept |
| HostsEdit.WithoutEntryIdempotent | internal/tunnel/tunnel.go:457-467 | when no scanned line still ends in a carriage return (LF and CRLF files qualify), removing twice gives the same content as removing once |
| HostsEdit.CRLFLineEndsClean | internal/tunnel/tunnel.go:458-460 | a CRLF line scans to the line without its carriage return, so a CRLF file meets the condition of the two lemmas above |
| HostsEdit.DoubleCRNotIdempotent | internal/tunnel/tunnel.go:457-467 | a line ending in two carriage returns loses one of them on each removal, so there a second removal changes the file again |
| HostsEdit.NotContainsChar | internal/tunnel/tunnel.go:461 | a text without a character does not contain that character as a substring |
| Tunnel.UpdateHostsFile | internal/tunnel/tunnel.go:419-445 | the new file is `Updated`. No error exactly when the file is readable and either already mentions the domain or is writable. Unreadable: "failed to read hosts file". Write failure: "failed to update hosts file" |
| Tunnel.RemoveFromHostsFile | internal/tunnel/tunnel.go:448-472 | the new file is `Removed`; no error exactly when the file is readable and writable; each failure gets its own message |
| Tunnel.BackupHostsFile | internal/tunnel/tunnel.go:58-70 | success exactly when the hosts file is readable and the backup writable, and then the backup holds the current hosts text; a failure changes nothing |
| Tunnel.RestoreHostsFile | internal/tunnel/tunnel.go:73-95 | success exactly when a backup exists and the hosts file is writable. The hosts text becomes the backup, and the backup is removed when it can be. A failure changes nothing |
| Tunnel.LocalNameIsSuffix | internal/tunnel/tunnel.go:110 | the character-wise `.local` test agrees with `strings.HasSuffix` |
| Tunnel.Normalise | internal/tunnel/tunnel.go:109-112 | the result ends in `.local`: the domain itself when it already does, the domain plus `.local` otherwise |
| Tunnel.Tunnel.constructor | internal/tunnel/tunnel.go:115-122 | a new tunnel has the given ports, domain and HTTPS flag, targets 127.0.0.1, and is neither listening nor done |
| Tunnel.Tunnel.Start | internal/tunnel/tunnel.go:294-393 | the target IP becomes the outbound address and the hosts file is updated whatever happens next. The tunnel listens exactly when a listener opens on its service port; otherwise the error names the HTTPS base listener or the plain listener |
| Tunnel.Tunnel.Stop | internal/tunnel/tunnel.go:226-248 | the tunnel is closed and no longer listening, its hosts entry is removed, and it never reports an error |
| Tunnel.NewTunnel | internal/tunnel/tunnel.go:114-133 | a fresh tunnel with the given settings. With HTTPS, a certificate failure is reported as "failed to ensure certificate: ...". Otherwise the certificate is set exactly when HTTPS is on |
| Tunnel.Manager.constructor | internal/tunnel/tunnel.go:49-55 | a new manager has no tunnels and satisfies the invariant |
| Tunnel.Manager.Activate | internal/tunnel/tunnel.go:135-154 | the domain may already be a key, as the source allows. If the listener fails: the start error, the tunnel is not kept, the hosts entry stays. If mDNS fails: the tunnel is stopped again and not kept. On success: it is kept under its domain. Every branch preserves the invariant and records its events in order |
| Tunnel.Manager.Launch | internal/tunnel/tunnel.go:135-161 | corrected order: the same three outcomes as `Activate`, with the hosts backup taken first (and its event recorded) exactly when no tunnel runs yet, before the hosts file is first edited |
| Tunnel.Manager.BackupIfOnly | internal/tunnel/tunnel.go:156-161 | the hosts file is backed up (and the event recorded) exactly when the map holds one tunnel; the map is untouched |
| Tunnel.Manager.LaunchAsWritten | internal/tunnel/tunnel.go:135-161 | as written: the same three outcomes as `Activate`; only on success, and only when the map then holds exactly one tunnel, is the hosts file, already edited, backed up |
| Tunnel.Manager.Track | internal/tunnel/tunnel.go:153-154 | the running tunnel is stored under its domain and the invariant is kept |
| Tunnel.Manager.StartTunnelAsWritten | internal/tunnel/tunnel.go:97-166 | as written: a start whose domain, as given, is a key fails with nothing changed. Past that check the steps are those of `StartTunnel` below, without the early backup. Success stores a fresh tunnel under the `.local` name with the given ports, HTTPS flag, outbound IP and certificate, and when that name was already running, the tunnel it replaces keeps listening but is under no key. The backup, taken after the hosts file was edited, happens exactly when the map then holds one tunnel |
| Tunnel.Manager.StartTunnel | internal/tunnel/tunnel.go:97-166 | corrected: a start whose normalised domain is already a key fails with nothing changed, and one whose certificate fails changes no tunnel. The listener and mDNS failures leave the map unchanged (an mDNS failure also stops the tunnel again). Success adds one fresh tunnel under the `.local` domain, with the given ports, HTTPS flag, outbound IP and certificate. Events follow the step order, and mDNS registers at the HTTPS port exactly when HTTPS is on |
| Tunnel.Manager.StopTunnel | internal/tunnel/tunnel.go:199-224 | a missing key is an error, with nothing changed. Otherwise exactly that key is removed, and its tunnel is stopped and its hosts entry dropped. The mDNS unregistration is recorded but its failure is never returned |
| Tunnel.Manager.Stop | internal/tunnel/tunnel.go:168-197 | every tunnel is stopped exactly once and the map is emptied. The hosts file is the restore of the file with every tunnel's entry removed. The only possible error is a failed restore, wrapped as Go formats it |
| Tunnel.Manager.ListTunnels | internal/tunnel/tunnel.go:250-265 | one row per tunnel with its domain, port and HTTPS flag, and no domain listed twice |
| Tunnel.StopEach | internal/tunnel/tunnel.go:175-180 | the loop stops each tunnel once, in an order that is a permutation of the keys, and removes their hosts entries in that order |
| Tunnel.RemovedAllSnoc | internal/tunnel/tunnel.go:175-180 | removing one more domain at the end of the loop is one more `removeFromHostsFile` |
| Tunnel.RestoreUndoesRemovals | internal/tunnel/tunnel.go:168-197 | with a backup and a writable file, the restore at the end of `Stop` succeeds and gives back the backup, whatever the tunnels removed |
| Tunnel.RemovedAllKeeps | internal/tunnel/tunnel.go:448-472 | removing entries changes only the hosts text, never the backup or the permissions |
| Tunnel.UpdatedIdempotent | internal/tunnel/tunnel.go:419-445 | for a domain without a newline or a trailing carriage return: updating the file for a domain twice is the same as once, and a successful update leaves an entry for the domain |
| Tunnel.RemovedHasNoEntry | internal/tunnel/tunnel.go:448-472 | after a successful removal, no line of the file mentions the domain |
| Tunnel.DuplicateCheckMissesLocalKey | internal/tunnel/tunnel.go:103-112 | the source's check lets `app` through while `app.local`, where it would be stored, is taken |
| Tunnel.ReplacedIsUntracked | internal/tunnel/tunnel.go:154 | a tunnel stored under a taken key leaves the one it replaces under no key |
| Tunnel.DuplicateChecksAgreeOnLocalNames | internal/tunnel/tunnel.go:103-112 | on `.local` keys, the two checks agree for `.local` names; the source's check never fires for a bare name |
| Tunnel.StartStopKeepsEntry | internal/tunnel/tunnel.go:136-161 | in the source's order (update, then backup), starting the first tunnel and stopping everything leaves the tunnel's line in the hosts file |
| Tunnel.StartStopRestoresHosts | internal/tunnel/tunnel.go:156-161 | with the backup taken before the first update, starting the only tunnel and stopping everything restores the original file and removes the backup |
| Proxy.ModeActionSupported | internal/proxy/proxy.go:119-132 | exactly the six declared modes are dispatched; every other mode is unsupported |
| Proxy.ListenPort | internal/proxy/proxy.go:138-150 | without privileges a port below 1024 (other than 0) becomes 8080; otherwise the configured port, 0 included, is kept |
| Proxy.Base | internal/proxy/proxy.go:268-271 | one trailing `.local` is removed from a route's domain, and only then |
| Proxy.Counterpart | internal/proxy/proxy.go:286-291 | the other spelling of a domain: without `.local` when it has it, with it otherwise |
| Proxy.WithRouteLaws | internal/proxy/proxy.go:268-274 | adding a route binds exactly its two keys to it and leaves every other key as it was |
| Proxy.WithRouteFinds | internal/proxy/proxy.go:268-274 | after adding, the route is found under its own domain, under the bare name and under the `.local` name |
| Proxy.WithoutRouteLaws | internal/proxy/proxy.go:286-291 | removing drops exactly the domain and its counterpart and keeps every other entry |
| Proxy.StorageKeysAreRemovedKeys | internal/proxy/proxy.go:268-291 | the two keys a route is stored under are exactly the two keys removing its domain deletes |
| Proxy.AddThenRemove | internal/proxy/proxy.go:263-295 | adding a route and then removing its domain leaves neither spelling and restores every other entry |
| Proxy.StripPort | internal/proxy/proxy.go:197 | the host is the colon-free text before the first `:` |
| Proxy.StripPortOf | internal/proxy/proxy.go:197 | a name with or without a port is found as the name itself |
| Proxy.SplitChecked | internal/proxy/proxy.go:349 | the final bracket checks of `net.SplitHostPort` pass exactly when no stray bracket follows, and then the port is the text after the colon |
| Proxy.SplitBracketed | internal/proxy/proxy.go:349 | a bracketed address splits only as `[host]:port` |
| Proxy.SplitPlain | internal/proxy/proxy.go:349 | an unbracketed address splits only as `host:port` with a colon-free host |
| Proxy.SplitHostPort | internal/proxy/proxy.go:349 | a successful split reassembles into the input, and the port holds no colon or bracket |
| Proxy.SplitJoinHostPort | internal/proxy/proxy.go:349 | splitting a joined plain host and port gives the two back |
| Proxy.ClientIP | internal/proxy/proxy.go:337-351 | the first comma-separated element of a non-empty X-Forwarded-For; else a non-empty X-Real-IP; else the host part of the remote address |
| Proxy.TargetAddr | internal/proxy/proxy.go:212-215 | the forwarding address is the route's target host, a colon, and then colon-free text that reads back as the target port |
| Proxy.ListItemsContains | internal/proxy/proxy.go:245-247 | every route key has its own list item on the 404 page |
| Proxy.Manager.constructor | internal/proxy/proxy.go:71-91 | ports 0 become 80 and 443 and an empty mode becomes `auto`; everything else is kept and the route table starts empty |
| Proxy.Manager.Start | internal/proxy/proxy.go:115-190 | `builtin` and `auto` listen on the chosen port: a listener error is reported with that port, success records the bound port. `none` does nothing and an unknown mode is an error. The other modes return what their own starter returns |
| Proxy.Manager.AddRoute | internal/proxy/proxy.go:263-278 | the table becomes `WithRoute`, nothing else changes, and there is no error |
| Proxy.Manager.RemoveRoute | internal/proxy/proxy.go:281-295 | the table becomes `WithoutRoute`, nothing else changes, and there is no error |
| Proxy.Manager.ListRoutes | internal/proxy/proxy.go:298-307 | the copy equals the current table, which is left unchanged |
| Proxy.Manager.Director | internal/proxy/proxy.go:193-226 | a miss clears the URL and changes nothing else. A hit rewrites the scheme and host from the route and sets the three forwarding headers |
| Proxy.Manager.ErrorHandler | internal/proxy/proxy.go:229-260 | no URL: 404, a page naming the stripped host and listing every route key once. Any other error: 502 with "Proxy Error: " and the error |
| DnsServer.EntryOf | internal/dnsserver/dnsserver.go:28-39 | an entry comes from a trimmed, non-comment line with at least two fields whose first parses as an IP; the hostname is the second field |
| DnsServer.EntryOfExactly | internal/dnsserver/dnsserver.go:28-39 | a line yields an entry exactly when it is not a comment, has two fields and its first field parses |
| DnsServer.Entries | internal/dnsserver/dnsserver.go:27-42 | there are never more entries than lines |
| DnsServer.EntriesConcat | internal/dnsserver/dnsserver.go:27-42 | entries keep the order of their lines: the entries of two blocks of lines are the entries of each, in order |
| DnsServer.EntriesMembers | internal/dnsserver/dnsserver.go:27-42 | an entry is present exactly when some line yields it |
| DnsServer.BlankAndCommentLinesSkipped | internal/dnsserver/dnsserver.go:28-31 | a blank or `#` line adds no entry |
| DnsServer.EntriesStep | internal/dnsserver/dnsserver.go:27-40 | one more line adds its entry, if it has one, at the end |
| DnsServer.LoadHostsFile | internal/dnsserver/dnsserver.go:20-43 | a read failure is an error with the read message wrapped; otherwise the entries of the file's lines |
| DnsServer.ParseLines | internal/dnsserver/dnsserver.go:26-42 | the loop over the lines computes exactly `Entries` |
| DnsServer.FirstMatch | internal/dnsserver/dnsserver.go:53-62 | the index of the first entry with exactly that hostname, or -1 when none has it |
| DnsServer.NoMatchNoAnswer | internal/dnsserver/dnsserver.go:53-62 | when every question is local and no entry names any of them, the reply is the bare reply to the request, with no answers |
| DnsServer.ReplyAfterStaysNone | internal/dnsserver/dnsserver.go:55-59 | once the handler has given up (an unbuildable record or a failed forward), no reply is ever written |
| DnsServer.AtMostOneAnswerEach | internal/dnsserver/dnsserver.go:51-63 | on `.go.` A questions the reply keeps the request's id and only its first question, as `SetReply` does, and has at most one answer per question |
| DnsServer.SingleLocalQuestion | internal/dnsserver/dnsserver.go:51-63 | one `.go.` A question is answered from the first matching entry, or gets no answer without a match; a record that cannot be built means no reply |
| DnsServer.HandleDNSRequest | internal/dnsserver/dnsserver.go:46-76 | the loop over the questions writes exactly the reply `ReplyAfter` specifies, or nothing |
| Mdns.InstanceName | internal/mdns/mdns.go:35-38 | one `.local` is removed when the name is longer than six characters and ends with it; otherwise the name is kept |
| Mdns.InstanceNameOfLocal | internal/mdns/mdns.go:35-38 | a name with `.local` added is advertised as that name |
| Mdns.MDNSServer.New | internal/mdns/mdns.go:18-22 | no service is registered |
| Mdns.MDNSServer.RegisterDomain | internal/mdns/mdns.go:24-55 | a registered domain is left alone without error. A refused registration is an error with no change. Otherwise exactly that domain, as passed, is added |
| Mdns.MDNSServer.UnregisterDomain | internal/mdns/mdns.go:57-67 | never an error; the domain is removed and its server shut down when present, and nothing happens otherwise |
| Mdns.MDNSServer.Stop | internal/mdns/mdns.go:74-83 | never an error; every server is shut down exactly once and the registry is empty |
| Cert.AddOneYear | internal/cert/cert.go:52 | one calendar year later, at the same time of day, on the same date unless that is a 29 February without a counterpart |
| Cert.TemplateFor | internal/cert/cert.go:46-57 | serial 1, the domain as common name and only DNS name, valid from now until `AddOneYear(now)`, for key encipherment, signatures and server authentication |
| Cert.CertAndKeyPathsDiffer | internal/cert/cert.go:29-30 | the certificate file ends in `.crt`, the key file in `.key`, and they never coincide |
| Cert.EnsureReuses | internal/cert/cert.go:33-37 | a certificate that exists and loads is returned with no file or directory written |
| Cert.EnsureSuccessIsOnDisk | internal/cert/cert.go:33-90 | whatever `EnsureCert` returns on success is what loading the two files gives afterwards |
| Cert.EnsureTwice | internal/cert/cert.go:28-91 | after a success, a second call (at any time) returns the same certificate and writes nothing |
| Cert.EnsureCryptoFailureWritesNothing | internal/cert/cert.go:41-62 | a failed key generation or certificate creation is an error before any directory or file is touched |
| Cert.EnsureRegenerates | internal/cert/cert.go:33-90 | a certificate that does not load is replaced: both files are rewritten with the new PEM blocks and the directory exists |
| Cert.EnsureKeyFileFailureKeepsCert | internal/cert/cert.go:68-79 | a key file that cannot be created fails the call after the new certificate file is already written |
| Cert.FileSystem.Create | internal/cert/cert.go:68-79 | creating a file succeeds exactly when its path can be created, and then writes exactly that file |
| Cert.FileSystem.MkdirAll | internal/cert/cert.go:64-66 | the directory is added exactly when creation succeeds; no file changes |
| Cert.CertManager.EnsureCert | internal/cert/cert.go:28-91 | the step-by-step method returns the result and leaves the files and directories the `Ensure` specification describes |
| Logging.DefaultConfig | internal/logging/logger.go:45-53 | level info, format text, output stdout, no source, RFC 3339 times |
| Logging.LevelOfNames | internal/logging/logger.go:68-80 | debug, warn and error select their own levels; every other name selects info |
| Logging.OutputOf | internal/logging/logger.go:84-99 | `stdout` or empty selects stdout, `stderr` selects stderr, anything else is a file at that path |
| Logging.FormatOf | internal/logging/logger.go:128-136 | only `json` selects the JSON handler |
| Logging.Effective | internal/logging/logger.go:63-65 | a given configuration is used as it is |
| Logging.NewNilIsDefault | internal/logging/logger.go:63-65 | a missing configuration behaves as the default one (info, stdout, text) |
| Logging.ShortenSource | internal/logging/logger.go:114-120 | a path without `/gotunnel/` is kept; otherwise what follows its last occurrence |
| Logging.ShortenSourceOfRepoPath | internal/logging/logger.go:114-120 | a path inside the repository is shortened to its repository-relative part |
| Logging.ReplaceAttr | internal/logging/logger.go:105-124 | with a time format set, the time attribute becomes its formatted string. A source attribute has its file shortened in place, its line and function kept. Every other attribute is returned as it is |
| Logging.Logger.WithError | internal/logging/logger.go:187-196 | no error returns the receiver itself; an error returns a fresh logger with the same configuration and one more `error` attribute |
| Logging.New | internal/logging/logger.go:62-144 | a file output whose directory or file cannot be created is an error. Otherwise a fresh logger with the effective configuration and the level, output and format it selects |
| Logging.AfterLastSlash | internal/logging/logger.go:347-353 | the slash-free tail that ends the text, directly after its last slash when there is one |
| Logging.GetCaller | internal/logging/logger.go:340-356 | ("unknown", 0, "unknown") when the lookup fails; otherwise the line and the file and function names trimmed after their last slash |

## Left out

- Network and concurrency are left out because they have no model here. This covers HTTP servers, reverse-proxy forwarding, `Serve` goroutines, `handleConnection` byte copying, `Shutdown` and the manager's `RWMutex`. Calls are sequential, and listeners and servers are represented only by whether they open.
- `StopAll` and `Close` are left out: `StopAll` calls `StopTunnel` while already holding the manager's lock, so it deadlocks as soon as one tunnel is running (with none it returns nil). `Manager.Stop` is modelled instead.
- `resolveHostname` is left out: it is a wrapper around `net.LookupHost` whose two branches are identical.
- The socket options (`SO_REUSEADDR`) and the TLS listener configuration are left out; only whether the base or plain listener opens is modelled.
- The upstream DNS exchange and `StartDNSServer` are not modelled. The exchange is an oracle `upstream`, and the server start is I/O.
- `DiscoverServices` and `MDNSServer.Start` are not modelled. The first is network I/O and the second does nothing.
- `dnsserver.RegisterDomain`, `UnregisterDomain` and `GetOutboundIP`, which tunnel.go calls, are not in dnsserver.go. The first and last are oracles `register` and `outboundIP`; unregistration appears only as an event.
- `DetectAvailableProxies`, `commandExists`, `Proxy.Manager.Stop` and the nginx, caddy and config-file starters are not modelled, because they are executable lookups, server shutdown and external configuration. The result of a starter is the parameter `delegated`.
- RSA key generation, x509 signing, PEM encoding and `tls.LoadX509KeyPair` are uninterpreted functions, because cryptography is out of scope.
- The two `time.Now` calls of the certificate template are one instant `now`.
- `filepath.Join`'s path cleaning is not modelled: a path is the directory, a slash and the file name.
- The `": %w"` wrapped OS error texts are dropped from error messages; only each message's own text is modelled.
- `bufio.Scanner`'s 64 KiB line limit and its ignored scan error are not modelled: lines are assumed to be under the limit.
- Hosts backup and restore are whole-file copies, modelled by whether each file can be read or written. `restoreHostsFile`'s check for an empty backup path cannot fire, because `NewManager` always sets a path. So a missing backup file is the read failure "failed to read hosts backup".
- A failed removal of the backup file is only logged; it appears as the `backupWritable` flag.
- The logger's slog handler construction, log file creation, `WithContext`, `WithComponent`, `WithFields`, the event logging helpers, `Fatal` and `Panic` are not modelled, because they only pass arguments to slog or exit the process.
- `runtime.Caller` and `Time.Format` are parameters.
- HeaderGet: headers are one value per name, so `http.Header.Get` returning the first of several values is not modelled.
- WithoutEntryIdempotent: proved only when no scanned line still ends in a carriage return, because on a line ending in two carriage returns the source is not idempotent (`DoubleCRNotIdempotent`).
- Proxy routes are values, so two keys holding the same `*Route` pointer are not modelled as aliases.
- miekg/dns's `Msg.SetReply` is modelled on that library's definition, which the repository does not contain: the reply keeps the id and the first question only. Its opcode, recursion-desired and checking-disabled copies and the success rcode are not modelled.
- `net.SplitHostPort` is modelled on the Go standard library's own definition, which the repository does not contain. Zone identifiers are not modelled.
- The `Cert`, `DnsServer` and `Logging` console logging, and the proxy's `fmt.Printf` messages, are not modelled, because they are output only.

## Findings

| source | as written | input that shows it | evidently intended | confidence | as-written member | corrected member |
|---|---|---|---|---|---|---|
| internal/tunnel/tunnel.go:103-112 | the duplicate check looks up the domain as given, before `.local` is added, but the tunnel is stored under the `.local` name | a tunnel runs for `app.local`, then `StartTunnel(..., "app", ...)`: the check passes and a second tunnel replaces the first in the map, leaving the first one running and untracked | check the name the tunnel will be stored under | not executed | Tunnel.Manager.StartTunnelAsWritten | Tunnel.Manager.StartTunnel |
| internal/tunnel/tunnel.go:136-161 | `updateHostsFile` runs inside `startTunnel` (line 303) before the first tunnel's hosts backup (line 158), so the backup already holds that tunnel's line | start one tunnel for `app.local` on a hosts file without it, then `Stop`: the restore writes back the backup, which still contains `127.0.0.1\tapp.local` | take the backup before the first modification, as the comment at line 156 says | not executed | Tunnel.Manager.StartTunnelAsWritten | Tunnel.Manager.StartTunnel |

`Tunnel.DuplicateCheckMissesLocalKey` gives the concrete names for the first row, and `Tunnel.DuplicateChecksAgreeOnLocalNames` shows that the two checks differ only for bare names. For the second row, `Tunnel.StartStopKeepsEntry` follows `StartTunnelAsWritten`'s order through a `Stop`, and `Tunnel.StartStopRestoresHosts` follows `StartTunnel`'s.
