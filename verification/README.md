# A verified model of corvex

corvex puts an xray proxy between a computer and the network: it compiles a
subscription into xray's `config.json`, starts and stops xray, points the
system's proxy settings at it, and diagnoses the resolvers. This project models
the parts of it that promise something and proves the promises. `dafny verify
dfyconfig.toml` checks all of it.

## What is modelled

**Trusted ancestry** (`FileSystem`, `AclText`, `Ancestry`, `Stability`). A file
system is a map of inodes with owners, mode bits, ACLs, entries and `..`;
`FileSystem.Resolve` is pathname resolution as POSIX.1-2017 XBD section 4.13
defines it. `Ancestry.WalkTrustedAncestry` is the loop of the source with its
recursion into links and its shared hop counter, and `Ancestry.Judge` the
resolution it refines. `Stability` lets other accounts create, link, unlink,
rename and change attributes as far as Unix lets them, erring on the permissive
side, and shows that what was accepted stays where it is.

**Process lifecycle** (`Lifecycle`). A world holds what is at the PID path, the
process table and what this run of corvex may do. `Lifecycle.Host` has the
methods of `src/xray.rs` that change it; each is proved equal to a function on
worlds, and the theorems are about those functions and about runs of them
interleaved with deaths, reused PIDs and changed permissions.

**The config compiler** (`Json`, `Outbound`, `OutboundReading`, `Traffic`,
`ConfigFile`, `ConfigMeaning`). JSON is a
datatype; the writers of outbounds, the reader that takes parameters back, the
rule compiler and the four rewriters of an existing file are methods proved
against functions. Rule lists have a first-match meaning.

**Codecs** (`Text`, `Bytes`, `DnsWire`, `Subnet`, `Base64`, `Utf8`,
`Shadowsocks`). Each encoder has an independent decoder or the other way round,
and a round trip on all inputs.

**Quoting, batches, the DNS report** (`Quoting`, `CommandGuard`, `ProxyBatch`,
`DnsReport`). The
readers the quoted text is meant for are written down as lexers. The machine's
proxy settings are a map the commands overwrite. The DNS report is compared with
one that diagnoses every mention.

## What the code does that its comments do not say

- A start calls itself failed only if `ps` stops showing the dead child under its
  name: nothing waits for the child, so it is still in the process table when
  `is_running` looks (`Lifecycle.FailureNoticedIff`; src/xray.rs:853-862).
- A second xray is started beside a live one exactly when the PID file can be
  written but not read (`Lifecycle.StartTracksIffNotBlind`; src/xray.rs:195-202,
  571-588), or when the child's PID does not fit 32 signed bits
  (`Lifecycle.OutOfRangeIsUntracked`).
- A number in the PID file that is not positive addresses process groups: a stop
  acts on all of another one (`Lifecycle.NonPositivePidHitsGroup`), and on its own
  one it ends corvex at the SIGTERM (`Lifecycle.OwnGroupEndsCorvex`).
- The forced kill hits the process that was identified exactly when its PID is not
  reused during the waits (`Lifecycle.KillHitsIdentifiedIff`).
- The walk reads no ACL of a symbolic link, so an accepted path lasts exactly when
  no link on it offers `delete`, `writesecurity` or `chown` to another account
  (`Stability.AcceptanceLastsIff`; src/config.rs:1234-1237, 1276-1290).
- With a server named `direct` or `block` the outbound tags collide; with `direct`,
  private addresses go into the tunnel (`ConfigFile.TagsDistinctIff`,
  `ConfigFile.PrivateStaysDirectIff`; src/protocol.rs:786-790).
- "Not changed" is said of a batch whose failing chain mentions `User canceled`,
  whatever it has done: with a service of that name the server is already set
  (`ProxyBatch.NotChangedIsTrueIff`, `ProxyBatch.NotChangedCanBeFalse`;
  src/platform/macos.rs:185-190, 465-467).
- A legacy Shadowsocks link with an `@` in the password, and a SIP002 link with
  the `/` that SIP002 allows after the port, are not read right
  (`Shadowsocks.LegacyRoundTripIff`, `Shadowsocks.SlashAfterPortIsRefused`).
- The memoized DNS report is the naive one on every machine exactly when no IPv4
  nameserver is listed twice; with a repeat it takes a machine whose answers do not
  change (`DnsReport.CachedIsNaiveIff`, `DnsReport.CachedIsNaive`;
  src/main.rs:1515-1521).

## Assumptions

- The ancestry walk sees one snapshot of the file system. Search permission and
  system calls that fail for other reasons than a missing entry are not modelled.
- What an ACL may allow is read permissively: its deny entries are not counted on,
  and an entry that names no account may be anybody's.
- Nobody outside belongs to corvex's own private group; src/config.rs:1373-1386
  names the gap.
- `is_running` is one step: nothing happens between its read and its removal. A
  process corvex started carries the configured binary's name.
- Outside events do not touch the PID file. SIGKILL is final where it is allowed.
- A `networksetup` command takes effect when it exits well and prints no error
  mark; what osascript prints when a chain fails is an input.
- xray asks the first DNS server whose `domains` cover a name, takes the first rule
  that applies and the first outbound of a tag; what an entry covers is a parameter.
- JSON values handed to the rewriters have objects where the code indexes into
  objects (`ConfigFile.WellShaped`); the code panics on others.

## Model

| member | source | states |
|---|---|---|
| `AclText.UntrustedAclRejection` | src/config.rs:1647-1703 | the line loop returns the refusal of the first line that has one |
| `AclText.EntryJudged` | src/config.rs:1626-1642 | a rendered entry is refused exactly when it allows a mutation right to somebody other than user euid and user 0, whatever its inheritance flags and with or without rights |
| `AclText.AclJudged` | src/config.rs:1619-1645 | a rendered list passes exactly when no entry of it grants such a right |
| `AclText.UnreadableIffOutsideGrammar` | src/config.rs:1643-1645 | a line is refused as unreadable exactly when it is not blank, not a header and outside the documented grammar |
| `Ancestry.AcceptIsTrustedResolution` | src/config.rs:1123-1128 | judged resolution accepts an inode exactly when POSIX resolution within the link budget reaches it and every node passed is trusted |
| `Ancestry.JudgeComposes` | src/config.rs:1208-1215 | judging a path is judging its first part, then the rest from where that ended with the links that are left |
| `Ancestry.RewalkIsIdentity` | src/config.rs:1244-1254 | walking a link-free trusted path again from the root costs no link and ends at the same directory, for judgement and resolution alike |
| `Ancestry.LinkStep` | src/config.rs:1234-1255 | a link whose target is restarted from the root is judged as the kernel resolves it from the link's directory |
| `Ancestry.WalkTrustedAncestry` | src/config.rs:1217-1263 | terminates on every tree, loops of links included; success gives a link-free path of trusted directories to the inode resolution reaches, within 32 links in all; failure gives the refusal of the first untrusted step |
| `Ancestry.EnsureTrustedAncestry` | src/config.rs:1147-1165 | accepts exactly when the path's directory resolves with at most 32 links through trusted nodes only, the root included; a relative path is taken from the working directory |
| `Ancestry.FileIsLookedUpThere` | src/config.rs:1148-1156 | the directory that is judged is the one in which the kernel looks the file's own name up, from any working directory |
| `Ancestry.MoreLinksReachTheSame` | src/config.rs:1203-1206 | a larger link budget reaches the same inode, so where the walk gets the kernel gets |
| `Stability.TrustedIff` | src/config.rs:1306-1351 | a directory is trusted exactly when corvex or root owns it, its ACL offers no foreign account a right to change it or take it over, and it is sticky or no foreign account may write to it; a link exactly when corvex or root owns it; a file never |
| `Stability.OwnerIsForeignIff` | src/config.rs:1276-1290 | an owner passes exactly when it is no foreign account |
| `Stability.BitsAcceptedIff` | src/config.rs:1402-1410 | the write bits are refused exactly when some foreign account may write, the group's being excused for the account's own private group |
| `Stability.AclAcceptedIff` | src/config.rs:1195-1200 | an ACL is accepted exactly when it offers no foreign account any of those rights |
| `Stability.RightsCovered` | src/config.rs:1602-1611 | the rights looked for are those that change a directory's entries and those that take an entry over |
| `Stability.TrustedIsOutOfReach` | src/config.rs:1095-1111 | a foreign account cannot own a trusted directory, write to it unless it is sticky, or unlink an entry of it that is a trusted directory or a trusted link without an ACL that offers it |
| `Stability.StepKeeps` | src/config.rs:1099-1105 | every step a foreign account is allowed keeps such nodes as they are and such entries of trusted directories in place |
| `Stability.StepWellFormed` | src/config.rs:1208-1215 | every allowed step, of any account, keeps the directories a tree with matching `..` |
| `Stability.JudgeKept` | src/config.rs:1113-1128 | an accepted judgement over sealed links passes the same nodes and comes out the same after a foreign step, links and `..` included |
| `Stability.AcceptanceLasts` | src/config.rs:1099-1111 | with no link of the path offering takeover in its ACL, after every run of foreign steps the accepted path resolves to the same directory and is still accepted |
| `Stability.AcceptanceLastsIff` | src/config.rs:1099-1111 | and it lasts through every such run only then |
| `Stability.UnsealedIsLost` | src/config.rs:1270-1274 | a link whose ACL does offer it gives some foreign account a single step after which the path is not accepted |
| `Stability.UnlinkableAncestorIsLost` | src/config.rs:1103-1105 | where a foreign account may unlink any entry the path looks up, directory or link, one step makes the path lead nowhere, so the refusals are needed |
| `Lifecycle.Host.IsRunning` | src/xray.rs:195-234 | returns the PID of a live xray and removes only a stale file, as the transition function says |
| `Lifecycle.Host.PreflightPidFile` | src/xray.rs:571-631 | the probe, the shape test, the removal and the second probe are that transition: pass or one of five refusals, with the file left |
| `Lifecycle.Host.WritePidFile` | src/xray.rs:737-741 | writes the PID through the restricted open, or changes nothing |
| `Lifecycle.Host.Start` | src/xray.rs:773-863 | every branch of a start and the world each leaves |
| `Lifecycle.Host.Stop` | src/xray.rs:866-886 | every branch of a stop, with the poll of twenty waits and the forced kill, and its end at its own SIGTERM |
| `Lifecycle.Host.MainAlgorithm` | src/main.rs:1095-1136 | stop what runs, give up if that fails or the port cannot be written, then start |
| `Lifecycle.LiveIsRunning` | src/xray.rs:195-234 | a PID is reported exactly when a readable file names it, it is in the process table, and `ps` does not show it under another name |
| `Lifecycle.BlanksAroundPid` | src/xray.rs:204 | blanks around the number in the PID file do not matter |
| `Lifecycle.StaleIsRemoved` | src/xray.rs:204-230 | a readable file that names nothing live is removed where it can be, and nothing else changes |
| `Lifecycle.PreflightVerdict` | src/xray.rs:571-631 | the preflight passes exactly where the path opens or a removable stale file is all that is in the way, and names any other obstacle for what it is |
| `Lifecycle.StartOutcome` | src/xray.rs:773-863 | how a start ends, from what it finds: it gets to the spawn exactly with a config, nothing live, a free path, a log and a child, and then fails only for a child seen to be gone |
| `Lifecycle.PathFreeIff` | src/xray.rs:778-792 | which path is free, for every shape of entry, after both the liveness check and the preflight |
| `Lifecycle.StopOutcome` | src/xray.rs:866-896 | a stop of a live xray succeeds exactly when it may be signalled, and then that process and the removable file are gone; otherwise it is not permitted |
| `Lifecycle.NotRunningIff` | src/xray.rs:866-870 | nothing is stopped exactly when no live xray is named |
| `Lifecycle.ObedientIsNotKilled` | src/xray.rs:874-882 | a process a wait finds gone is not killed: only the file is removed |
| `Lifecycle.RestartOutcome` | src/main.rs:1095-1136 | a restart replaces what may be signalled, and starts exactly when the port was written; what may not be signalled stays as it is |
| `Lifecycle.PreflightPredictsOpen` | src/xray.rs:605-617 | the preflight passes exactly when the later open will succeed, and touches no process |
| `Lifecycle.WriteNeverFails` | src/xray.rs:839-851 | no start gets as far as the error that leaves an xray running without a PID file |
| `Lifecycle.LiveFilesStay` | src/xray.rs:588-604 | a file that cannot be read, is no regular file or names a live xray is never removed |
| `Lifecycle.TrackedMeansOne` | src/xray.rs:773-781 | with the invariant, at most one xray corvex started is alive |
| `Lifecycle.LaunchKeepsTracked` | src/xray.rs:829-862 | with nothing alive and the path open, a spawn ends tracked under its PID, or failed with nothing left alive |
| `Lifecycle.StartKeepsTracked` | src/xray.rs:773-863 | a start from a tracked state that is not blind ends tracked; success names the new PID, failure leaves nothing new running |
| `Lifecycle.FailureNoticedIff` | src/xray.rs:853-862 | the check after the wait fails exactly when the child exited, `ps` works and no longer shows it under its name |
| `Lifecycle.StartTracksIffNotBlind` | src/xray.rs:195-202 | every start keeps the invariant if and only if the PID file does not name a live xray in a file that can be written but not read |
| `Lifecycle.OutOfRangeIsUntracked` | src/xray.rs:833-837 | the range error leaves an untracked xray |
| `Lifecycle.StopKeepsTracked` | src/xray.rs:866-896 | success means nothing of corvex's is alive; without permission nothing at all has changed |
| `Lifecycle.StopSparesOthers` | src/xray.rs:889-911 | a stop with a positive PID leaves every other process alone |
| `Lifecycle.KillHitsIdentifiedIff` | src/xray.rs:874-884 | the forced kill hits nothing but the recorded PID, and the process identified under it exactly when no other appears there during the waits |
| `Lifecycle.NonPositivePidHitsGroup` | src/xray.rs:907-911 | with a number that is not positive and not its own group's, every process kill(2) addresses by it and corvex may signal is killed |
| `Lifecycle.OwnGroupEndsCorvex` | src/xray.rs:889-896 | with its own group's number the SIGTERM ends corvex: no poll, no kill, no removal, and no start follows |
| `Lifecycle.PortFailureLeavesNothing` | src/main.rs:1119-1121 | a config that cannot be rewritten leaves what ran stopped and nothing started |
| `Lifecycle.ZeroIsReported` | src/xray.rs:204-219 | a file holding `0` is taken for a running xray |
| `Lifecycle.StepKeepsTracked` | src/main.rs:1095-1136 | start, stop, restart, outside events and another user's permissions each keep the invariant |
| `Lifecycle.RunsKeepOneTrackedXray` | src/xray.rs:773-896 | so does every run of them |
| `Json.StringsRoundTrip` | src/protocol.rs:655-663 | a string list survives being written as JSON and filtered back |
| `Json.OnlyStringsAppend` | src/protocol.rs:655-663 | what is no string is passed over, wherever it stands |
| `Outbound.BuildStreamSettings` | src/protocol.rs:318-404 | the insertions of the source make the specified stream settings |
| `Outbound.AddTransportSettings` | src/protocol.rs:341-401 | so does the part that depends on the network |
| `Outbound.ParamsFromOutbound` | src/protocol.rs:475-626 | field by field, with the first missing or bad field as the error |
| `Outbound.ReadStreamSettings` | src/protocol.rs:628-744 | REALITY and unknown networks are refused, other transports read |
| `Outbound.RoundTrip` | src/protocol.rs:471-474 | for every parameter value, reading what was written gives the normalized value, and fails exactly for other protocols, REALITY and other networks, with that error |
| `Outbound.NormalizeIdempotent` | src/protocol.rs:471-474 | a second round trip changes nothing |
| `Outbound.RebuiltIsSame` | src/protocol.rs:672-684 | writing the value read back gives the same outbound up to a false or absent `multiMode`, and exactly the same for other transports than grpc |
| `OutboundReading.ReadableIff` | src/protocol.rs:475-744 | any outbound is taken exactly when it has the fields its protocol needs, a port in range as number or text, a known network and no REALITY, and its own values are read |
| `OutboundReading.MissingNetworkIsTcp` | src/protocol.rs:628-633 | a network that is missing or no text reads as `tcp` does |
| `OutboundReading.MissingSecurityIsNone` | src/protocol.rs:634-638 | likewise the security, as none |
| `OutboundReading.MissingSectionIsEmpty` | src/protocol.rs:644-739 | a missing tls, grpc, ws, http or tcp section reads as an empty one |
| `OutboundReading.MissingStreamIsEmpty` | src/protocol.rs:628-638 | an outbound without stream settings is plain tcp |
| `OutboundReading.MissingUserField` | src/protocol.rs:516-566 | a user without encryption, flow, security or alterId reads as one with `none`, the empty text, `auto` and 0 |
| `OutboundReading.TextAlterIdIsNumber` | src/protocol.rs:557-561 | a numeric alterId text reads as the number, one beyond 32 bits as 0 |
| `OutboundReading.TextPortIsNumber` | src/protocol.rs:460-469 | a numeric port text reads as the number does, out of range too |
| `Traffic.MergeDirectDomains` | src/traffic.rs:22-46 | corporate entries, then subscription entries not also proxied, each once in order |
| `Traffic.DedupSubsDirectIps` | src/traffic.rs:50-62 | first occurrences up to case, without `geoip:private` |
| `Traffic.BuildRoutingRules` | src/traffic.rs:66-114 | the rule list, with empty rules left out |
| `Traffic.NormalizedEntry` | src/traffic.rs:4-15 | entries with one of the six prefixes are kept, others are domains, and normalizing again changes nothing |
| `Traffic.DirectDomainsAre` | src/traffic.rs:17-46 | a domain goes direct exactly when it is corporate, or from the subscription and not proxied |
| `Traffic.DomainsOnce` | src/traffic.rs:22-46 | no direct domain is listed twice |
| `Traffic.AddressesOnce` | src/traffic.rs:48-62 | no subscription address is listed twice, in whatever case, and none is the private range |
| `Traffic.LowerIff` | src/traffic.rs:53-57 | two entries are the same key exactly when they differ in the case of ASCII letters only |
| `Traffic.NoEmptyRule` | src/traffic.rs:86-110 | no rule has an empty list |
| `Traffic.RequestDecision` | src/traffic.rs:66-114 | what becomes of every request, from the lists as written: private, subscribed addresses, corporate and unproxied subscription domains direct, then proxied domains to the proxy |
| `Traffic.FirstsMatchAlike` | src/traffic.rs:50-62 | dropping later entries with the same key loses no match when matching depends on the key |
| `Traffic.CompiledDecision` | src/traffic.rs:75-114 | first-match on the compiled list decides as four lists asked in turn |
| `Traffic.CompilationPreservesDecisions` | src/traffic.rs:22-114 | for every request, and every matcher that ignores case on ip entries, the compiled list decides as the one without dedup, without the geoip:private filter and with empty rules |
| `Traffic.SubscriptionOnlyAddsDirect` | src/traffic.rs:22-62 | if subscription lists change a decision, the new one is direct and the request matches one of their entries |
| `Traffic.ProxiedSubscriptionEntriesAreIdle` | src/traffic.rs:17-21 | removing the subscription entries that are also proxied leaves the rule list identical |
| `ConfigFile.File.ApplyToConfig` | src/protocol.rs:902-960 | replaces the chosen outbound and the log fields, or fails and leaves the file |
| `ConfigFile.File.UpdateRoutingRules` | src/main.rs:819-836 | replaces the rules, making the section up where missing |
| `ConfigFile.File.SyncToConfig` | src/dns.rs:171-253 | corporate servers before the kept ones, and the corporate rule replaced or appended; no mapping, no change |
| `ConfigFile.File.MergeServers` | src/dns.rs:184-212 | corporate entries, then the existing ones no mapping points at, in order |
| `ConfigFile.File.UpdateConfigPort` | src/main.rs:1177-1190 | sets the port of the first inbound, or fails |
| `ConfigFile.File.WriteXrayConfig` | src/main.rs:794-817 | updates in place where both rewriters succeed and writes the file anew otherwise |
| `ConfigFile.WriteByWrite` | src/main.rs:794-836 | on a file corvex made, each rewriter produces exactly the generator's output for changed arguments |
| `ConfigFile.StartOn` | src/main.rs:363-408 | a start in either mode takes the file through its writes to the stated shape |
| `ConfigFile.StartedIsReady` | src/protocol.rs:777-898 | the file xray is spawned on has a target for every rule, the private rule first, a corporate rule last and nowhere else, and a sniffing socks listener on this machine's own address at the configured port |
| `ConfigFile.RunsStayMade` | src/main.rs:789-793 | any sequence of starts in either mode, each cut short anywhere, leaves no file or one corvex could have generated |
| `ConfigFile.EveryStartIsReady` | src/main.rs:363-408 | hence after any such sequence the next start is ready, with outbound tags that are pairwise distinct exactly when the server is called neither `direct` nor `block` |
| `ConfigFile.TagsDistinctIff` | src/protocol.rs:786-830 | the exact names for which the tags collide; `direct` leads to the `freedom` outbound exactly when the server is not called that, and the server's tag always leads to the server |
| `ConfigFile.PrivateStaysDirectIff` | src/traffic.rs:75-84 | for every matcher, a private address leaves by the `freedom` outbound exactly when the server is not called `direct` |
| `ConfigFile.InPlaceIsRegeneration` | src/protocol.rs:899-960 | updating in place and regenerating agree on log, inbounds, outbounds and routing, and the DNS servers are the corporate ones followed by those kept |
| `ConfigFile.SyncIdempotent` | src/dns.rs:165-253 | syncing twice is syncing once, on any well-shaped file |
| `ConfigFile.OtherSectionsSurvive` | src/protocol.rs:899-901 | no rewriter touches a top-level section that is not its own |
| `ConfigFile.MappedDomainsAscend` | src/dns.rs:219-222 | the mapped domains are strictly ascending already, so sorting and dedup change nothing |
| `ConfigMeaning.CoveredNameIsAsked` | src/dns.rs:184-192 | after a sync of any well-shaped file, a name is asked at port 53 of the server of the first mapping that covers it |
| `ConfigMeaning.MappedNameGoesHomeIff` | src/dns.rs:165-192 | a mapped name goes to its own server exactly when the first mapping that covers it names that server, so always when no other key covers it |
| `ConfigMeaning.OtherNamesAskAsBefore` | src/dns.rs:194-211 | a name no mapping covers is asked where it was before, unless a mapping points at that server |
| `ConfigMeaning.KeptIff` | src/dns.rs:194-211 | of the servers there were, exactly the plain addresses and those no mapping points at stay |
| `ConfigMeaning.CorpRuleAppliesIff` | src/dns.rs:217-228 | the corporate rule sends direct exactly what goes to port 53, over tcp or udp, for a mapped name |
| `ConfigMeaning.CorpRulePlaced` | src/dns.rs:240-248 | it replaces the first rule of its name or comes last, and no other rule moves |
| `ConfigMeaning.SyncFailsIff` | src/dns.rs:230-239 | the sync fails exactly on routing rules that are no list |
| `ConfigMeaning.AppliedMeans` | src/protocol.rs:912-956 | the outbound replaced is the first of the same protocol or else the first proxy, without either there is no update, and the log fields are the configured ones |
| `ConfigMeaning.RoutedMeans` | src/main.rs:826-831 | the rules are the new ones and every other routing field is as it was |
| `ConfigMeaning.PortedMeans` | src/main.rs:1182-1185 | the first inbound's port is the new one and nothing else of the inbounds has changed |
| `ConfigMeaning.StartedSays` | src/main.rs:363-408 | on the file xray is spawned on, the log goes where configured and the server's tag leads to an outbound from which the parameters asked for can be read back, or in AWG mode to `freedom` |
| `ConfigMeaning.StartedDecides` | src/main.rs:363-408 | and every request is decided by the lists as written, DNS queries for mapped names last |
| `DnsWire.BuildDnsQuery` | src/netdiag.rs:288-324 | encodes exactly the names of non-empty ASCII labels of at most 63 bytes and 255 in all; refuses others with the first reason met |
| `DnsWire.LabelsAre` | src/netdiag.rs:301-303 | a name is its non-empty labels with dots between and any number of dots after |
| `DnsWire.EncodableIff` | src/netdiag.rs:301-320 | exactly the names of ASCII labels of 1 to 63 characters that are at most 253 characters in text can be asked for |
| `DnsWire.QueryRoundTrip` | src/netdiag.rs:288-324 | an RFC 1035 decoder gets back the id, the flags of a recursive query and exactly the labels, from at most 271 bytes |
| `DnsWire.QueryIsInjective` | src/netdiag.rs:288-324 | two queries have the same bytes exactly when id and labels are the same |
| `DnsWire.ReplyMatchesQuery` | src/netdiag.rs:331-347 | the query itself is never accepted as a reply; the same bytes with QR set are, for that id only |
| `DnsWire.ReplyAcceptedIff` | src/netdiag.rs:331-347 | any reply is accepted exactly when it has 12 octets, the id and the QR bit, whatever else it carries |
| `Subnet.MaskOfPrefix` | src/netdiag.rs:196-203 | the shifted word has the bits of the prefix and no other |
| `Subnet.MaskedEqualIsSameSubnet` | src/netdiag.rs:210-218 | two words agree under the mask exactly when they agree after division by the subnet's size |
| `Subnet.PrintedAddressParses` | src/netdiag.rs:211-216 | a dotted quad parses to the word it prints |
| `Subnet.ParseIpv4Iff` | src/main.rs:1457-1459 | exactly the printed addresses parse, so any other nameserver stays undiagnosed |
| `Subnet.NextHopIsSubnetTest` | src/netdiag.rs:205-218 | on any two texts, the next hop is on link exactly when one is no IPv4 address or both lie in one subnet of the prefix |
| `Subnet.RouteIsOnLink` | src/netdiag.rs:247-263 | false exactly when there is a gateway and a judgeable address, and no judgeable address shares its subnet |
| `Subnet.VerdictIgnoresOrderAndAliases` | src/netdiag.rs:239-246 | order, repetition and host-mask aliases do not change the verdict |
| `Base64.DecodeInvertsEncode` | src/protocol.rs:116-136 | all four renderings of every byte string decode to it |
| `Base64.DecodesIffEncoding` | src/protocol.rs:116-136 | and nothing decodes to it but text that is its encoding once standardized and padded |
| `Utf8.Utf8RoundTrip` | src/protocol.rs:986 | reading the UTF-8 bytes of any text gives the text |
| `Utf8.DecodePercent` | src/protocol.rs:973-985 | the index loop replaces escapes by octets and keeps everything else |
| `Utf8.UrlDecodeInvertsEncode` | src/protocol.rs:967-987 | decoding undoes every percent-encoder on every text, whichever characters it leaves raw |
| `Shadowsocks.ParseSsUri` | src/protocol.rs:243-313 | both branches, assignment by assignment, with their errors |
| `Shadowsocks.OnlySsLinks` | src/protocol.rs:244 | a link of another scheme, and only that, is refused as no Shadowsocks link |
| `Shadowsocks.BlanksAroundText` | src/protocol.rs:266-293 | blanks around the encoded text do not matter |
| `Shadowsocks.Sip002RoundTripIff` | src/protocol.rs:259-290 | a SIP002 link, with a name or without, gives back method, password, host, port and name exactly when method, host and query avoid the delimiters around them |
| `Shadowsocks.SlashAfterPortIsRefused` | src/protocol.rs:263-290 | with a `/` after the port the link is refused for its port |
| `Shadowsocks.LegacyRoundTripIff` | src/protocol.rs:291-310 | a legacy link, with a name or without, gives them back exactly when the method holds no `:` or `@` and the password no `@`; the host may be any text |
| `Quoting.ShellEscape` | src/platform/macos.rs:435-447 | agrees with `shell_quote` (src/config.rs:1838-1840) on every string |
| `Quoting.ApplescriptEscape` | src/platform/macos.rs:449-459 | the text of a string literal |
| `Quoting.ScriptRead` | src/platform/macos.rs:496-503 | un-escaping the AppleScript literal gives back the shell text |
| `Quoting.QuotedRead` | src/config.rs:1838-1840 | a shell reads a quoted argument as one word with exactly its characters |
| `Quoting.ChainRead` | src/platform/macos.rs:485-494 | the shell's words are one `c bin args...` per entry, in order, joined by `&&` |
| `Quoting.OsascriptRunsTheCommands` | src/platform/macos.rs:485-503 | through both readers the helper is followed by exactly the commands asked for |
| `CommandGuard.HelperIsGuard` | src/platform/macos.rs:478-479 | the helper's text is the printed form of its five statements |
| `CommandGuard.GuardMeans` | src/platform/macos.rs:472-477 | run in order, they show the output, return 1 for the error mark and else the command's own status |
| `ProxyBatch.DoneIff` | src/platform/macos.rs:28-42 | a command counts as done exactly when it exits well and no stream shows the error mark, nor the two together across the blank between them; as needing an administrator exactly when it does not and the text says so |
| `ProxyBatch.Machine.RunChain` | src/platform/macos.rs:472-494 | the chain stops at the first command that fails or prints the error mark |
| `ProxyBatch.Machine.RunNetworksetupElevated` | src/platform/macos.rs:206-230 | success exactly when every command passed the guard and the outputs together show no error mark, and then each exited well without one; denial exactly when a failed run's text speaks of cancelling; a prompt that was refused changes nothing |
| `ProxyBatch.Machine.RunNetworksetupAll` | src/platform/macos.rs:81-129 | the exact result and state for every input; success means all commands once in order even after a partial run and a replay, and without an escalation that each exited well with clean output; denial exactly when an escalation reads as cancelled, with "may already have been applied" exactly when something was |
| `ProxyBatch.ReplayAbsorbsPrefix` | src/platform/macos.rs:78-80 | running the batch after a part of it is running the batch |
| `ProxyBatch.NotChangedIsTrueIff` | src/platform/macos.rs:141-153 | "not changed" is true of every state exactly when it was not said, or the prompt let nothing run, or the commands that passed write nothing |
| `ProxyBatch.BatchesWrite` | src/platform/macos.rs:232-254 | for the enabling and the disabling batch the last of these means that none passed |
| `ProxyBatch.NotChangedCanBeFalse` | src/platform/macos.rs:185-190 | a service called `User canceled` for which it is said with the server already set |
| `ProxyBatch.EnablingIsSafe` | src/platform/macos.rs:232-244 | however far the batch gets, no proxy is switched on pointing elsewhere; in the end all three are on at the address and other services are untouched |
| `ProxyBatch.DisablingIsComplete` | src/platform/macos.rs:246-254 | all three are off and nothing else has changed |
| `DnsReport.DiagnoseNameserver` | src/main.rs:1540-1568 | the line and the calls of one diagnosis; an off-link or non-IPv4 nameserver is not probed |
| `DnsReport.ListNameservers` | src/main.rs:1523-1535 | the cache holds exactly the lines of the addresses mentioned so far |
| `DnsReport.CmdDnsWith` | src/main.rs:1483-1538 | the report gives every mention the line of its address's first diagnosis, and the calls are those of one walk over the distinct addresses |
| `DnsReport.CachedIsNaive` | src/main.rs:1515-1521 | on a machine with steady answers the report is the one that diagnoses every mention, whatever is listed |
| `DnsReport.CachedIsNaiveIff` | src/main.rs:1515-1521 | it is on every machine, steady or not, exactly when no IPv4 nameserver is listed twice |
| `DnsReport.LineTellsCalls` | src/main.rs:1540-1568 | the line of an IPv4 nameserver says without a route, off the link, answered or silent exactly as its one lookup and its probe in the trace came out |
| `DnsReport.UndiagnosedIsNotAsked` | src/main.rs:1548-1551 | any other is said not to be diagnosed and nobody is asked about it |
| `DnsReport.OneLookupEach` | src/main.rs:1540-1557 | each distinct IPv4 nameserver gets one route lookup, in order of first mention, and nothing else does |
| `DnsReport.ProbedIffOnLink` | src/main.rs:1558-1565 | a probe follows the lookup that found its address on the link, and every such lookup is followed by its probe |
| `DnsReport.SteadyProbes` | src/main.rs:1558-1565 | with steady answers the probes are the distinct on-link IPv4 nameservers in order of first mention |

## Left out

- The ACLs of plain files: none of them is on an accepted path.
- Creating missing directories before a start, and a PID path that is a FIFO with no writer.
- What `list_xray_processes` reports after a failed start, and all message wording, colours and logging.
- The Windows halves of the process functions and of the path types.
- `ConfigFile.StartOn`: begins after the mappings have been merged with the discovered ones, and leaves out directory creation.
- Printing and parsing JSON text, and the order of keys.
- The URI parsers for vless, vmess and trojan, subscription downloads, and the choice among several sources.
- The text parsers for `scutil`, `resolvectl`, `ifconfig`, `ip` and `ps`.
- `Quoting.OsascriptRunsTheCommands`: the helper's own text is not lexed but printed from its statements by `CommandGuard`; text that would need a shell expansion is not read, and no command produces any.
- `Base64.DecodeInvertsEncode`: the length that decides the padding is counted in characters, which matters only for text the decoder refuses anyway.
- `run_networksetup` for one command: it is the batch of one.
- Sockets, processes and spawned programs: their answers are inputs of the models.
