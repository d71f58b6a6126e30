# JPPF: a verified model of the web pages and of the grid's core bookkeeping

This project models two parts of JPPF, the Java parallel-processing framework.

- **The project's web pages** (`index.php`, `downloads.php`, `downloads-unstable.php`,
  `features.php`, `license.php`, `contacts.php`):
  - how a page's identifier is resolved;
  - when the top frame is shown;
  - which top-bar tab and which sidebar entries get the active CSS class;
  - how the download and documentation links are concatenated;
  - the numbered "latest news" list of the home page.
- **The Java core of the grid**:
  - execution policies: the logical rules, their operand arrays, property lookup, and the
    root and context links of a policy graph;
  - the server-side job: task bookkeeping, cancellation, and bundle completion;
  - the node server's connection registry and its idle set;
  - the results state of a node channel;
  - the class-loading contexts and servers on the node side and the client side;
  - the driver's start-up message;
  - node administration: shutdown or restart, and CPU time;
  - the client and its connections;
  - interceptors and node life-cycle events;
  - the concurrent-hash-map serializer;
  - channel output;
  - the process wrapper's stream reader;
  - localisation;
  - exception utilities;
  - UUID generation;
  - positional command-line arguments;
  - the admin console's node tree and its refresh handler.

## Modelling conventions

- **Pure or imperative, as in the source.** Pure code becomes functions with lemmas.
  Code that updates objects becomes classes: their fields are `seq`, `map` or `set` values
  that methods reassign. Each method is proved against a specification function.
- **Unbounded integers.** Java's `int` is modelled as an unbounded integer. No operation
  modelled here depends on 32-bit wrap-around.
- **Inputs instead of effects.** I/O, the clock, randomness and calls into code that is not
  modelled become inputs. Examples:
  - the answers a channel gives to successive writes;
  - the rows a database query returns;
  - the order in which a `HashMap` or `HashSet` is iterated;
  - what a remote driver answers.
- **Exceptions as results.** A Java exception becomes a `Result` or outcome value, so the
  error path is part of the contract.
- **Strings.** Strings are sequences of characters. Java compares UTF-16 code units; the
  model compares characters.

## Model

| member | source | states |
|---|---|---|
| Navigation.ResolvePage | JPPF/docs/home/index.php:21-26 | A page that declares its identifier keeps it. Otherwise the `page` request parameter is used. A missing or empty parameter gives "Home", so the result is never empty, and any result other than "Home" came from the request. |
| Navigation.TabClass | JPPF/docs/home/index.php:45-61 | A tab's class starts with `headerMenuItem`. It has the trailing `2` exactly when the tab's name is the page. The space and the tab's position suffix follow. |
| Navigation.ItemClass | JPPF/docs/home/index.php:73-114 | A sidebar entry is `aboutMenuItem` exactly when the page is one of the identifiers it tests, and `aboutMenuItem2` otherwise. An entry that tests nothing is always `aboutMenuItem2`. |
| Navigation.ActiveTabs | JPPF/docs/home/index.php:45-61 | Every active tab is the one named by the page. There are never more active tabs than tabs. |
| Navigation.ActiveTabsByLabel | JPPF/docs/home/index.php:45-61 | Some tab is active if and only if some tab carries the page's name. |
| Navigation.AtMostOneActiveTab | JPPF/docs/home/index.php:45-61 | When tab names are distinct, at most one tab is active. |
| Navigation.ActiveEntriesMatch | JPPF/docs/home/index.php:73-114 | Every active sidebar title belongs to an entry that tests the page. |
| SiteLinks.ArtifactUrlParts | JPPF/docs/home/downloads.php:153-193 | An artifact link is the base, then `JPPF-`, the version and `-`, then the artifact name. The name can be read back from the end of the link. |
| SiteLinks.ArtifactUrlInjective | JPPF/docs/home/downloads.php:153-193 | Distinct artifacts of one release get distinct links. |
| SiteLinks.SourceForgeUrlParts | JPPF/docs/home/downloads.php:202-220 | An older-release link starts with that version's SourceForge folder and ends with the artifact followed by `/download`. |
| SiteLinks.DocLinkParts | JPPF/docs/home/features.php:122-124 | A documentation link names its version right after `/doc/` and ends with `/index.php?title=` and the title. |
| HomePage.Title | JPPF/docs/home/index.php:8 | The title is "JPPF ", then the page identifier, which can be read back from it. |
| HomePage.HomeTitle | JPPF/docs/home/index.php:3-27 | The home page declares "Home", so whatever the request says, the title is "JPPF Home" and the top frame is shown. |
| HomePage.HomeClasses | JPPF/docs/home/index.php:45-73 | On the home page the Home tab's class is `headerMenuItem2 header_item_start` and the Home entry's class is `aboutMenuItem`. |
| HomePage.UnstableEntry | JPPF/docs/home/index.php:76 | The "6.1 alpha" entry is active exactly for the identifiers "6.1 alpha" and "download-unstable". |
| HomePage.HomeActivity | JPPF/docs/home/index.php:45-114 | On the home page the only active tab is Home and the only active sidebar entry is Home. |
| HomePage.DateText | JPPF/docs/home/index.php:198 | The `n/j/Y` date is the month, the day and the year without leading zeros, separated by slashes. It starts with `0` only for month 0. |
| HomePage.NewsLines | JPPF/docs/home/index.php:196-200 | The news block has one line per row, five lines at most. |
| HomePage.PrintNews | JPPF/docs/home/index.php:196-200 | The fetch loop prints exactly the first five rows (or fewer), the k-th as line k. |
| HomePage.RenderNews | JPPF/docs/home/index.php:188-191 | A failed connect, select or query ends the page with its message. Otherwise the rows are rendered. |
| HomePage.NewsLineAnchor | JPPF/docs/home/index.php:198 | Each news line starts with its link to the anchor `news{k}`. |
| HomePage.NewsAnchorsDistinct | JPPF/docs/home/index.php:196-199 | No two news lines are equal, because their anchor numbers differ. |
| HomePage.NewestFirst | JPPF/docs/home/index.php:190-199 | For rows in descending date order, the k-th line shows row k, and no row left out is newer than one shown. |
| ContactsPage.LeftCap | JPPF/docs/home/contacts.php:39 | The left cap is `btn_start.gif` exactly on the home page, and `btn_active_start.gif` elsewhere. |
| ContactsPage.RightCap | JPPF/docs/home/contacts.php:121 | The right cap is `btn_end.gif` exactly on the forums page, and `btn_active_end.gif` elsewhere. |
| ContactsPage.Style | JPPF/docs/home/contacts.php:41-119 | A tab is `headerMenuItem2` over `btn_main.gif` exactly when it is the page's tab. Otherwise it is `headerMenuItem` over `tab_active_main.gif`. |
| ContactsPage.SidebarClass | JPPF/docs/home/contacts.php:133-255 | An entry of this older sidebar is active exactly when its name is the page: the shared item rule with a single identifier. |
| ContactsPage.ActiveLinks | JPPF/docs/home/contacts.php:133-255 | Every active tab or entry is the one named by the page. |
| ContactsPage.DocumentationLinks | JPPF/docs/home/contacts.php:94-171 | Documentation is both the fourth tab and the fifth sidebar entry, and both lead to `/wiki`. |
| ContactsPage.JavadocEntry | JPPF/docs/home/contacts.php:181 | The Javadoc entry compares the page with the bare word `Javadoc`, which PHP reads as the string "Javadoc", so it is active for that identifier. |
| ContactsPage.ContactsActivity | JPPF/docs/home/contacts.php:1-255 | On the contacts page both caps are the "active" images, no tab is active, and Contacts is the only active entry. |
| DownloadsPage.TrackerEntries | JPPF/docs/home/downloads.php:72-99 | The tracker sub-entries answer to their own names. Matching is case-sensitive, so "features" activates the tracker entry and not the Features entry. |
| DownloadsPage.CurrentReleaseBase | JPPF/docs/home/downloads.php:137-139 | The current release's folder is `https://github.com/jppf-grid/JPPF/releases/download/v_6_0/`. |
| DownloadsPage.CurrentInstallerLink | JPPF/docs/home/downloads.php:146 | The web installer link is `/download/6.0/JPPF-6.0-Web-Installer.jar`. |
| DownloadsPage.CurrentArchiveLink | JPPF/docs/home/downloads.php:182 | The full source archive link is `https://github.com/lolocohen/JPPF/archive/v_6_0.zip`. |
| DownloadsPage.DownloadActivity | JPPF/docs/home/downloads.php:41-109 | On the download page exactly the Download tab and the Download entry are active. |
| UnstableDownloadsPage.BetaDocEntry | JPPF/docs/home/downloads-unstable.php:84 | The "v6.0 (beta)" documentation entry is active for that exact identifier only. |
| UnstableDownloadsPage.PreviewArtifactLink | JPPF/docs/home/downloads-unstable.php:127-168 | Every artifact link of the page lies in the `v_6_0_beta` release folder and names version 6.0-beta. |
| UnstableDownloadsPage.PreviewArchiveLink | JPPF/docs/home/downloads-unstable.php:157 | The source archive link is `https://github.com/lolocohen/JPPF/archive/v_6_0_beta.zip`. |
| UnstableDownloadsPage.UnstableDownloadActivity | JPPF/docs/home/downloads-unstable.php:46-114 | The page declares "Download", so exactly the Download tab and the Download entry are active. |
| FeaturesPage.TabPositions | JPPF/docs/home/features.php:44-62 | The bar has seven tabs with distinct names. Only the first and the last carry a position suffix. |
| FeaturesPage.DocEntries | JPPF/docs/home/features.php:85-86 | The beta entry answers to "v6.2 (beta)" and "v6.2-beta". The v6.1 entry tests "v6.1" twice, so it answers to "v6.1" only. |
| FeaturesPage.VersionedDocLinks | JPPF/docs/home/features.php:122-124 | With the page's version set to 6.2, every documentation link points into `/doc/6.2/`. |
| FeaturesPage.FeaturesActivity | JPPF/docs/home/features.php:44-113 | On the features page exactly the Features tab and the Features entry are active. |
| LicensePage.PageIsLicense | JPPF/docs/home/license.php:1-23 | The page declares "License", so the request is ignored and the top frame is shown. |
| LicensePage.DocEntries | JPPF/docs/home/license.php:79-100 | The alpha documentation entry answers to two identifiers. The API and tracker sub-entries never become active. |
| LicensePage.LicenseActivity | JPPF/docs/home/license.php:41-109 | On the license page no tab is active, and License is the only active entry. |
| ExecutionPolicies.FirstRejecting | common/src/java/org/jppf/node/policy/ExecutionPolicy.java:288-291 | Every operand before the returned position accepts the node, and the operand at that position (when there is one) rejects it. |
| ExecutionPolicies.FirstAccepting | common/src/java/org/jppf/node/policy/ExecutionPolicy.java:332-335 | Every operand before the returned position rejects the node, and the operand at that position (when there is one) accepts it. |
| ExecutionPolicies.Evaluate | common/src/java/org/jppf/node/policy/ExecutionPolicy.java:285-414 | The evaluation of a rule tree gives the reference verdict of the tree. |
| ExecutionPolicies.EvaluateAnd | common/src/java/org/jppf/node/policy/ExecutionPolicy.java:285-293 | AND accepts exactly when every operand accepts. It stops at the first rejecting operand, so it consults every operand on success and one past the first rejection otherwise. |
| ExecutionPolicies.EvaluateOr | common/src/java/org/jppf/node/policy/ExecutionPolicy.java:329-337 | OR accepts exactly when some operand accepts. It stops at the first accepting operand. |
| ExecutionPolicies.EvaluateXor | common/src/java/org/jppf/node/policy/ExecutionPolicy.java:372-377 | XOR accepts exactly when an odd number of operands accept. |
| ExecutionPolicies.XorSmall | common/src/java/org/jppf/node/policy/ExecutionPolicy.java:372-377 | XOR of one operand is that operand's verdict. XOR of two operands is their inequality. |
| ExecutionPolicies.RuleArray | common/src/java/org/jppf/node/policy/ExecutionPolicy.java:188-194 | The operand array holds the rule first, then every operand in order. |
| ExecutionPolicies.NotRuleArray | common/src/java/org/jppf/node/policy/ExecutionPolicy.java:203-209 | The operand array holds the rule first, then the negation of every operand in order. |
| ExecutionPolicies.MakeRuleArray | common/src/java/org/jppf/node/policy/ExecutionPolicy.java:188-194 | The fill loop builds a fresh array equal to `RuleArray`. |
| ExecutionPolicies.MakeNotRuleArray | common/src/java/org/jppf/node/policy/ExecutionPolicy.java:203-209 | The fill loop builds a fresh array equal to `NotRuleArray`. |
| ExecutionPolicies.AndWith | common/src/java/org/jppf/node/policy/ExecutionPolicy.java:80-91 | `p.and(rules)` accepts exactly when p and every operand accept. |
| ExecutionPolicies.AndNotWith | common/src/java/org/jppf/node/policy/ExecutionPolicy.java:98-109 | `p.andNot(rules)` accepts exactly when p accepts and no operand does. |
| ExecutionPolicies.OrWith | common/src/java/org/jppf/node/policy/ExecutionPolicy.java:116-127 | `p.or(rules)` accepts exactly when p or some operand accepts. |
| ExecutionPolicies.OrNotWith | common/src/java/org/jppf/node/policy/ExecutionPolicy.java:134-145 | `p.orNot(rules)` accepts exactly when p accepts or some operand rejects. |
| ExecutionPolicies.NewNotRule | common/src/java/org/jppf/node/policy/ExecutionPolicy.java:402-406 | The NOT rule rejects a null operand with an illegal-argument error. Otherwise it negates the operand. |
| ExecutionPolicies.NegationOf | common/src/java/org/jppf/node/policy/ExecutionPolicy.java:443-445 | `Not(policy)` is null exactly for a null policy. Otherwise its verdict is the opposite of the policy's on every node. |
| ExecutionPolicies.DoubleNegation | common/src/java/org/jppf/node/policy/ExecutionPolicy.java:413-415 | Negating twice gives back the original verdict. |
| ExecutionPolicies.GetProperty | common/src/java/org/jppf/node/policy/ExecutionPolicy.java:217-223 | The lookup loop returns the value from the first property set that defines the name, or null. |
| ExecutionPolicies.FirstValueMeaning | common/src/java/org/jppf/node/policy/ExecutionPolicy.java:217-223 | Nothing is found exactly when no set defines the name. A value found comes from a set that defines it, and no earlier set does. |
| ExecutionPolicies.PolicyGraph.GetContext | common/src/java/org/jppf/node/policy/ExecutionPolicy.java:546-548 | An object with a root uses its root's context. Otherwise it uses its own. |
| ExecutionPolicies.PolicyGraph.InitializeRootFrom | common/src/java/org/jppf/node/policy/ExecutionPolicy.java:508-514 | `initializeRoot(root)` sets the root links of the sub-graph as the reference function does, and leaves contexts alone. |
| ExecutionPolicies.PolicyGraph.InitializeRoot | common/src/java/org/jppf/node/policy/ExecutionPolicy.java:497-501 | `initializeRoot()` gives each child this object as its root, down the graph. |
| ExecutionPolicies.PolicyGraph.SetContext | common/src/java/org/jppf/node/policy/ExecutionPolicy.java:536-539 | The context is stored on this object, then the roots below it are initialized. |
| ExecutionPolicies.InitRootKeeps | common/src/java/org/jppf/node/policy/ExecutionPolicy.java:508-514 | Root links are set once: existing links never change, every new link points to the given root, and the object itself gets one. |
| ExecutionPolicies.InitRootChildrenKeeps | common/src/java/org/jppf/node/policy/ExecutionPolicy.java:511-513 | The children loop keeps existing links, links only to the given root, and reaches every remaining child. |
| ExecutionPolicies.SetContextReachesChildren | common/src/java/org/jppf/node/policy/ExecutionPolicy.java:536-548 | After `setContext` on a top object, each child that had no root gets the top object as root, and so sees the new context. |
| ExecutionPolicies.TagEndAsWrittenIsStartTag | common/src/java/org/jppf/node/policy/ExecutionPolicy.java:463-465 | As written, the end tag equals the start tag for every name, e.g. `<AND>` for AND. |
| ExecutionPolicies.TagEndCloses | common/src/java/org/jppf/node/policy/ExecutionPolicy.java:458-465 | The documented end tag `</name>` differs from the start tag and closes the element's name. |
| Uuids.ChosenCodes | common/src/java/org/jppf/utils/JPPFUuid.java:91 | The code set kept is never empty. It is the one given when that is non-null and non-empty, and the default superset otherwise. |
| Uuids.ChosenLength | common/src/java/org/jppf/utils/JPPFUuid.java:92 | The length kept is positive. It is the one given when positive, and 20 otherwise. |
| Uuids.Drawn | common/src/java/org/jppf/utils/JPPFUuid.java:100-104 | The identifier has exactly the kept length, and its i-th character is the code chosen by the i-th draw. |
| Uuids.DrawnFromCodes | common/src/java/org/jppf/utils/JPPFUuid.java:103 | Every character of a generated identifier belongs to the code set. |
| Uuids.GenerateUuid | common/src/java/org/jppf/utils/JPPFUuid.java:100-105 | The append loop builds exactly the drawn identifier. |
| Uuids.ToUpper | common/src/java/org/jppf/utils/JPPFUuid.java:82 | Upper-casing keeps the length, leaves no lower-case ASCII letter, and changes nothing else. |
| Uuids.JPPFUuid.Random | common/src/java/org/jppf/utils/JPPFUuid.java:81-83 | The no-argument constructor stores the random UUID's text in upper case, with the default code set and length. |
| Uuids.JPPFUuid.constructor | common/src/java/org/jppf/utils/JPPFUuid.java:90-94 | The constructor keeps the usable code set and length and generates the identifier from them, so the identifier has the kept length and uses only kept codes. |
| Uuids.JPPFUuid.ToString | common/src/java/org/jppf/utils/JPPFUuid.java:107-110 | `toString` gives the identifier fixed at construction. |
| Cli.MaxNameLength | common/src/java/org/jppf/utils/cli/PositionalArguments.java:31-35 | The width bounds every name's length, and is 0 when there is no definition. |
| Cli.MaxNameLengthAttained | common/src/java/org/jppf/utils/cli/PositionalArguments.java:31-35 | With at least one definition, some name has exactly the width. |
| Cli.PadRight | common/src/java/org/jppf/utils/cli/PositionalArguments.java:36-39 | `%-ws` starts with the text itself, pads it with spaces up to w, and never truncates. |
| Cli.ArgLines | common/src/java/org/jppf/utils/cli/PositionalArguments.java:37-40 | There is one usage line per definition, in order, each carrying that definition's usage. |
| Cli.ArgLinesAligned | common/src/java/org/jppf/utils/cli/PositionalArguments.java:31-40 | With the longest name's width, every printed name is padded to exactly that width and starts with the name. |
| Cli.AssignedAt | common/src/java/org/jppf/utils/cli/PositionalArguments.java:49-52 | After the parse, the key of each position below n holds that position's argument. |
| Cli.AssignedElsewhere | common/src/java/org/jppf/utils/cli/PositionalArguments.java:49-52 | A key that names no parsed position is present and valued as before. |
| Cli.PositionalArguments.constructor | common/src/java/org/jppf/utils/cli/PositionalArguments.java:27 | A fresh object has its title and definitions, with no values and nothing printed. |
| Cli.PositionalArguments.PrintUsage | common/src/java/org/jppf/utils/cli/PositionalArguments.java:29-42 | The title (if any) is printed, then one aligned line per definition. When every name is empty, the width 0 makes `%-0s` an invalid format, so the call fails after the title. |
| Cli.PositionalArguments.PrintArgLines | common/src/java/org/jppf/utils/cli/PositionalArguments.java:37-40 | The second loop appends exactly the aligned lines, in definition order. |
| Cli.PositionalArguments.LongestName | common/src/java/org/jppf/utils/cli/PositionalArguments.java:31-35 | The first loop finds the longest name's length. |
| Cli.PositionalArguments.ParseArguments | common/src/java/org/jppf/utils/cli/PositionalArguments.java:45-58 | The first min(definitions, arguments) arguments are stored under their positions. A null array with at least one definition is reported to the error printer and the null-pointer error is rethrown, with nothing stored. |
| Cli.PositionalArguments.GetString | common/src/java/org/jppf/utils/cli/PositionalArguments.java:65-67 | The lookup finds a value exactly when the position's decimal key is stored, and then gives that value. |
| Cli.ParseThenGet | common/src/java/org/jppf/utils/cli/PositionalArguments.java:45-67 | After a parse, a position below both counts gives its argument. Any other position, negative ones included, gives what was stored before. |
| Text.DigitChar | common/src/java/org/jppf/utils/cli/PositionalArguments.java:51 | A digit character is a decimal digit whose distance from `0` is the digit's value. |
| Text.DigitValue | common/src/java/org/jppf/utils/cli/PositionalArguments.java:51 | Reading a digit character gives a value below 10, whose digit character is the one read. |
| Text.NatStr | common/src/java/org/jppf/utils/cli/PositionalArguments.java:51 | `Integer.toString` of a non-negative number is a non-empty run of digits. It starts with `0` only for 0 and has one digit exactly below 10. |
| Text.IntStr | common/src/java/org/jppf/utils/cli/PositionalArguments.java:66 | `Integer.toString` starts with a minus sign exactly for negative values. Otherwise it is the plain digits. |
| Text.NatStrRoundTrip | common/src/java/org/jppf/utils/cli/PositionalArguments.java:51 | Reading the printed digits back gives the number. |
| Text.NatStrInjective | common/src/java/org/jppf/utils/cli/PositionalArguments.java:51 | Distinct positions get distinct keys. |
| Text.IntStrInjective | common/src/java/org/jppf/utils/cli/PositionalArguments.java:66 | Distinct integers print differently, negative ones included. |
| WaitingResults.Bump | server/src/java/org/jppf/server/nio/nodeserver/WaitingResultsState.java:137-144 | A listed task has its count incremented and is marked when the new count is within its limit. An unlisted task is unchanged. |
| WaitingResults.CountGranted | server/src/java/org/jppf/server/nio/nodeserver/WaitingResultsState.java:136-144 | The resubmit count never exceeds the number of tasks. |
| WaitingResults.CountGrantedZero | server/src/java/org/jppf/server/nio/nodeserver/WaitingResultsState.java:145 | The statistics are updated exactly when some task is granted a resubmission. |
| WaitingResults.PositionSet | server/src/java/org/jppf/server/nio/nodeserver/WaitingResultsState.java:128-135 | The resubmit set holds exactly the listed positions. |
| WaitingResults.Bumped | server/src/java/org/jppf/server/nio/nodeserver/WaitingResultsState.java:136-144 | The resubmit loop keeps the number of tasks and applies the per-task rule to each. |
| WaitingResults.ResultsProcessed | server/src/java/org/jppf/server/nio/nodeserver/WaitingResultsState.java:109-170 | A node exception fails the dispatch with it. A cancelled job's results are dropped. Otherwise the reason becomes RESULTS_RECEIVED if unset, the listed tasks of an unexpired dispatch are resubmitted within their limits, the number granted is added to the statistics when positive, and the data is delivered. System information is recorded when sent. |
| WaitingResults.ProcessedTasks | server/src/java/org/jppf/server/nio/nodeserver/WaitingResultsState.java:136-144 | Processing keeps each task's position and limit and raises its count by at most one. A task is newly marked only when granted, with no node exception, no cancellation and no expiry. |
| WaitingResults.ProcessedStats | server/src/java/org/jppf/server/nio/nodeserver/WaitingResultsState.java:145 | The statistics gain at most one entry, a positive count no larger than the dispatch. |
| WaitingResults.NodeChannelContext.constructor | server/src/java/org/jppf/server/nio/nodeserver/WaitingResultsState.java:79-80 | The context starts out holding its dispatch and message, with no return reason and nothing delivered. |
| WaitingResults.NodeChannelContext.PerformTransition | server/src/java/org/jppf/server/nio/nodeserver/WaitingResultsState.java:61-70 | While the message is incomplete the channel keeps waiting and nothing changes. Once it is complete, the results are processed: the return reason, the deliveries, the tasks, the resubmit statistics and the node information become what `ResultsProcessed` gives. The dispatch is requeued when the node asked for it, and the channel becomes idle, or idle-peer for a peer driver. |
| WaitingResults.NodeChannelContext.Process | server/src/java/org/jppf/server/nio/nodeserver/WaitingResultsState.java:79-100 | The results are processed as `ResultsProcessed` states. The dispatch and the message are then released, the dispatch is requeued exactly when the node asked for it, and the transition is idle or idle-peer. |
| WaitingResults.NodeChannelContext.ProcessResults | server/src/java/org/jppf/server/nio/nodeserver/WaitingResultsState.java:109-170 | The dispatch changes exactly as `ResultsProcessed` states, and the node's requeue flag is returned. |
| WaitingResults.NodeChannelContext.ResubmitListed | server/src/java/org/jppf/server/nio/nodeserver/WaitingResultsState.java:136-144 | The loop applies the resubmit rule to every task in place and counts the tasks it grants. |
| WaitingResults.ResubmitRule | server/src/java/org/jppf/server/nio/nodeserver/WaitingResultsState.java:138-142 | After the pass a task is marked exactly when it was already marked, or is listed with its new count within its limit. An unlisted task is untouched. |
| NodeServer.IsIdle | server/src/java/org/jppf/server/nio/nodeserver/NodeNioServer.java:471-474 | A channel is idle exactly when its state is IDLE. |
| NodeServer.NodeNioServer.constructor | server/src/java/org/jppf/server/nio/nodeserver/NodeNioServer.java:86 | A new server has no connection, no idle channel and nothing reported. |
| NodeServer.NodeNioServer.GetConnection | server/src/java/org/jppf/server/nio/nodeserver/NodeNioServer.java:214-217 | A context is found exactly for a registered uuid, and the context found carries that uuid. |
| NodeServer.NodeNioServer.NbNodes | server/src/java/org/jppf/server/nio/nodeserver/NodeNioServer.java:408-410 | The node count is the number of registered connections. |
| NodeServer.NodeNioServer.UpdateConnectionStatus | server/src/java/org/jppf/server/nio/nodeserver/NodeNioServer.java:253-266 | A null old or new status is an illegal argument. A null context or an unchanged status does nothing. ACTIVE adds the node to the idle set. Any other status removes it, and FAILED or DISABLED also cancel its broadcast jobs. Every real change is reported to the working-connection count. The registry is never touched. |
| NodeServer.NodeNioServer.AddConnection | server/src/java/org/jppf/server/nio/nodeserver/NodeNioServer.java:167-175 | A null context, or one without a channel, is rejected and nothing changes. Otherwise the context is registered under its uuid and listened to, and its status is reported as a change from DISABLED. A status other than DISABLED reaches the working-connection count as (DISABLED, status), and FAILED also cancels the node's broadcast jobs. A DISABLED or null status reports nothing. The stopped flag and the closed set stay. |
| NodeServer.NodeNioServer.RemoveConnection | server/src/java/org/jppf/server/nio/nodeserver/NodeNioServer.java:181-194 | A null context is rejected. Otherwise the node leaves the idle set, and its registry entry and listener are removed even when the status report fails. A node whose status is neither null nor DISABLED has its broadcast jobs cancelled and reaches the working-connection count as (status, DISABLED); otherwise neither changes. The stopped flag and the closed set stay. |
| NodeServer.NodeNioServer.RemoveConnectionByUuid | server/src/java/org/jppf/server/nio/nodeserver/NodeNioServer.java:201-207 | An unknown uuid gives null and changes nothing. A known one leaves the registry, the listened set and the idle set, and its context is returned. Its broadcast jobs are cancelled and its working-connection update is reported exactly as `RemoveConnection` does. The stopped flag and the closed set stay. |
| NodeServer.NodeNioServer.ActivateNode | server/src/java/org/jppf/server/nio/nodeserver/NodeNioServer.java:225-231 | An unknown uuid gives null and changes nothing. A known node ends with the requested active flag, and nothing else changes. |
| NodeServer.NodeNioServer.Close | server/src/java/org/jppf/server/nio/nodeserver/NodeNioServer.java:479-496 | The server is stopped, every registered connection is closed, and the registry ends empty, so the node count is 0. |
| NodeTree.LessIrreflexive | admin/src/java/org/jppf/ui/monitoring/node/NodeDataPanelManager.java:240 | No name sorts before itself under `compareTo`. |
| NodeTree.LessTotal | admin/src/java/org/jppf/ui/monitoring/node/NodeDataPanelManager.java:240 | Of two distinct names, one sorts before the other. |
| NodeTree.LessTransitive | admin/src/java/org/jppf/ui/monitoring/node/NodeDataPanelManager.java:240 | The `compareTo` order is transitive. |
| NodeTree.SortedDistinct | admin/src/java/org/jppf/ui/monitoring/node/NodeDataPanelManager.java:231-263 | Strictly sorted names hold no name twice. |
| NodeTree.Insert | admin/src/java/org/jppf/ui/monitoring/node/NodeDataPanelManager.java:85 | Inserting a child at index i puts it at i, keeps the children before i, and shifts the rest up by one. |
| NodeTree.RemoveAt | admin/src/java/org/jppf/ui/monitoring/node/NodeDataPanelManager.java:123 | Removing the child at index i keeps the children before i and shifts the rest down by one. |
| NodeTree.InsertIndexFrom | admin/src/java/org/jppf/ui/monitoring/node/NodeDataPanelManager.java:231-243 | The index search gives -1 only when some later child has the name. Otherwise every child it passes has a different name that does not sort after the name, and the child at the index (if any) sorts after it. |
| NodeTree.InsertIndexKeepsSorted | admin/src/java/org/jppf/ui/monitoring/node/NodeDataPanelManager.java:231-263 | Over strictly sorted names the insert index is -1 exactly when the name is present. Inserting at a non-negative index keeps the names strictly sorted. |
| NodeTree.FindFrom | admin/src/java/org/jppf/ui/monitoring/node/NodeDataPanelManager.java:196-223 | The search finds the first child with the name, or null when no child has it. |
| NodeTree.SetOf | admin/src/java/org/jppf/ui/monitoring/node/NodeDataPanelManager.java:196-223 | The set of names holds exactly the names listed. |
| NodeTree.SetOfPrefix | admin/src/java/org/jppf/ui/monitoring/node/NodeDataPanelManager.java:163-169 | Each further child adds its name to the names seen so far. |
| NodeTree.RemoveAtSorted | admin/src/java/org/jppf/ui/monitoring/node/NodeDataPanelManager.java:123 | Removing one child of strictly sorted names keeps them sorted and removes exactly that name. |
| NodeTree.EntryOf | admin/src/java/org/jppf/ui/monitoring/node/NodeDataPanelManager.java:153-157 | A node is shown under its `host:port` name, and keeps its node-or-peer type. |
| NodeTree.NodeNames | admin/src/java/org/jppf/ui/monitoring/node/NodeDataPanelManager.java:216-220 | The child names are the nodes' names, in order. |
| NodeTree.DriverNames | admin/src/java/org/jppf/ui/monitoring/node/NodeDataPanelManager.java:198-203 | The driver names are the drivers' names, in order. |
| NodeTree.WithoutNameMeaning | admin/src/java/org/jppf/ui/monitoring/node/NodeDataPanelManager.java:167-168 | Removing a node name from a driver keeps its nodes sorted and removes exactly that name. |
| NodeTree.Evicted | admin/src/java/org/jppf/ui/monitoring/node/NodeDataPanelManager.java:163-169 | Evicting a node from the other drivers keeps every driver and its name. |
| NodeTree.AddNode | admin/src/java/org/jppf/ui/monitoring/node/NodeDataPanelManager.java:151-171 | Adding a node keeps the number of drivers. |
| NodeTree.InsertSet | admin/src/java/org/jppf/ui/monitoring/node/NodeDataPanelManager.java:160 | Inserting a name adds exactly that name. |
| NodeTree.AddNodeMeaning | admin/src/java/org/jppf/ui/monitoring/node/NodeDataPanelManager.java:151-171 | Adding a node to a driver of a valid tree keeps the tree valid and its drivers. The name is then shown under that driver and no other, and no other name changes. |
| NodeTree.AddNodes | admin/src/java/org/jppf/ui/monitoring/node/NodeDataPanelManager.java:102 | Adding the reported nodes keeps the number of drivers. |
| NodeTree.AddNodesKeepsTree | admin/src/java/org/jppf/ui/monitoring/node/NodeDataPanelManager.java:102 | Adding the reported nodes one after the other keeps the tree valid and its drivers. |
| NodeTree.AddNodesMeaning | admin/src/java/org/jppf/ui/monitoring/node/NodeDataPanelManager.java:102 | After the reported nodes are added, the driver shows them, and every other driver has lost them. |
| NodeTree.AddNodesAtDriver | admin/src/java/org/jppf/ui/monitoring/node/NodeDataPanelManager.java:102 | The driver the nodes are added to shows its old nodes and every reported one. |
| NodeTree.AddNodesElsewhere | admin/src/java/org/jppf/ui/monitoring/node/NodeDataPanelManager.java:102 | Every other driver keeps exactly its nodes that were not reported. |
| NodeTree.DriverAddedMeaning | admin/src/java/org/jppf/ui/monitoring/node/NodeDataPanelManager.java:76-106 | Adding a driver keeps a valid tree valid, and the driver is shown afterwards whatever its query answered. |
| NodeTree.DriverInserted | admin/src/java/org/jppf/ui/monitoring/node/NodeDataPanelManager.java:85 | A driver without nodes inserted where the names stay sorted gives a valid tree. |
| NodeTree.DriverRemovedMeaning | admin/src/java/org/jppf/ui/monitoring/node/NodeDataPanelManager.java:113-132 | Removing a driver keeps the tree valid. With `removeNodesOnly` the driver stays and shows no node; otherwise it is gone and the other drivers remain. |
| NodeTree.NodesCleared | admin/src/java/org/jppf/ui/monitoring/node/NodeDataPanelManager.java:118-125 | Emptying a driver's nodes keeps the tree valid and its drivers. |
| NodeTree.DriverDropped | admin/src/java/org/jppf/ui/monitoring/node/NodeDataPanelManager.java:128 | Removing a driver keeps the tree valid and removes exactly its name. |
| NodeTree.NodeRemovedMeaning | admin/src/java/org/jppf/ui/monitoring/node/NodeDataPanelManager.java:178-189 | Removing a node keeps the tree valid and the drivers. The named driver loses exactly that name, and every other driver is unchanged. |
| NodeTree.NodeAddedMeaning | admin/src/java/org/jppf/ui/monitoring/node/NodeDataPanelManager.java:139-144 | Adding a node under a shown driver keeps the tree valid, shows it there and nowhere else. For a driver not shown, nothing changes. |
| NodeTree.NodeRemovedAtIndex | admin/src/java/org/jppf/ui/monitoring/node/NodeDataPanelManager.java:178-189 | Removing a node under a shown driver changes only that driver, which loses exactly that name. |
| NodeTree.NodeAddedAtIndex | admin/src/java/org/jppf/ui/monitoring/node/NodeDataPanelManager.java:139-171 | Adding a node under a shown driver shows it under that driver and no other. |
| NodeTree.NodeDataPanelManager.constructor | admin/src/java/org/jppf/ui/monitoring/node/NodeDataPanelManager.java:60 | The tree starts empty, with no listener and nothing refreshed. |
| NodeTree.NodeDataPanelManager.FindDriver | admin/src/java/org/jppf/ui/monitoring/node/NodeDataPanelManager.java:196-206 | The loop finds the first driver with the name, or null. |
| NodeTree.NodeDataPanelManager.FindNode | admin/src/java/org/jppf/ui/monitoring/node/NodeDataPanelManager.java:214-223 | The loop finds the first node of the driver with the name, or null. |
| NodeTree.NodeDataPanelManager.DriverInsertIndex | admin/src/java/org/jppf/ui/monitoring/node/NodeDataPanelManager.java:231-243 | The loop gives the driver insert index: -1 for a driver already shown, else the index that keeps the drivers sorted. |
| NodeTree.NodeDataPanelManager.NodeInsertIndex | admin/src/java/org/jppf/ui/monitoring/node/NodeDataPanelManager.java:251-263 | The loop gives the same index over a driver's nodes. |
| NodeTree.NodeDataPanelManager.NodeDataUpdated | admin/src/java/org/jppf/ui/monitoring/node/NodeDataPanelManager.java:64-70 | A node's display is refreshed exactly when both the driver and the node are shown. |
| NodeTree.NodeDataPanelManager.DriverAdded | admin/src/java/org/jppf/ui/monitoring/node/NodeDataPanelManager.java:76-106 | The tree becomes the tree with the driver added, and stays valid. A listener is registered exactly for a driver not shown before. |
| NodeTree.NodeDataPanelManager.AddReported | admin/src/java/org/jppf/ui/monitoring/node/NodeDataPanelManager.java:102 | The loop adds every reported node under the driver, in order. |
| NodeTree.NodeDataPanelManager.DriverRemoved | admin/src/java/org/jppf/ui/monitoring/node/NodeDataPanelManager.java:113-132 | The tree becomes the tree with the driver removed, and stays valid. |
| NodeTree.NodeDataPanelManager.RemoveChildren | admin/src/java/org/jppf/ui/monitoring/node/NodeDataPanelManager.java:120-124 | The backward loop leaves the driver with no node and changes nothing else. |
| NodeTree.NodeDataPanelManager.NodeAdded | admin/src/java/org/jppf/ui/monitoring/node/NodeDataPanelManager.java:139-144 | The tree becomes the tree with the node added under the named driver, and stays valid. |
| NodeTree.NodeDataPanelManager.NodeAddedAt | admin/src/java/org/jppf/ui/monitoring/node/NodeDataPanelManager.java:151-171 | The tree becomes the tree with the node added under that driver and taken away from all others. |
| NodeTree.NodeDataPanelManager.EvictOthers | admin/src/java/org/jppf/ui/monitoring/node/NodeDataPanelManager.java:163-169 | The loop takes the node away from every driver other than this one. |
| NodeTree.NodeDataPanelManager.NodeRemoved | admin/src/java/org/jppf/ui/monitoring/node/NodeDataPanelManager.java:178-189 | The tree becomes the tree with the node removed, and stays valid. |
| NodeRefresh.Uuids | admin/src/java/org/jppf/ui/monitoring/node/NodeRefreshHandler.java:114-120 | The uuid set holds the uuid of every connection seen. |
| NodeRefresh.UuidsMeaning | admin/src/java/org/jppf/ui/monitoring/node/NodeRefreshHandler.java:114-120 | A uuid is in the set exactly when one of the connections seen has it. |
| NodeRefresh.FirstOfUuidMeaning | admin/src/java/org/jppf/ui/monitoring/node/NodeRefreshHandler.java:119 | A connection is kept exactly when no earlier connection has its uuid. |
| NodeRefresh.ConnectionMapKeys | admin/src/java/org/jppf/ui/monitoring/node/NodeRefreshHandler.java:116-122 | A driver name is a key exactly when the first connection of some uuid has it. |
| NodeRefresh.ConnectionMapValues | admin/src/java/org/jppf/ui/monitoring/node/NodeRefreshHandler.java:116-122 | The connection kept under a name has that name and is the first connection of its uuid. |
| NodeRefresh.Difference | admin/src/java/org/jppf/ui/monitoring/node/NodeRefreshHandler.java:126-145 | The list built holds exactly the names of the first set that are missing from the second. |
| NodeRefresh.AddedStep | admin/src/java/org/jppf/ui/monitoring/node/NodeRefreshHandler.java:203-207 | One more added node is shown under the driver and leaves every other driver. |
| NodeRefresh.NodeRefreshHandler.constructor | admin/src/java/org/jppf/ui/monitoring/node/NodeRefreshHandler.java:75-89 | A new handler has the 1000 ms interval, is not refreshing, and has started its timer. |
| NodeRefresh.NodeRefreshHandler.StartRefreshTimer | admin/src/java/org/jppf/ui/monitoring/node/NodeRefreshHandler.java:225-239 | An existing timer or a non-positive interval leaves things as they are. Otherwise a timer is created. |
| NodeRefresh.NodeRefreshHandler.StopRefreshTimer | admin/src/java/org/jppf/ui/monitoring/node/NodeRefreshHandler.java:213-220 | Afterwards no timer exists. |
| NodeRefresh.NodeRefreshHandler.Refresh | admin/src/java/org/jppf/ui/monitoring/node/NodeRefreshHandler.java:94-106 | A refresh already under way makes the call do nothing. Otherwise the refresh leaves the tree valid and showing exactly the drivers of the current connections, every refreshed driver shows only the nodes it reported, and the flag is cleared. |
| NodeRefresh.NodeRefreshHandler.Refresh0 | admin/src/java/org/jppf/ui/monitoring/node/NodeRefreshHandler.java:111-153 | After the refresh, the tree is valid and shows exactly the driver names of the first connection of each uuid. Every driver shown whose connection is kept, is connected and answers its node query shows only the nodes that query reported. |
| NodeRefresh.NodeRefreshHandler.KeepFirstByUuid | admin/src/java/org/jppf/ui/monitoring/node/NodeRefreshHandler.java:114-122 | The loop builds the name-to-connection map that keeps the first connection of each uuid. |
| NodeRefresh.NodeRefreshHandler.RefreshShown | admin/src/java/org/jppf/ui/monitoring/node/NodeRefreshHandler.java:126-132 | The loop keeps the drivers and lists exactly those without a connection for removal. Each driver with a connection that is connected and answers its node query then shows only the nodes it reported; every other driver shows a subset of its nodes before. |
| NodeRefresh.NodeRefreshHandler.RemoveDrivers | admin/src/java/org/jppf/ui/monitoring/node/NodeRefreshHandler.java:133-137 | The loop removes exactly the listed drivers, keeps the tree valid, and leaves every remaining driver with its nodes as before. |
| NodeRefresh.NodeRefreshHandler.AddDrivers | admin/src/java/org/jppf/ui/monitoring/node/NodeRefreshHandler.java:140-150 | The loop adds exactly the listed drivers, keeps the tree valid, and keeps every refreshed driver showing only reported nodes. |
| NodeRefresh.RemovedKeepsEntries | admin/src/java/org/jppf/ui/monitoring/node/NodeRefreshHandler.java:133-137 | Removing a driver with its nodes leaves every other driver's entry as it was. |
| NodeRefresh.InsertedKeepsOnlyReported | admin/src/java/org/jppf/ui/monitoring/node/NodeRefreshHandler.java:140-150 | A driver inserted without nodes keeps every refreshed driver showing only reported nodes. |
| NodeRefresh.NodesAddedKeepOnlyReported | admin/src/java/org/jppf/ui/monitoring/node/NodeRefreshHandler.java:140-150 | Giving a new driver the nodes its own query reports keeps every refreshed driver showing only reported nodes, because the others only lose those nodes. |
| NodeRefresh.AddedKeepsOnlyReported | admin/src/java/org/jppf/ui/monitoring/node/NodeRefreshHandler.java:140-150 | `driverAdded` with the driver's own answer keeps every refreshed driver showing only reported nodes. |
| NodeRefresh.NodeRefreshHandler.RefreshNodes | admin/src/java/org/jppf/ui/monitoring/node/NodeRefreshHandler.java:159-208 | A driver not shown, not connected, or whose query fails or answers null is left alone. Otherwise the driver ends showing exactly the reported nodes, and every other driver loses them. |
| NodeRefresh.NodeRefreshHandler.RemoveNodes | admin/src/java/org/jppf/ui/monitoring/node/NodeRefreshHandler.java:193-197 | The loop removes exactly the listed nodes from the driver, and no other driver changes. |
| NodeRefresh.NodeRefreshHandler.AddNodesByName | admin/src/java/org/jppf/ui/monitoring/node/NodeRefreshHandler.java:203-207 | The loop adds exactly the listed nodes under the driver and takes them away from every other driver. |
| NodeRefresh.NodeRefreshHandler.ShownNodeNames | admin/src/java/org/jppf/ui/monitoring/node/NodeRefreshHandler.java:164-170 | The loop collects exactly the names the driver shows. |
| NodeRefresh.NodeRefreshHandler.ReportedByName | admin/src/java/org/jppf/ui/monitoring/node/NodeRefreshHandler.java:185-187 | The map holds exactly the reported `host:port` names, each with a node of that name. |
| ServerJobs.Merged | server/src/java/org/jppf/server/protocol/AbstractServerJobBase.java:117-127 | The merged list is a permutation of both lists. With `after` the new tasks follow the old ones; otherwise they come first. |
| Lists.RemoveFirst | server/src/java/org/jppf/server/protocol/BundleCompletionListener.java:74 | `List.remove` leaves a list without the element alone. Otherwise it drops exactly one occurrence, and the list is one shorter. |
| ServerJobs.RemoveAll | server/src/java/org/jppf/server/protocol/BundleCompletionListener.java:75 | `removeAll` keeps exactly the elements that are not in the removed list, and never grows the list. |
| ServerJobs.GroupMeaning | server/src/java/org/jppf/server/protocol/ServerJob.java:109-120 | Grouping by client bundle puts every task under its own bundle and adds no task. |
| ServerJobs.Step | server/src/java/org/jppf/server/protocol/ServerJob.java:120-136 | The four task walks, one task at a time. Delivery puts a RESUBMIT task back to PENDING and gives any other task its own result. The route pass changes nothing. Cancellation cancels exactly the unfinished tasks. The requeue pass leaves no RESUBMIT and collects exactly the pending tasks. |
| ServerJobs.ApplyUntouched | server/src/java/org/jppf/server/protocol/ServerJob.java:123-137 | A walk leaves alone every task it has not reached. |
| ServerJobs.ApplyAtLast | server/src/java/org/jppf/server/protocol/ServerJob.java:123-137 | The last task reached is treated by its state before the walk. |
| ServerJobs.ApplyAt | server/src/java/org/jppf/server/protocol/ServerJob.java:123-137 | Over tasks with distinct ids, the walk treats every task by its state before the walk and collects it exactly when its step keeps it. |
| ServerJobs.ApplyKeepsListed | server/src/java/org/jppf/server/protocol/ServerJob.java:120-137 | A walk collects only listed tasks, never more often than listed. |
| ServerJobs.TakeCount | server/src/java/org/jppf/server/protocol/ServerJob.java:78 | The copy takes `nbTasks` tasks, capped at the job's task count. |
| ServerJobs.SplitHeader | server/src/java/org/jppf/server/protocol/ServerJob.java:81-90 | When the job counts more current tasks than are taken, the copy counts the tasks taken and the job keeps the rest. Otherwise the copy keeps the job's counts and the job counts none. The total task count is unchanged. |
| ServerJobs.DiscardGuard | server/src/java/org/jppf/server/protocol/ServerJob.java:115 | The corrected guard discards results exactly when the job is expired or cancelled, or the dispatch is there, expired and offline. |
| ServerJobs.NullBundleFails | server/src/java/org/jppf/server/protocol/ServerJob.java:114-115 | With a null bundle, a job neither expired nor cancelled fails in the guard as written. The corrected guard does not discard. |
| ServerJobs.DiscardGuardAgrees | server/src/java/org/jppf/server/protocol/ServerJob.java:114-115 | The guard as written fails exactly for a null bundle of a live job. Wherever it does not fail, the corrected guard agrees with it. |
| ServerJobs.ServerJob.constructor | server/src/java/org/jppf/server/protocol/ServerJob.java:65-67 | A new job is NEW and SUBMITTED, with no task, bundle or dispatch, and not cancelled. |
| ServerJobs.ServerJob.TaskCount | server/src/java/org/jppf/server/protocol/AbstractServerJobBase.java:102-109 | The task count is the number of tasks the job holds. |
| ServerJobs.ServerJob.NbChannels | server/src/java/org/jppf/server/protocol/AbstractServerJobBase.java:191-195 | The channel count is the number of dispatches in progress. |
| ServerJobs.ServerJob.NbBundles | server/src/java/org/jppf/server/protocol/AbstractServerJobBase.java:273 | The bundle count is the number of client bundles. |
| ServerJobs.ServerJob.NodeBundleOf | server/src/java/org/jppf/server/protocol/AbstractServerJobBase.java:202-206 | A dispatch is found exactly for an id in the dispatch set. |
| ServerJobs.ServerJob.Merge | server/src/java/org/jppf/server/protocol/AbstractServerJobBase.java:117-127 | The tasks become the merged list. A requeue is asked exactly when the job had no task and the list is not empty. Nothing else changes. |
| ServerJobs.ServerJob.JobDispatched | server/src/java/org/jppf/server/protocol/AbstractServerJobBase.java:133-146 | A null bundle is an illegal argument. Otherwise the dispatch is recorded by id and announced. The first dispatch moves a NEW job to EXECUTING and sets the submission status EXECUTING. |
| ServerJobs.ServerJob.JobReturned | server/src/java/org/jppf/server/protocol/AbstractServerJobBase.java:152-160 | A null bundle is an illegal argument. Otherwise the dispatch is removed and its return announced. |
| ServerJobs.ServerJob.HasPending | server/src/java/org/jppf/server/protocol/AbstractServerJobBase.java:166-176 | The loop answers whether some client bundle has pending tasks. |
| ServerJobs.Lowered | server/src/java/org/jppf/server/protocol/ServerJob.java:185-187 | After `resultReceived(tasks)` every client bundle keeps its id and tasks, and its pending count plus the number of its tasks received is its old count. |
| ServerJobs.LoweredKeepsDone | server/src/java/org/jppf/server/protocol/AbstractServerJobBase.java:166-176 | Receiving results never makes pending a job that was not, and receiving nothing changes no bundle. |
| ServerJobs.LoweredClearsPending | server/src/java/org/jppf/server/protocol/AbstractServerJobBase.java:166-176 | Nothing is pending after the results exactly when every client bundle received at least as many tasks as it had pending. |
| ServerJobs.ConcludedEnded | server/src/java/org/jppf/server/protocol/ServerJob.java:248-257 | The job ends exactly when no client bundle and no task remain, or it had already ended and stays pending without a failure. A job with nothing pending that still holds a bundle or a task is COMPLETE. |
| ServerJobs.ReceivingAllCompletes | server/src/java/org/jppf/server/protocol/ServerJob.java:183-191 | Results that give every client bundle back all its pending tasks complete the job, make an executing job DONE and run no requeue. |
| ServerJobs.ServerJob.SetOnRequeue | server/src/java/org/jppf/server/protocol/AbstractServerJobBase.java:182-185 | A broadcast job keeps no requeue handler. Any other job stores the one given. |
| ServerJobs.ServerJob.AddBundle | server/src/java/org/jppf/server/protocol/AbstractServerJobBase.java:225-243 | A null bundle is an illegal argument. A complete or ended job refuses the bundle with a job-ended error. Otherwise the bundle and its tasks are appended, the job listens for its completion, and an update is announced. |
| ServerJobs.ServerJob.Copy | server/src/java/org/jppf/server/protocol/ServerJob.java:74-99 | The dispatch takes the first k tasks, which leave the job. The headers are split, and an update is announced. |
| ServerJobs.ServerJob.RunPass | server/src/java/org/jppf/server/protocol/ServerJob.java:120-137 | The loop over a task list updates the task states and outcomes as the walk does, and returns the tasks the walk collects. |
| ServerJobs.ServerJob.TaskCompleted | server/src/java/org/jppf/server/protocol/ServerJob.java:226-259 | For a non-broadcast job, the returned dispatch's RESUBMIT tasks become pending and its pending tasks go back in front. With tasks still pending, an error without requeue fails the job, and a requeue of a live job with a handler runs it. With none pending the job is COMPLETE and an executing job is DONE. A job with no bundle and no task has ENDED. |
| ServerJobs.ServerJob.Conclude | server/src/java/org/jppf/server/protocol/ServerJob.java:248-257 | The status rules that end `taskCompleted`, as above. |
| ServerJobs.ServerJob.ResultsReceived | server/src/java/org/jppf/server/protocol/ServerJob.java:106-191 | It needs a dispatch. An empty result list changes nothing. Discarded results hand every task back without a result. Otherwise a RESUBMIT task becomes pending and task i receives result i. A result list that is shorter than the dispatch is accepted while every task past its end is RESUBMIT when reached. At the first task past the end that is not RESUBMIT, the call fails with IndexOutOfBounds at that index: the tasks before it stay as the loop left them, and nothing is handed back or announced. On success, each client bundle counts the tasks it got back as no longer pending, the results are announced by client bundle, and the dispatch's completion is processed: the requeue, the job status and the submission status follow the lowered counts. The dispatch set, the cancellation flag and the handler are unchanged. |
| ServerJobs.ServerJob.ResultsFailed | server/src/java/org/jppf/server/protocol/ServerJob.java:150-191 | A null bundle is an illegal argument. Otherwise a RESUBMIT task becomes pending and every other task receives the throwable. Each client bundle counts the tasks it got back as no longer pending, the results are announced, and the completion is processed with the throwable: with tasks still pending and no requeue the job has FAILED; with none pending it is COMPLETE and an executing job is DONE. |
| ServerJobs.ServerJob.WalkResults | server/src/java/org/jppf/server/protocol/ServerJob.java:118-141 | It fails exactly where `ResultsOutOfRange` says. Otherwise the task states, the outcomes and the tasks handed back are those of `ResultsWalk`: every task routed when results are discarded, results delivered when there are any, nothing otherwise. |
| ServerJobs.ServerJob.DeliverResults | server/src/java/org/jppf/server/protocol/ServerJob.java:123-137 | The delivery loop stops at `FirstOutOfRange`, the first task past the end of the results that is not RESUBMIT. The task states, outcomes and delivered tasks are the delivery walk up to that index, or over the whole dispatch when there is none. |
| ServerJobs.FirstOutOfRange | server/src/java/org/jppf/server/protocol/ServerJob.java:123-133 | The index where `results.get(i)` throws is past the end of the results, and its task is not RESUBMIT when reached. With as many results as tasks there is none. |
| ServerJobs.InRangeBefore | server/src/java/org/jppf/server/protocol/ServerJob.java:123-133 | Every task past the end of the results that the loop reaches before it throws, or every such task when it does not throw, is RESUBMIT when reached. |
| ServerJobs.WalkIgnoresPadding | server/src/java/org/jppf/server/protocol/ServerJob.java:123-137 | When every task past the end of the results is RESUBMIT, no result beyond the list is read: whatever fills the tail, the walk is the same. |
| ServerJobs.ServerJob.HandBack | server/src/java/org/jppf/server/protocol/ServerJob.java:182-191 | The client bundles no longer count the tasks handed back as pending, the delivery is announced, and the completion leaves the tasks, the requeue event and both statuses as `ReturnedTasks` and the `Concluded` rules give them, from the lowered counts. |
| ServerJobs.ServerJob.CancelJob | server/src/java/org/jppf/server/protocol/ServerJob.java:309-329 | Only the first cancellation takes effect and returns true. It cancels every dispatch, cancels the unfinished tasks of a non-broadcast job, releases the reservations, then hands the cancelled tasks back to their client bundles, which no longer count them as pending, and ends the job. |
| ServerJobs.ServerJob.CancelTasks | server/src/java/org/jppf/server/protocol/ServerJob.java:291-301 | Every unfinished task is cancelled, and the cancelled tasks are returned grouped by client bundle. The outcomes are untouched. |
| ServerJobs.ServerJob.Update | server/src/java/org/jppf/server/protocol/ServerJob.java:359-380 | The SLA and metadata that are given replace the old ones, and an update is announced only when one was given. |
| ServerJobs.ServerJob.ListenerTaskCompleted | server/src/java/org/jppf/server/protocol/BundleCompletionListener.java:61-63 | The listener only rejects a null bundle. |
| ServerJobs.ServerJob.BundleEnded | server/src/java/org/jppf/server/protocol/BundleCompletionListener.java:66-86 | A null bundle is an illegal argument. Otherwise the job stops listening, removes the bundle and its tasks, and ends when no bundle and no task remain. |
| ServerJobs.DeliverRoutesEachTask | server/src/java/org/jppf/server/protocol/ServerJob.java:123-137 | On delivery each task either goes back to PENDING for resubmission, or receives its own result and is reported under its own client bundle. |
| ServerJobs.CancelAffectsUnfinished | server/src/java/org/jppf/server/protocol/ServerJob.java:291-301 | On cancellation every unfinished task ends CANCELLED and is reported. Finished tasks are untouched. |
| ServerJobs.RequeueCollectsPending | server/src/java/org/jppf/server/protocol/ServerJob.java:238-241 | After the requeue walk no returned task is RESUBMIT, and exactly the tasks that were PENDING or RESUBMIT go back to the job. |
| ServerJobs.CopyPartitions | server/src/java/org/jppf/server/protocol/ServerJob.java:78-93 | The copy and the job left behind partition the task list, and a split header conserves the current task count. |
| ServerJobs.BundleEndedRemovesItsTasks | server/src/java/org/jppf/server/protocol/BundleCompletionListener.java:75 | After a bundle ends, none of its tasks remains and every other task does. |
| Lists.RemoveFirstKeepsOthers | server/src/java/org/jppf/server/protocol/BundleCompletionListener.java:74 | Removing one element, such as a client bundle, keeps every other element. |
| ClassResources.Ids | server/src/java/org/jppf/server/nio/classloader/node/NodeWaitingProviderResponseState.java:90 | The id set holds the id of every resource listed and nothing else. |
| NodeClassLoading.Completed | server/src/java/org/jppf/server/nio/classloader/node/NodeWaitingProviderResponseState.java:77-89 | The visit collects only answered resources (NODE_RESPONSE or NODE_RESPONSE_ERROR), at most one per entry visited. |
| NodeClassLoading.LastWithId | server/src/java/org/jppf/server/nio/classloader/node/NodeWaitingProviderResponseState.java:85 | A resource is found only when it was answered with that id. None is found exactly when no answered resource has the id. |
| NodeClassLoading.NodeClassContext.constructor | server/src/java/org/jppf/server/nio/classloader/node/NodeClassContext.java:55-57 | A new node context waits for the node's initial request, with no resource and nothing pending. |
| NodeClassLoading.NodeClassContext.IsProvider | server/src/java/org/jppf/server/nio/classloader/node/NodeClassContext.java:60-62 | A node context never provides resources. |
| NodeClassLoading.NodeClassContext.SetState | server/src/java/org/jppf/server/nio/classloader/node/NodeClassContext.java:64-73 | The state is set and the base class's answer returned. Entering IDLE_NODE, and no other state, wakes the threads waiting on the channel. |
| NodeClassLoading.NodeClassContext.GetPendingResponses | server/src/java/org/jppf/server/nio/classloader/node/NodeClassContext.java:79-86 | The copy equals the pending map, and as a value it cannot change the context. |
| NodeClassLoading.NodeClassContext.AddPendingResponse | server/src/java/org/jppf/server/nio/classloader/node/NodeClassContext.java:93-100 | The resource now maps to the request, replacing any earlier one, and no other entry changes. |
| NodeClassLoading.NodeClassContext.RemovePendingResponses | server/src/java/org/jppf/server/nio/classloader/node/NodeClassContext.java:106-114 | Every listed resource is removed from the pending map, no other entry is, and the caller's list is emptied. |
| NodeClassLoading.NodeClassContext.NbPendingResponses | server/src/java/org/jppf/server/nio/classloader/node/NodeClassContext.java:120-127 | The count is the number of pending entries. |
| NodeClassLoading.NodeClassContext.HasPendingResponse | server/src/java/org/jppf/server/nio/classloader/node/NodeClassContext.java:133-140 | A response is pending exactly when the count is positive, i.e. when some entry exists. |
| NodeClassLoading.NodeClassContext.GetPendingResponse | server/src/java/org/jppf/server/nio/classloader/node/NodeClassContext.java:147-154 | The request awaiting the resource is found exactly for a pending resource, and null otherwise. |
| NodeClassLoading.NodeClassContext.SendResponse | server/src/java/org/jppf/server/nio/classloader/node/NodeWaitingProviderResponseState.java:104-109 | The context's resource is serialized and the transition is to sending the node response. |
| NodeClassLoading.ResourceList.constructor | server/src/java/org/jppf/server/nio/classloader/node/NodeClassContext.java:106 | A list holds the resources given. |
| NodeClassLoading.WaitingProviderResponse | server/src/java/org/jppf/server/nio/classloader/node/NodeWaitingProviderResponseState.java:64-96 | The answered resources are absorbed into the context's resource. The node is answered, its resource serialized, exactly when no unanswered entry remains; otherwise the channel goes idle. The context's own map is not changed. |
| NodeClassLoading.AbsorbAnswered | server/src/java/org/jppf/server/nio/classloader/node/NodeWaitingProviderResponseState.java:73-89 | The loop collects exactly the answered resources in visiting order. A composite absorbs them all; otherwise the context takes each in turn. |
| NodeClassLoading.RemoveEach | server/src/java/org/jppf/server/nio/classloader/node/NodeWaitingProviderResponseState.java:90 | Polling the queue removes exactly the ids of the collected resources from the copied map. |
| NodeClassLoading.FirstVisited | server/src/java/org/jppf/server/nio/classloader/node/NodeWaitingProviderResponseState.java:72 | An empty pending map is visited by an empty order. |
| NodeClassLoading.CompletedStep | server/src/java/org/jppf/server/nio/classloader/node/NodeWaitingProviderResponseState.java:79-88 | Visiting one more entry collects its resource exactly when it is answered. |
| NodeClassLoading.AbsorbStep | server/src/java/org/jppf/server/nio/classloader/node/NodeWaitingProviderResponseState.java:85-86 | One more answered resource is added by id to a composite, or otherwise becomes the context's resource. |
| NodeClassLoading.CompletedMeaning | server/src/java/org/jppf/server/nio/classloader/node/NodeWaitingProviderResponseState.java:77-89 | Every answered resource visited is collected, and everything collected was met in the visit. |
| NodeClassLoading.RemainingUnanswered | server/src/java/org/jppf/server/nio/classloader/node/NodeWaitingProviderResponseState.java:90-95 | With entries keyed by their own resource, the entries left are exactly the unanswered ones. So the node is answered exactly when every awaited resource has an answer. |
| NodeClassLoading.AddAllMeaning | server/src/java/org/jppf/server/nio/classloader/node/NodeWaitingProviderResponseState.java:85 | A composite ends holding, for each id, the last answered resource with that id, and otherwise what it held before. |
| NodeClassLoading.AbsorbSingle | server/src/java/org/jppf/server/nio/classloader/node/NodeWaitingProviderResponseState.java:86 | Without a composite, the context ends with the last answered resource, or keeps its own when none was answered. |
| ClientClassLoading.Errored | server/src/java/org/jppf/server/nio/classloader/client/ClientClassContext.java:196 | An errored request keeps its node channel and resource id, and its resource is in state NODE_RESPONSE_ERROR. |
| ClientClassLoading.MarkAll | server/src/java/org/jppf/server/nio/classloader/client/ClientClassContext.java:193-197 | Every node request of the list, and only those, is answered with an error, in order. |
| ClientClassLoading.Abandoned | server/src/java/org/jppf/server/nio/classloader/client/ClientClassContext.java:176-183 | The requests to fail are the queued ones followed by the one in progress, when there is one. |
| ClientClassLoading.Names | server/src/java/org/jppf/server/nio/classloader/client/ClientClassContext.java:191 | One resource id per request, in the same order. |
| ClientClassLoading.DrainMeaning | server/src/java/org/jppf/server/nio/classloader/client/ClientClassContext.java:190-198 | Removing the node requests of each abandoned resource from the registry leaves exactly the other resources' entries, and takes out exactly the node requests registered under those resources. |
| ClientClassLoading.ClientClassContext.constructor | server/src/java/org/jppf/server/nio/classloader/client/ClientClassContext.java:66-68 | A new provider context waits for the provider's initial request, with nothing queued and no current request. |
| ClientClassLoading.ClientClassContext.IsProvider | server/src/java/org/jppf/server/nio/classloader/client/ClientClassContext.java:71-73 | A client context always provides resources. |
| ClientClassLoading.ClientClassContext.ProcessRequests | server/src/java/org/jppf/server/nio/classloader/client/ClientClassContext.java:108-120 | The channel moves to sending a provider request exactly when it is idle, serves no request and has at least one queued. |
| ClientClassLoading.ClientClassContext.SetState | server/src/java/org/jppf/server/nio/classloader/client/ClientClassContext.java:75-88 | Entering IDLE_PROVIDER processes the queue and answers false; any other state answers the base class's result and requests no transition. |
| ClientClassLoading.ClientClassContext.AddRequest | server/src/java/org/jppf/server/nio/classloader/client/ClientClassContext.java:95-102 | A request the server already took on is not queued; otherwise it joins the end of the queue, and the channel is sent a request when it is idle with no current request. |
| ClientClassLoading.ClientClassContext.PollPendingRequest | server/src/java/org/jppf/server/nio/classloader/client/ClientClassContext.java:126-128 | The queue is first-in first-out: the oldest request comes out, or none when the queue is empty. |
| ClientClassLoading.ClientClassContext.NbPendingRequests | server/src/java/org/jppf/server/nio/classloader/client/ClientClassContext.java:134-136 | The count equals the queue's length. |
| ClientClassLoading.ClientClassContext.HasPendingRequest | server/src/java/org/jppf/server/nio/classloader/client/ClientClassContext.java:142-144 | A request is pending exactly when the count is positive. |
| ClientClassLoading.ClientClassContext.GetCurrentRequest | server/src/java/org/jppf/server/nio/classloader/client/ClientClassContext.java:150-152 | The request in progress, as last set. |
| ClientClassLoading.ClientClassContext.SetCurrentRequest | server/src/java/org/jppf/server/nio/classloader/client/ClientClassContext.java:158-160 | The request in progress becomes the given one. |
| ClientClassLoading.ClientClassContext.HandleProviderError | server/src/java/org/jppf/server/nio/classloader/client/ClientClassContext.java:172-204 | The queue and the current request are cleared. The node requests registered for every abandoned resource are removed from the registry and answered with an error. Their channels are the ones to reset, as given by the drain specification. |
| ClientClassLoading.FailEach | server/src/java/org/jppf/server/nio/classloader/client/ClientClassContext.java:193-197 | The loop answers each node request with an error and collects exactly their channels. |
| ClientClassLoading.ResourceRequestRegistry.constructor | server/src/java/org/jppf/server/nio/classloader/client/ClientClassContext.java:191 | The registry starts with the given node requests. |
| ClientClassLoading.ResourceRequestRegistry.Remove | server/src/java/org/jppf/server/nio/classloader/client/ClientClassContext.java:191 | The requests for a resource are taken out and returned, or nothing happens and null is returned when the resource has none. |
| ClientClassLoading.IsIdle | server/src/java/org/jppf/server/nio/classloader/client/ClientClassNioServer.java:172-176 | A provider channel is idle exactly when its state is IDLE_PROVIDER. |
| ClientClassLoading.ConcatMeaning | server/src/java/org/jppf/server/nio/classloader/client/ClientClassNioServer.java:155-158 | A channel is in the combined list exactly when it belongs to one of the listed clients. |
| Lists.AddThenRemove | server/src/java/org/jppf/server/nio/classloader/client/ClientClassNioServer.java:124-139 | Adding an element the list lacks, such as a new provider channel or status listener, and removing it again gives the list back. |
| ClientClassLoading.AllConnectionsMeaning | server/src/java/org/jppf/server/nio/classloader/client/ClientClassNioServer.java:155-158 | Whatever order the clients are visited in, the combined list holds exactly the registered channels. |
| ClientClassLoading.ClientClassNioServer.constructor | server/src/java/org/jppf/server/nio/classloader/client/ClientClassNioServer.java:53-64 | A new server has no provider connections, is not stopped and has closed nothing. |
| ClientClassLoading.ClientClassNioServer.ConnectionsOf | server/src/java/org/jppf/server/nio/classloader/client/ClientClassNioServer.java:146-149 | A client's channels are its registered list, or empty for an unknown uuid. |
| ClientClassLoading.ClientClassNioServer.AddProviderConnection | server/src/java/org/jppf/server/nio/classloader/client/ClientClassNioServer.java:124-128 | The channel is appended to that client's list and no other client changes. No client is ever left with an empty list. |
| ClientClassLoading.ClientClassNioServer.RemoveProviderConnection | server/src/java/org/jppf/server/nio/classloader/client/ClientClassNioServer.java:135-139 | Only that channel leaves only that client's list, and a client left with no channels is dropped. An unknown client changes nothing. |
| ClientClassLoading.ClientClassNioServer.GetProviderConnections | server/src/java/org/jppf/server/nio/classloader/client/ClientClassNioServer.java:146-149 | The result is a copy of the client's channels, and nothing in the server changes. |
| ClientClassLoading.ClientClassNioServer.GetAllConnections | server/src/java/org/jppf/server/nio/classloader/client/ClientClassNioServer.java:155-158 | The result is every client's channels, one client after the other, and nothing in the server changes. |
| ClientClassLoading.ClientClassNioServer.RemoveAllConnections | server/src/java/org/jppf/server/nio/classloader/client/ClientClassNioServer.java:164-170 | Nothing changes unless the server is stopped; then every provider connection is forgotten. |
| ClientClassLoading.ClientClassNioServer.CloseConnection | server/src/java/org/jppf/server/nio/classloader/client/ClientClassNioServer.java:95-117 | A null channel changes nothing. Otherwise the channel leaves its client's list when its uuid is known, and the channel and its client connection are recorded as closed. |
| Driver.DriverUuid | server/src/java/org/jppf/server/JPPFDriver.java:172 | The driver's uuid is the configured "jppf.driver.uuid" when present, else the generated one. |
| Driver.ValidPorts | server/src/java/org/jppf/server/JPPFDriver.java:497-500 | The filtered list is no longer than the input and holds only non-negative ports. |
| Driver.ValidPortsMembers | server/src/java/org/jppf/server/JPPFDriver.java:497-500 | A port is kept exactly when it is in the input and non-negative. |
| Driver.ValidPortsConcat | server/src/java/org/jppf/server/JPPFDriver.java:498-500 | Filtering keeps input order: filtering two lists one after the other is filtering each. |
| Driver.ValidPortsKeepsValid | server/src/java/org/jppf/server/JPPFDriver.java:495-504 | A list of valid ports comes out whole, so filtering is idempotent. |
| Driver.ExtractValidPorts | server/src/java/org/jppf/server/JPPFDriver.java:495-504 | A null or empty array is returned unchanged; otherwise the result holds exactly the non-negative ports in input order. |
| Driver.PortText | server/src/java/org/jppf/server/JPPFDriver.java:462 | A port is shown as a space followed by its decimal number. |
| Driver.PortsText | server/src/java/org/jppf/server/JPPFDriver.java:462 | The port list is empty exactly when there is no port. |
| Driver.PortsTextSpaces | server/src/java/org/jppf/server/JPPFDriver.java:462 | The port list holds exactly one space per port. |
| Driver.PortsTextInjective | server/src/java/org/jppf/server/JPPFDriver.java:462 | Two port lists print the same only when they are equal, so no port is lost or merged. |
| Driver.PluralPorts | server/src/java/org/jppf/server/JPPFDriver.java:459-461 | A port line begins with its heading, and the heading is followed by "s" exactly when more than one port is listed. |
| Driver.AppendPorts | server/src/java/org/jppf/server/JPPFDriver.java:459-467 | The loop appends the heading, the plural mark and each port after a space, which is the port line of the specification. |
| Driver.PrintInitializedMessage | server/src/java/org/jppf/server/JPPFDriver.java:453-471 | The message is the server name with " initialized" when it has a name, then the plain port line, then the secure port line. A null or empty array gives no line. |
| Driver.TimerDelay | server/src/java/org/jppf/server/JPPFDriver.java:343 | A shutdown delay of 0 or less is scheduled as 0; a positive delay is kept. |
| Driver.StartServer | server/src/java/org/jppf/server/JPPFDriver.java:439-445 | A null server is rejected with IllegalArgumentException and nothing printed. Otherwise the server is returned and its initialization message printed. |
| Driver.JPPFDriver.constructor | server/src/java/org/jppf/server/JPPFDriver.java:169-172 | A new driver takes its uuid from the configuration or the generator, and has scheduled no shutdown. |
| Driver.JPPFDriver.InitiateShutdownRestart | server/src/java/org/jppf/server/JPPFDriver.java:338-347 | Only the first request schedules a shutdown task, with its delay floored at 0; later requests change nothing. At most one task is ever scheduled. |
| NodeAdmin.InterruptFlag | server/src/java/org/jppf/management/JPPFNodeAdmin.java:125-145 | A missing interruptIfRunning counts as true; only an explicit false does not interrupt. |
| NodeAdmin.AcceptedOverrides | server/src/java/org/jppf/management/JPPFNodeAdmin.java:234 | The accepted overrides are exactly the given ones except "jppf.node.uuid", with their values unchanged. |
| NodeAdmin.RestartRequestAsWritten | server/src/java/org/jppf/management/JPPFNodeAdmin.java:241 | As written, the request fails with a null pointer exactly when the restart flag is missing, or when a restart is asked for without an interrupt flag. |
| NodeAdmin.RestartRequest | server/src/java/org/jppf/management/JPPFNodeAdmin.java:241 | Corrected: only a missing restart flag fails. No restart asks nothing, and a restart uses the interrupt flag with null read as true. |
| NodeAdmin.NullInterruptFails | server/src/java/org/jppf/management/JPPFNodeAdmin.java:241 | A restart without an interrupt flag fails as written, while the corrected rule restarts with interruption. |
| NodeAdmin.RestartRequestAgrees | server/src/java/org/jppf/management/JPPFNodeAdmin.java:241 | Wherever the code as written succeeds, the corrected rule gives the same answer. |
| NodeAdmin.CpuTimeProperty | server/src/java/org/jppf/management/JPPFNodeAdmin.java:105 | The "cpuTime" property is "-1" without execution information, else the non-negative whole milliseconds of the nanosecond count. |
| NodeAdmin.Node.constructor | server/src/java/org/jppf/management/JPPFNodeAdmin.java:62 | The node starts idle, with no shutdown request, no tasks counted and no job cancelled. |
| NodeAdmin.Node.RequestShutdown | server/src/java/org/jppf/management/JPPFNodeAdmin.java:179 | A deferred request is recorded on the node with its restart flag. |
| NodeAdmin.Node.CancelShutdownRequest | server/src/java/org/jppf/management/JPPFNodeAdmin.java:295 | A deferred request is withdrawn, and the answer says whether there was one. |
| NodeAdmin.JPPFNodeAdmin.constructor | server/src/java/org/jppf/management/JPPFNodeAdmin.java:62-69 | The reported state starts with no pending action and the node's thread pool size and priority. The process is not shutting down. |
| NodeAdmin.JPPFNodeAdmin.State | server/src/java/org/jppf/management/JPPFNodeAdmin.java:77-81 | The returned state is a value equal to the node state, so changing it cannot change the admin. |
| NodeAdmin.JPPFNodeAdmin.PendingAction | server/src/java/org/jppf/management/JPPFNodeAdmin.java:287-290 | NONE exactly without a shutdown request, RESTART exactly with a restart request, and SHUTDOWN exactly with a shutdown request. |
| NodeAdmin.JPPFNodeAdmin.ShutdownOrRestart | server/src/java/org/jppf/management/JPPFNodeAdmin.java:157-182 | A local node changes nothing. Otherwise the request is printed. An interrupting request, or any request on an idle node, starts the shutdown thread only the first time. Any other request is deferred and becomes the pending action. At most one shutdown thread ever starts. |
| NodeAdmin.JPPFNodeAdmin.Restart | server/src/java/org/jppf/management/JPPFNodeAdmin.java:114-127 | A missing flag means interrupt. A local node changes nothing. Otherwise the request is printed. When interrupting, or when the node is not executing, the shutdown with restart starts at most once and the node and its state are unchanged. Otherwise the request is deferred on the node with restart set, and the pending action becomes RESTART. The configuration, the saved overrides and the delegation model are unchanged. |
| NodeAdmin.JPPFNodeAdmin.Shutdown | server/src/java/org/jppf/management/JPPFNodeAdmin.java:134-147 | A missing flag means interrupt. A local node changes nothing. Otherwise the request is printed. When interrupting, or when the node is not executing, the shutdown starts at most once and the node and its state are unchanged. Otherwise the request is deferred on the node without restart, and the pending action becomes SHUTDOWN. The configuration, the saved overrides and the delegation model are unchanged. |
| NodeAdmin.JPPFNodeAdmin.CancelPendingAction | server/src/java/org/jppf/management/JPPFNodeAdmin.java:293-298 | The answer says whether a request was withdrawn. The pending action becomes NONE only then; otherwise the state is unchanged. |
| NodeAdmin.JPPFNodeAdmin.SetTaskCounter | server/src/java/org/jppf/management/JPPFNodeAdmin.java:202-206 | The node's count and the reported count both become n; nothing else in the state changes. |
| NodeAdmin.JPPFNodeAdmin.ResetTaskCounter | server/src/java/org/jppf/management/JPPFNodeAdmin.java:191-194 | Both the node's count and the reported count become 0. |
| NodeAdmin.JPPFNodeAdmin.UpdateThreadPoolSize | server/src/java/org/jppf/management/JPPFNodeAdmin.java:89-93 | The executor and the reported state both take the new pool size. |
| NodeAdmin.JPPFNodeAdmin.UpdateThreadsPriority | server/src/java/org/jppf/management/JPPFNodeAdmin.java:214-218 | The executor and the reported state both take the new priority. |
| NodeAdmin.JPPFNodeAdmin.UpdateConfiguration | server/src/java/org/jppf/management/JPPFNodeAdmin.java:231-242 | Null overrides change nothing. Otherwise every override except the node uuid is applied and saved, and the node is told its configuration changed. A missing restart flag fails with a null pointer. Without an explicit restart request, or on a local node, nothing is printed or shut down and no request is deferred. An explicit restart is printed, then either starts the shutdown with restart at most once, or is deferred on the node with pending action RESTART, as `Restart` is. The restart follows the corrected rule `RestartRequest`: a restart without an interrupt flag interrupts, where the code as written fails after saving (see Findings). |
| NodeAdmin.JPPFNodeAdmin.CancelJob | server/src/java/org/jppf/management/JPPFNodeAdmin.java:263-270 | A null id, or the id of a job other than the one executing, changes nothing. Otherwise the job is marked cancelled and its tasks are cancelled with the requeue flag. |
| NodeAdmin.JPPFNodeAdmin.SetDelegationModel | server/src/java/org/jppf/management/JPPFNodeAdmin.java:278-280 | A null model is ignored; otherwise it becomes the delegation model. |
| Client.Job.constructor | client/src/java/org/jppf/client/JPPFClient.java:116-121 | A new job belongs to no client, is not cancelled, not done and has no results. |
| Client.JPPFClient.constructor | client/src/java/org/jppf/client/JPPFClient.java:101-104 | A new client is open, not resetting, and has submitted nothing. |
| Client.JPPFClient.SubmitJob | client/src/java/org/jppf/client/JPPFClient.java:112-132 | The refusals come in the source's order: a closed client, a null job, a job without tasks, then a job already submitted and not done. A refused submission changes nothing. An accepted job belongs to this client and goes to the job manager. A resubmitted job loses its cancelled flag and previous results. The caller gets the awaited results exactly when the job is blocking. |
| Client.JPPFClient.Reset | client/src/java/org/jppf/client/JPPFClient.java:155-179 | A closed client, or one whose reset has started, changes nothing. Otherwise the client is closed for a reset once and initialized again from the reloaded or the given configuration. |
| Client.FirstPool | client/src/java/org/jppf/client/JPPFClient.java:221-224 | The answer is null exactly when no pool was found, and otherwise it is the first pool found. |
| BaseClientConnection.Unexecuted | client/src/java/org/jppf/client/BaseJPPFClientConnection.java:162-170 | The selection is no longer than the job's task list. |
| BaseClientConnection.UnexecutedMembers | client/src/java/org/jppf/client/BaseJPPFClientConnection.java:162-170 | A task is selected exactly when it belongs to the job and has no result at its position. |
| BaseClientConnection.UnexecutedConcat | client/src/java/org/jppf/client/BaseJPPFClientConnection.java:162-170 | Selection keeps job order: selecting from two lists one after the other is selecting from each. |
| BaseClientConnection.UnexecutedStep | client/src/java/org/jppf/client/BaseJPPFClientConnection.java:162-169 | Looking at one more task adds it at the end exactly when it has no result. |
| BaseClientConnection.UnexecutedPrefix | client/src/java/org/jppf/client/BaseJPPFClientConnection.java:162-170 | What is selected from the first tasks is a prefix of the whole selection. |
| BaseClientConnection.TasksWire | client/src/java/org/jppf/client/BaseJPPFClientConnection.java:136-145 | Each task slot goes on the wire in order, one item per slot. |
| BaseClientConnection.Unserializable | client/src/java/org/jppf/client/BaseJPPFClientConnection.java:139-143 | Every returned task is one that could not be serialized, carrying the serialization exception as its throwable. |
| BaseClientConnection.JobHeader | client/src/java/org/jppf/client/BaseJPPFClientConnection.java:117-124 | The header has uuid path [client uuid], the job's unexecuted count as task count, and the job's name, uuid, SLA and metadata. Its positions and resubmit parameters are the prepared arrays. It is neither a handshake nor a close command. |
| BaseClientConnection.HandshakeHeader | client/src/java/org/jppf/client/BaseJPPFClientConnection.java:183-195 | The handshake header has uuid path [client uuid] and the handshake flag. Its name "handshake job" is also its uuid, it carries the connection uuid, and it has no SLA and no metadata. |
| BaseClientConnection.CloseHeader | client/src/java/org/jppf/client/BaseJPPFClientConnection.java:209-220 | The close header has uuid path [client uuid] and the close-command flag. Its name "close command job" is also its uuid, it carries the connection uuid, and it has no SLA and no metadata. |
| BaseClientConnection.Placed | client/src/java/org/jppf/client/BaseJPPFClientConnection.java:256 | A received task takes the listed position for its index when the list exists and is long enough, and is otherwise unchanged. |
| BaseClientConnection.ReceivedMeaning | client/src/java/org/jppf/client/BaseJPPFClientConnection.java:253-259 | Every non-null task read is kept with its position placed, and every kept task is such a task. |
| BaseClientConnection.Prepare | client/src/java/org/jppf/client/BaseJPPFClientConnection.java:156-175 | The arrays are as long as the job's unexecuted count and hold, in job order, exactly the tasks without a result, their positions and resubmit limits, then nulls and zeros. A count too small for those tasks overruns the arrays. |
| BaseClientConnection.SlotsStep | client/src/java/org/jppf/client/BaseJPPFClientConnection.java:165-168 | Filling the next slot with one more task keeps the arrays holding the selection. |
| BaseClientConnection.PreparedArrays | client/src/java/org/jppf/client/BaseJPPFClientConnection.java:156-175 | Arrays filled slot by slot as the loop does are exactly what the preparation specification describes. |
| BaseClientConnection.BaseJPPFClientConnection.constructor | client/src/java/org/jppf/client/BaseJPPFClientConnection.java:182-227 | A new connection has sent nothing and flushed nothing. |
| BaseClientConnection.BaseJPPFClientConnection.PrepareTasksToSend | client/src/java/org/jppf/client/BaseJPPFClientConnection.java:156-175 | The loop over the job fills the arrays exactly as the preparation specification says, overrun included. |
| BaseClientConnection.BaseJPPFClientConnection.FillSlot | client/src/java/org/jppf/client/BaseJPPFClientConnection.java:165-168 | One array slot takes the next selected task, its position and its resubmit limit. |
| BaseClientConnection.BaseJPPFClientConnection.SendTasks | client/src/java/org/jppf/client/BaseJPPFClientConnection.java:116-148 | When preparation overruns, nothing is sent. Otherwise the header goes out, then the data provider, or a null when it cannot be serialized, then each task slot, then one flush. The tasks that could not be serialized are returned. |
| BaseClientConnection.BaseJPPFClientConnection.SendSlots | client/src/java/org/jppf/client/BaseJPPFClientConnection.java:136-145 | Each slot goes on the wire in order; the tasks that cannot be serialized are sent as null data and collected. |
| BaseClientConnection.BaseJPPFClientConnection.SendHandshakeJob | client/src/java/org/jppf/client/BaseJPPFClientConnection.java:182-201 | The handshake header and a null data provider are sent and flushed once. The driver's answer header is returned exactly when the stream holds as many tasks as it counts. |
| BaseClientConnection.BaseJPPFClientConnection.SendCloseConnectionCommand | client/src/java/org/jppf/client/BaseJPPFClientConnection.java:207-227 | Nothing is sent without a job-server connection or without a socket. Otherwise the close header and a null data provider are sent and flushed once. |
| BaseClientConnection.ReceiveBundleAndResults | client/src/java/org/jppf/client/BaseJPPFClientConnection.java:237-278 | Reading fails exactly when the stream holds fewer tasks than the header counts. Otherwise the non-null tasks are kept in order with their listed positions. A node exception in the header becomes every kept task's throwable, wrapped in a `JPPFException` when it is not an exception. |
| BaseClientConnection.AsException | client/src/java/org/jppf/client/BaseJPPFClientConnection.java:267 | An exception is kept as it is, and anything else is wrapped in a `JPPFException`; either way the original throwable is recovered. |
| AbstractClientConnection.Notify | client/src/java/org/jppf/client/AbstractJPPFClientConnection.java:356-365 | One notification per listener, in list order, each carrying the new status. |
| AbstractClientConnection.NotifyOncePerListener | client/src/java/org/jppf/client/AbstractJPPFClientConnection.java:356-365 | Each listener is notified of the status exactly as many times as it is registered, and nobody else is notified. |
| AbstractClientConnection.TotalStep | client/src/java/org/jppf/client/AbstractJPPFClientConnection.java:256-261 | The running size grows by each buffer's length. |
| AbstractClientConnection.ReceiveResults | client/src/java/org/jppf/client/AbstractJPPFClientConnection.java:280-292 | The tasks read are returned, with the first task's position as start index, or -1 when no task came back. |
| AbstractClientConnection.AbstractJPPFClientConnection.constructor | client/src/java/org/jppf/client/AbstractJPPFClientConnection.java:106-139 | A new connection has the six settings given, status CONNECTING, no listeners and no socket client. |
| AbstractClientConnection.AbstractJPPFClientConnection.Configure | client/src/java/org/jppf/client/AbstractJPPFClientConnection.java:150-158 | The uuid, name, host, driver port, class-server port and priority take the given values. |
| AbstractClientConnection.AbstractJPPFClientConnection.GetPriority | client/src/java/org/jppf/client/AbstractJPPFClientConnection.java:307-310 | The stored priority. |
| AbstractClientConnection.AbstractJPPFClientConnection.GetStatus | client/src/java/org/jppf/client/AbstractJPPFClientConnection.java:317-320 | The stored status. |
| AbstractClientConnection.AbstractJPPFClientConnection.SetStatus | client/src/java/org/jppf/client/AbstractJPPFClientConnection.java:327-331 | The status is stored, and then every listener registered at that moment is notified of it once, in order. |
| AbstractClientConnection.AbstractJPPFClientConnection.FireStatusChanged | client/src/java/org/jppf/client/AbstractJPPFClientConnection.java:356-365 | The loop over the snapshot sends exactly one notification per listener, in order. |
| AbstractClientConnection.AbstractJPPFClientConnection.AddClientConnectionStatusListener | client/src/java/org/jppf/client/AbstractJPPFClientConnection.java:338-341 | The listener is appended to the list. |
| AbstractClientConnection.AbstractJPPFClientConnection.RemoveClientConnectionStatusListener | client/src/java/org/jppf/client/AbstractJPPFClientConnection.java:348-351 | The first registration of the listener is removed. |
| AbstractClientConnection.AbstractJPPFClientConnection.InitConnection | client/src/java/org/jppf/client/AbstractJPPFClientConnection.java:170-194 | The connection succeeds exactly when the socket initializes. The status goes CONNECTING then ACTIVE, or CONNECTING then FAILED with the "Could not reconnect" exception. Listeners hear both changes. A socket client is created only when missing. The reconnection line is printed only on success. |
| AbstractClientConnection.AbstractJPPFClientConnection.InitSocketClient | client/src/java/org/jppf/client/AbstractJPPFClientConnection.java:200-205 | A socket client exists, pointed at the connection's host and port. |
| AbstractClientConnection.AbstractJPPFClientConnection.SendTasks | client/src/java/org/jppf/client/AbstractJPPFClientConnection.java:238-272 | The header names this client as the uuid path and counts the tasks. The buffer size is the sum of 4 plus each length over header, data provider and tasks. The copy loop writes only the lengths' sum, since the length prefixes are not written. |
| Interceptors.Allows | common/src/java/org/jppf/comm/interceptor/InterceptorHandler.java:100-148 | An interceptor lets a socket through on connect or on accept exactly when that hook accepts it. |
| Interceptors.HasInterceptorAsWritten | common/src/java/org/jppf/comm/interceptor/InterceptorHandler.java:68-87 | As written, the answer is true exactly when no interceptor was loaded. |
| Interceptors.HasInterceptor | common/src/java/org/jppf/comm/interceptor/InterceptorHandler.java:81-87 | Corrected, as the method's documentation intends: true exactly when at least one interceptor was loaded. |
| Interceptors.HasInterceptorInverted | common/src/java/org/jppf/comm/interceptor/InterceptorHandler.java:85-87 | With one interceptor loaded, the documented answer is true and the written one false. |
| Interceptors.HasInterceptorAgrees | common/src/java/org/jppf/comm/interceptor/InterceptorHandler.java:85-87 | For every list, the documented answer is the negation of the written one. |
| Interceptors.Invoke | common/src/java/org/jppf/comm/interceptor/InterceptorHandler.java:95-151 | With no interceptor the socket passes. Otherwise it passes exactly when every interceptor accepts it. The interceptors are asked in list order, and asking stops at the first refusal, after which none is consulted. |
| Interceptors.InvokeWrapper | common/src/java/org/jppf/comm/interceptor/InterceptorHandler.java:159-173 | A null socket wrapper passes without consulting any interceptor; otherwise the wrapped socket passes exactly when every interceptor accepts it. |
| LifeCycle.HandlerOf | node/src/java/org/jppf/node/event/LifeCycleEventHandler.java:209-212 | A listener that is its own error handler handles its errors; any other listener's errors go to the default handler. |
| LifeCycle.Ids | node/src/java/org/jppf/node/event/LifeCycleEventHandler.java:98 | One identity per listener, in registration order. |
| LifeCycle.CalledIdsConcat | node/src/java/org/jppf/node/event/LifeCycleEventHandler.java:96-185 | The callbacks called by two runs of notifications, one after the other, are those of each run in turn. |
| LifeCycle.NotifyOneCalls | node/src/java/org/jppf/node/event/LifeCycleEventHandler.java:98-103 | Notifying one listener calls its callback exactly once, whether or not it throws. |
| LifeCycle.EveryListenerCalled | node/src/java/org/jppf/node/event/LifeCycleEventHandler.java:96-185 | Every fire method calls each registered listener's callback exactly once, in registration order, even after earlier callbacks throw. |
| LifeCycle.ErrorsHandled | node/src/java/org/jppf/node/event/LifeCycleEventHandler.java:101-103 | Every handled error comes from a listener whose callback threw on that event, and went to that listener's chosen handler. |
| LifeCycle.Loaded | node/src/java/org/jppf/node/event/LifeCycleEventHandler.java:190-201 | A listener ends up loaded exactly when the lookup produced it without an error. |
| LifeCycle.LifeCycleEventHandler.constructor | node/src/java/org/jppf/node/event/LifeCycleEventHandler.java:64-66 | A new handler has no listeners and has notified nobody. |
| LifeCycle.LifeCycleEventHandler.AddNodeLifeCycleListener | node/src/java/org/jppf/node/event/LifeCycleEventHandler.java:72-75 | A null listener leaves the list unchanged; any other listener is appended. |
| LifeCycle.LifeCycleEventHandler.RemoveNodeLifeCycleListener | node/src/java/org/jppf/node/event/LifeCycleEventHandler.java:81-84 | A null listener leaves the list unchanged; otherwise its first registration is removed. |
| LifeCycle.LifeCycleEventHandler.RemoveAllListeners | node/src/java/org/jppf/node/event/LifeCycleEventHandler.java:89-91 | The list becomes empty. |
| LifeCycle.LifeCycleEventHandler.Fire | node/src/java/org/jppf/node/event/LifeCycleEventHandler.java:96-185 | The loop records, for each listener in order, its callback and, when it throws, the handling of its error. That record is the notification specification. |
| LifeCycle.LifeCycleEventHandler.LoadListeners | node/src/java/org/jppf/node/event/LifeCycleEventHandler.java:190-201 | Every listener found is appended in lookup order, and one whose loading raises an error is skipped. |
| HashMapHandler.EntryTokens | common/src/java/org/jppf/serialization/ConcurrentHashMapHandler.java:37-41 | Two tokens are written per entry visited. |
| HashMapHandler.KeySet | common/src/java/org/jppf/serialization/ConcurrentHashMapHandler.java:37 | The set of the keys visited. |
| HashMapHandler.Restrict | common/src/java/org/jppf/serialization/ConcurrentHashMapHandler.java:57-61 | The entries under the keys visited, with the map's values. |
| HashMapHandler.DistinctCard | common/src/java/org/jppf/serialization/ConcurrentHashMapHandler.java:37 | A list of distinct keys is as long as the set of them. |
| HashMapHandler.EnumeratedSize | common/src/java/org/jppf/serialization/ConcurrentHashMapHandler.java:36-37 | Iterating over the entries visits as many keys as the written size, so the count written matches the entries written. |
| HashMapHandler.ReadWritten | common/src/java/org/jppf/serialization/ConcurrentHashMapHandler.java:37-61 | Reading back as many pairs as were written gives exactly the entries written. |
| HashMapHandler.WrittenSplit | common/src/java/org/jppf/serialization/ConcurrentHashMapHandler.java:37-41 | The tokens written end with the last key followed by its value. |
| HashMapHandler.ReadPair | common/src/java/org/jppf/serialization/ConcurrentHashMapHandler.java:58-60 | Reading one more well-formed pair puts it into the map read so far. |
| HashMapHandler.RestrictStep | common/src/java/org/jppf/serialization/ConcurrentHashMapHandler.java:60 | The entries of one more key are the earlier entries with that key put in. |
| HashMapHandler.EntryTokensStep | common/src/java/org/jppf/serialization/ConcurrentHashMapHandler.java:39-40 | One more entry adds its key token and then its value token. |
| HashMapHandler.RoundTrip | common/src/java/org/jppf/serialization/ConcurrentHashMapHandler.java:36-61 | Decoding what was encoded for a map, into a fresh concurrent map, gives back the same map, whatever follows in the stream. |
| HashMapHandler.ReadsWhatWasWritten | common/src/java/org/jppf/serialization/ConcurrentHashMapHandler.java:36-61 | Reading back what was written for a map reads exactly the tokens written and stops before whatever follows them. |
| HashMapHandler.ReadShifted | common/src/java/org/jppf/serialization/ConcurrentHashMapHandler.java:56-58 | Reading entries after the count token is reading them from the rest of the stream. |
| HashMapHandler.ReadFailureSticks | common/src/java/org/jppf/serialization/ConcurrentHashMapHandler.java:57-59 | Once a pair cannot be read, reading more pairs fails the same way. |
| HashMapHandler.Serializer.constructor | common/src/java/org/jppf/serialization/ConcurrentHashMapHandler.java:30-35 | A new serializer has written nothing and holds the given class descriptor. |
| HashMapHandler.Deserializer.constructor | common/src/java/org/jppf/serialization/ConcurrentHashMapHandler.java:48-54 | A new deserializer reads from the start of its stream and holds the given class descriptor. |
| HashMapHandler.WriteDeclaredFields | common/src/java/org/jppf/serialization/ConcurrentHashMapHandler.java:30-45 | The entry count and then each entry's key followed by its value are appended to the stream. The serializer's class descriptor is restored. |
| HashMapHandler.WriteEntries | common/src/java/org/jppf/serialization/ConcurrentHashMapHandler.java:37-41 | The loop writes exactly the key and value tokens of the entries, in iteration order. |
| HashMapHandler.ReadDeclaredFields | common/src/java/org/jppf/serialization/ConcurrentHashMapHandler.java:48-65 | The result is the decode specification: a concurrent map is reset, then the count and that many pairs are read and put into it. A short or malformed stream fails. After a successful read the deserializer stands just past the count and the pairs read; it never moves back. The class descriptor is restored on every path. |
| HashMapHandler.ReadEntriesFrom | common/src/java/org/jppf/serialization/ConcurrentHashMapHandler.java:57-61 | The loop reads size pairs into the map, or stops with the first failure; a non-positive size reads nothing. After a successful read the position has moved past exactly two tokens per pair. |
| Lists.Min | common/src/java/org/jppf/io/ChannelOutputDestination.java:73 | The smaller of the two values. |
| ChannelOutput.Accepted | common/src/java/org/jppf/io/ChannelOutputDestination.java:76 | The channel never accepts more than it is offered. |
| ChannelOutput.WrittenBounds | common/src/java/org/jppf/io/ChannelOutputDestination.java:69-82 | The write loop never goes back and never writes more than len bytes; with len at most the start count it writes nothing. |
| ChannelOutput.WrittenWhole | common/src/java/org/jppf/io/ChannelOutputDestination.java:70-80 | A channel that takes every chunk whole gets all len bytes written, given enough writes. |
| ChannelOutput.ChannelOutputDestination.constructor | common/src/java/org/jppf/io/ChannelOutputDestination.java:44-53 | A new destination has no temporary buffer and has written nothing. |
| ChannelOutput.ChannelOutputDestination.Write | common/src/java/org/jppf/io/ChannelOutputDestination.java:64-83 | The count is what the loop specification gives: 0 for len at most 0, otherwise between 0 and len. The channel receives exactly data[offset..offset+count], in order. The temporary buffer is kept exactly when fewer than len bytes were written. Every chunk offered is at most the buffer's capacity. |
| ChannelOutput.ChannelOutputDestination.WriteChunks | common/src/java/org/jppf/io/ChannelOutputDestination.java:69-80 | Chunks of at most the capacity, taken in order from data[offset+count..], are offered. The loop stops at the first write that accepts nothing or less than offered, and otherwise when len bytes are written. |
| ProcessWrapping.WithoutCR | node/src/java/org/jppf/process/ProcessWrapper.java:141 | The text without carriage returns contains none. |
| ProcessWrapping.StepConsistent | node/src/java/org/jppf/process/ProcessWrapper.java:139-148 | Reading one more character keeps every chunk passed on well formed. A chunk is non-empty, holds no carriage return, and ends at its only line feed or at a full 8192-character buffer. The buffer stays without line feed and below full. |
| ProcessWrapping.StepKeepsText | node/src/java/org/jppf/process/ProcessWrapper.java:141-147 | Reading one more character adds it to the text passed on or buffered, unless it is a carriage return. |
| ProcessWrapping.RunMeaning | node/src/java/org/jppf/process/ProcessWrapper.java:137-149 | After the whole stream, every chunk is well formed. The chunks followed by the characters still buffered are exactly the input without carriage returns. Those buffered characters are dropped at the end of the stream. |
| ProcessWrapping.RunStep | node/src/java/org/jppf/process/ProcessWrapper.java:137-149 | Reading the input up to one more character is one more step. |
| ProcessWrapping.NotifyAllStep | node/src/java/org/jppf/process/ProcessWrapper.java:146 | One more chunk adds its notifications after those of the earlier chunks. |
| ProcessWrapping.Notify | node/src/java/org/jppf/process/ProcessWrapper.java:90-94 | One event per listener, in order, through outputStreamAltered for the output stream and errorStreamAltered otherwise. |
| ProcessWrapping.ProcessWrapper.constructor | node/src/java/org/jppf/process/ProcessWrapper.java:59-62 | A new wrapper has no process, no stream handler and has notified nobody. |
| ProcessWrapping.ProcessWrapper.SetProcess | node/src/java/org/jppf/process/ProcessWrapper.java:69-77 | Only the first call takes effect. It stores the process and starts one handler for its output stream and one for its error stream. A null first process is stored and then fails with a null pointer. |
| ProcessWrapping.ProcessWrapper.FireStreamEvent | node/src/java/org/jppf/process/ProcessWrapper.java:84-96 | Every listener is told once, in order, through the hook of the stream concerned. |
| ProcessWrapping.ProcessWrapper.HandleStream | node/src/java/org/jppf/process/ProcessWrapper.java:127-159 | The loop notifies the listeners of exactly the chunks the reading specification produces, in order, each as soon as it completes. |
| ProcessWrapping.ProcessWrapper.ReadChar | node/src/java/org/jppf/process/ProcessWrapper.java:139-148 | One character advances the buffer as a reading step does, and a completed chunk is passed on to the listeners. |
| Localization.GetLocalized | common/src/java/org/jppf/utils/LocalizationUtils.java:79-108 | A null base name, a bundle that cannot be found, or a key the bundle lacks each give the default. Otherwise the bundle's value for the key is returned. |
| Localization.GetLocalizedKey | common/src/java/org/jppf/utils/LocalizationUtils.java:43-45 | The two-argument form is the lookup with the key as its own default, under the default locale; a null base name gives the key back. |
| Localization.KeyIsDefault | common/src/java/org/jppf/utils/LocalizationUtils.java:43-108 | A key looked up alone comes back either as itself or as a value of the bundle found for it. |
| Localization.GetLocalizedAll | common/src/java/org/jppf/utils/LocalizationUtils.java:53-69 | Null keys give an empty array. Otherwise the array is as long as the keys, and each entry is that key looked up with itself as default. |
| Localization.LastIndexOf | common/src/java/org/jppf/utils/LocalizationUtils.java:121 | The index is -1 exactly when the character is absent; otherwise the character is there and nowhere after it. |
| Localization.FileName | common/src/java/org/jppf/utils/LocalizationUtils.java:119-120 | A file's name is a suffix of the path holding no separator. |
| Localization.Stem | common/src/java/org/jppf/utils/LocalizationUtils.java:121-122 | A name without '.' is kept whole; otherwise the stem followed by the last extension, from its '.', is the name. |
| Localization.GetLocalisationBase | common/src/java/org/jppf/utils/LocalizationUtils.java:116-123 | The base, then '/', then the file's name with everything from its last '.' removed. A null base prints as "null". |
| Localization.LocalisationBaseKeepsName | common/src/java/org/jppf/utils/LocalizationUtils.java:116-123 | For a plain file name, only its last extension goes, and a name without '.' is kept whole. |
| Exceptions.GetMessage | node/src/java/org/jppf/utils/ExceptionUtils.java:71-75 | No throwable gives "null"; otherwise the class name, ": ", and the message, printed as "null" when missing. |
| Exceptions.Line | node/src/java/org/jppf/utils/ExceptionUtils.java:46 | A frame line is a line break, "  at " and the frame. |
| Exceptions.FrameLinesConcat | node/src/java/org/jppf/utils/ExceptionUtils.java:46 | The lines of two frame lists, one after the other, are the lines of each in turn. |
| Exceptions.FrameLinesLength | node/src/java/org/jppf/utils/ExceptionUtils.java:46 | The frame lines are as long as the frames plus 6 characters per frame. |
| Exceptions.GetStackTrace | node/src/java/org/jppf/utils/ExceptionUtils.java:42-48 | No throwable gives "null"; otherwise the message, followed by a line per frame in order, so the message is a prefix. |
| Exceptions.AppendFrames | node/src/java/org/jppf/utils/ExceptionUtils.java:45-47 | The loop appends exactly one line per frame, in order, after the start. |
| Exceptions.CallStackIsTraceLines | node/src/java/org/jppf/utils/ExceptionUtils.java:54-64 | The call stack is the frame lines of every frame but the first, without the leading line break. |
| Exceptions.GetCallStack | node/src/java/org/jppf/utils/ExceptionUtils.java:54-64 | Frame 0 is skipped, and the other frames are printed after "  at " and separated by line breaks. |
| Exceptions.ToException | node/src/java/org/jppf/utils/ExceptionUtils.java:84-88 | The result is always an exception. It is the argument itself exactly when that is already an exception; otherwise it is a new Exception with the argument as cause. |
| Exceptions.ToRuntimeException | node/src/java/org/jppf/utils/ExceptionUtils.java:109-113 | The result is always a runtime exception. It is the argument itself exactly when that is already a runtime exception; otherwise it is a new RuntimeException with the argument as cause. |
| Exceptions.ConversionIdempotent | node/src/java/org/jppf/utils/ExceptionUtils.java:84-113 | Converting a converted throwable again changes nothing. |
| Exceptions.ToExceptionWithMessage | node/src/java/org/jppf/utils/ExceptionUtils.java:97-100 | A new Exception with the given message and the throwable as cause. |
| Exceptions.ToRuntimeExceptionWithMessage | node/src/java/org/jppf/utils/ExceptionUtils.java:122-125 | A new RuntimeException with the given message and the throwable as cause. |
| Exceptions.ToExceptionOfClass | node/src/java/org/jppf/utils/ExceptionUtils.java:137-146 | A null class gives null. A throwable assignable to the class is returned itself. Otherwise a new instance of the class around the throwable, of the class's own kind and assignable to exactly the class and its superclasses, or null when the class has no constructor taking a cause. |
| Exceptions.ConversionToClassIdempotent | node/src/java/org/jppf/utils/ExceptionUtils.java:137-146 | Converting a successfully converted throwable to the same class again returns it unchanged. |
| Exceptions.ConvertedRuntimeKept | node/src/java/org/jppf/utils/ExceptionUtils.java:109-146 | A new instance of a runtime exception class is already a runtime exception, so `toRuntimeException` returns it unchanged. |

## Left out

- SendTasks: `sendTasks` sets the serialization exception on the job's own task object; `Unserializable` returns copies of those tasks carrying it, so the update in place and its aliasing are not modelled.
- HandleProviderError: the resources shared with node contexts are marked errored in place; the model returns errored copies, so that sharing is not modelled.
- Markup, CSS, the license text and the prose of the pages are not modelled; only the class strings, links and news lines are.
- The database calls and the date formatting of `index.php` are inputs: the query answer is a `QueryResult` value and each row carries its formatted date.
- `db_settings.php` is not part of this model; the connection it configures is part of the query input.
- The `doc-source` template pages are not modelled, because the template expander is not part of this model.
- Threads, locks, `synchronized` blocks and atomics are read as sequential state, so interleavings are not modelled.
- The main loops of the node and the driver, `JPPFDriver.run`, `main` and `shutdown`, and the heartbeat machinery are thread and socket plumbing, so they are not modelled.
- The driver's timers are replaced by the delay they would be scheduled with; `NodeRefreshHandler`'s timer is a flag.
- `NodeRefreshHandler.refreshCount` is never read in the source, so it is not modelled.
- The Swing status-bar counters, tree repaints and tree expansion in `NodeDataPanelManager`, and `refreshNodeStates` and the repaint in `NodeRefreshHandler`, are UI effects; only the index and set logic is modelled.
- The driver names shown by the console come from the model's tree, because `NodeDataPanel.getAllDriverNames` is not part of this model.
- A node's JMX identifier is taken to be its "host:port" name, because the topology classes are not part of this model.
- `CollectionMap` is not part of this model: it is assumed to drop a key whose last value is removed, and to give an empty list for an unknown uuid.
- `AbstractCLIArguments` is not part of this model; `PositionalArguments` is modelled with the argument definitions and the parsed values it keeps.
- `StreamConstants.TEMP_BUFFER_SIZE` is not part of this model; the chunk cap of `ChannelOutputDestination` is a positive parameter.
- `ChannelOutputDestination.close` does nothing in the source, so its method has no contract.
- The channel's answers to successive writes are an input sequence; the socket itself is not modelled.
- `ProcessWrapper`'s reader threads are not modelled; the stream is a sequence of characters. Characters still buffered when the stream ends are dropped, as the source drops them; `ProcessWrapping.RunMeaning` states this.
- `SecureRandom` and `UUID.randomUUID` are inputs: the random index is a draw function, and the random UUID's text is a given string.
- `Uuids.ToUpper` covers ASCII letters only, which are the only letters a random UUID's text contains.
- The containment of one code set in another is not stated.
- Java's `compareTo` on UTF-16 code units is modelled on characters.
- The `Formatter` exception raised for a zero padding width is the single outcome `FormatError`.
- The `ResourceBundle` parent chain and locale fallback are not modelled; the bundles are a map from a base name and a locale to key-value maps.
- The stack frames of a newly created exception are not modelled, only its class, message and cause.
- Reflective construction in `ExceptionUtils.toException` is modelled by the `hasCauseConstructor` flag of the target class; the class's kind and superclasses are given with it, because class hierarchies are not part of this model.
- State transitions requested from the transition managers are only recorded, because the managers are not part of this model.
- `ClientClassContext.sendNodeResponse`, with its wait loop, and `handleException` are concurrency and I/O plumbing, so they are not modelled.
- The catch path of `WaitingResultsState.process` (the `DRIVER_PROCESSING_ERROR` branch), the statistics updates and the bundler timing updates are not modelled.
- What the node channel hands its dispatch (`nodeBundle.resultsReceived(data)` or `(throwable)`) is recorded as a delivery; its effect on the job is modelled by `ServerJob.ResultsReceived` and `ResultsFailed` separately. The cancellation of the dispatch's expiration action at `WaitingResultsState.java:81` is not modelled, because the expiration handler is not part of this model.
- In `ServerJob.taskCompleted`, the broadcast branch builds a list that is never used, so the model does not build it.
- The `FROM_PERSISTENCE`/`COMPLETE` check of `ServerJob.postResultsReceived` and the executor submission of `bundleEnded` are not modelled.
- `cancelDispatch`'s cancelling of futures and `getNodeJobInformation` are not modelled, because they depend on classes outside this model.
- CancelJob: the `resultsReceived(null)` that `cancelDispatch` triggers on each dispatch (`ServerJob.java:281`) is recorded as one `DispatchesCancelled` event; what that call does to the dispatched tasks and the job's status is not modelled, because `ServerTaskBundleNode` is not part of this model.
- ResultsReceived: requires a dispatch. With a null bundle the source throws at `ServerJob.java:115` for a live job, and at line 188 for an expired or cancelled job that holds tasks; every caller in the source passes a dispatch.
- `ServerTaskBundleClient` is not part of this model: its `resultReceived(tasks)` is taken to lower the bundle's pending count by the number of tasks received, and client bundles are identified by id.
- `initLocalChannel`, `postAccept`, `createNioContext`, `connectionFailed` and the other selector plumbing of the NIO servers are not modelled.
- `AbstractJPPFClientConnection.sendTasks` writes no length prefixes, because the `writeInt` call is commented out; the model's copy position is therefore the sum of the data lengths only.
- The interceptor list cannot change once it is loaded, because the model keeps it as an immutable sequence.
- `LifeCycleEventHandler.loadListeners` treats a listener whose loading raises an `Error` as absent.
- `JPPFClient.awaitConnectionPools`, JMX and RMI, cryptography, scripting, the .NET bridge, and the tests and demos are not modelled.
- Which methods a `BaseJPPFClientConnection` delegates through `makeHelper`'s class lookup is not modelled.
- The requests of a node to shut down (`requestShutdown`, `cancelShutdownRequest`) are modelled by a small `Node` class, because `JPPFNode` is not part of this model.
- UpdateConfiguration: a restart without an interrupt flag uses the corrected rule `RestartRequest` (it interrupts). As written, `JPPFNodeAdmin.java:241` saves the configuration and then fails with a null pointer; `RestartRequestAsWritten` models that.

## Findings

| source | as written | input that shows it | evidently intended | confidence | as-written member | corrected member |
|---|---|---|---|---|---|---|
| common/src/java/org/jppf/node/policy/ExecutionPolicy.java:463-465 | `tagEnd` writes `<name>`, an opening tag. | Any policy printed as XML, for example an `AndRule`: its element is closed by a second opening tag. | `tagEnd` writes the closing tag `</name>`. | not executed | ExecutionPolicies.TagEndAsWrittenIsStartTag | ExecutionPolicies.TagEndCloses |
| server/src/java/org/jppf/server/protocol/ServerJob.java:114-115 | The guard in `resultsReceived` calls `bundle.isExpired()`, although the line before allows a null bundle. | A null bundle, with a job that is neither expired nor cancelled: the guard throws a NullPointerException. | With a null bundle, the guard discards results only when the job is expired or cancelled. | not executed | ServerJobs.NullBundleFails | ServerJobs.DiscardGuardAgrees |
| server/src/java/org/jppf/management/JPPFNodeAdmin.java:241 | `updateConfiguration` passes the `Boolean` interruptIfRunning to `shutdownOrRestart(boolean, boolean)`, which unboxes it. | `updateConfiguration(map, true, null)`: the restart fails on unboxing null. | A null interruptIfRunning counts as true, as `restart(Boolean)` reads it (lines 125 and 145). | not executed | NodeAdmin.NullInterruptFails | NodeAdmin.RestartRequestAgrees |
| common/src/java/org/jppf/comm/interceptor/InterceptorHandler.java:85-87 | `hasInterceptor` returns `!HAS_INTERCEPTOR`. | One interceptor loaded: `hasInterceptor()` answers false. | `hasInterceptor` answers true exactly when an interceptor was loaded. | not executed | Interceptors.HasInterceptorInverted | Interceptors.HasInterceptorAgrees |
