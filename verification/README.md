# Alborz, verified

Alborz is a webmail server. This project models its small protocols around shared state, its caches and its pairs of
printer and parser, and proves what they promise. Each file is one component:

| file | component |
|---|---|
| `ImapQueue.dfy` | the lock on an account's IMAP connection: hand-off, two priorities, a bound, cancellation that races the hand-off |
| `SendClaim.dfy` | the claim on a submission that makes a retry send at most once |
| `ListingViews.dfy`, `ListingCache.dfy`, `ListingRuns.dfy` | the names of listed views, the listing cache as it is written, and every interleaving of its readers and writers |
| `SieveText.dfy`, `SieveRules.dfy`, `SieveForwarding.dfy`, `SieveWiring.dfy` | composed Sieve scripts: strings, rules, forwarding, and the wiring of the main script |
| `Sieve.dfy`, `SieveMeaning.dfy` | Sieve itself, read and run as a server does it (RFC 5228, RFC 3894 and RFC 5232), and what the composed scripts do to a message |
| `Flowed.dfy`, `FlowedLines.dfy` | format=flowed text (sections 4.1 to 4.5 of RFC 3676), and its lines by their characters alone |
| `Pages.dfy`, `Sorting.dfy`, `MergedPages.dfy` | pages of several accounts merged from windows |
| `Places.dfy` | where a message stands in its view |
| `BodyCache.dfy` | bodies fetched ahead of the click |
| `Refusals.dfy` | the limiter of refused sign-ins |
| `SearchTokens.dfy`, `SearchQuery.dfy` | the search box's tokenizer and query |
| `Timing.dfy` | the time spent in spans that overlap |
| `Lines.dfy`, `Basics.dfy` | text as lines and words; what several components share |

A component that changes things in place is a class (or a method with loops) proved against functions and relations on
values; the theorems are about those, over every run of a transition system whose steps are the sections under the
mutex. Time is a parameter of each step. A loop over a map takes its keys in any order. What the servers answer is left
to the event: an SMTP session, a ManageSieve connection or a fetch may fail anywhere.

## What was found

Six promises do not hold of the code as broadly as it makes them. The code is modelled as it is, each failure is a
lemma with a concrete run or input, and each promise is proved if and only if a condition holds.

- **A query with a phrase that holds a colon.** `foo "a:b"` is read as the key `foo "a` with the value `b"`: the
  tokenizer keeps the run together, and `Parse` then cuts it at the first colon (search/query.go:27-33).
  `SearchQuery.ColonInPhrase` is the input; `SearchQuery.QueryRoundTrip` shows that a canonical query comes back if and
  only if no run of keyless terms that starts with something other than a phrase holds a phrase with a colon.
- **A forwarding that is empty.** A `Forwarding` without addresses and without keeping a copy is written as the empty
  script and read back as one that keeps a copy. `SieveForwarding.ForwardingRoundTrip` is an if and only if.
- **A release that comes late.** A failed submission deletes its record before it leaves the set of active ones
  (mail/send.go:77, 87; mail/send_claim.go:70, 77). An attempt that outlives the keeping time can then delete the record
  of a later one: `SendClaim.LateReleaseSendsTwice` is a run in which one message is accepted twice.
  `SendClaim.AtMostOnceExactly` shows that exactly the runs keep the guarantee in which no release comes while another
  claim of the message is young and may still be taken; prompt releases, and releases that end their attempt in one
  step, are such.
- **A clock read before the lock.** `attempt` reads the clock before `reserve` takes the lock (accounts.go:142-143), so
  a reading can come to the lock after a later one, and then one try too many fits into the window
  (`Refusals.LateReadingPasses`). `Refusals.WindowExactly` shows that the bound reaches exactly as far as the window
  less that skew; without skew it is the whole window.
- **A line that is the word From.** A line sent must not start with `From ` (section 4.4 of RFC 3676), and the writer
  stuffs those that do (mail/smtp.go:34-40). It looks at a line before the space that marks a soft break is put behind
  it, so `From` before a word of 68 octets or more goes out as the line `From ` (`FlowedLines.FromAlone`).
  `FlowedLines.FromExactly` shows that a line is sent unstuffed if and only if an unquoted over-long line is broken
  behind a piece that is that word alone.
- **A merged view told of another folder's change.** Every change of an account makes its merged views load again
  (mail/cache.go:710-713). One that is searched, filtered or sorted is then cut from an order keyed by the concrete
  folder, which another folder's change left in place (mail/listing.go:438-452; `ListingRuns.OlderPageIsGiven`), and the
  merged inbox may hold a copy of an inbox page that is as old (mail/watch.go:277-282; `ListingRuns.CopiedPageIsGiven`).
  `ListingRuns.SeesExactly` shows that exactly the changes of the page's own folder are always seen, and in all other
  merged views every folder's.

## Model

| member | source | states |
|---|---|---|
| ImapQueue.ImapQueue.Enter | imap_queue.go:26-49 | entry under the lock: refused exactly when already cancelled, owner exactly when the connection is idle, full exactly when it is busy, a `done` channel is given and 64 wait; otherwise last in the queue, with the call's own priority and `done` |
| ImapQueue.ImapQueue.Withdraw | imap_queue.go:59-70 | a cancelled waiter leaves the queue, or learns that it was granted and must release |
| ImapQueue.ImapQueue.Release | imap_queue.go:73-90 | the search loop hands the connection to the chosen waiter, or makes it idle |
| ImapQueue.StepKeepsSafe | imap_queue.go:26-90 | every step of every process keeps: one owner exactly when busy, no waiter behind an idle connection, arrivals in order, every pending call queued or granted and not both, at most 64 waiters with `done` |
| ImapQueue.RunsAreSafe | imap_queue.go:26-90 | the same over every run |
| ImapQueue.QueueSafety | imap_queue.go:19-90 | from an idle queue: busy exactly when one process owns the connection (running, granted, or cancelled after the grant), no grant lost or doubled, the bound of 64 |
| ImapQueue.ReleaseGrants | imap_queue.go:80-89 | a release wakes exactly one waiter, the first of its class, a background one only when no foreground one waits; the others keep their order |
| ImapQueue.RankFalls | imap_queue.go:73-90 | no step puts anyone ahead of a waiter, and each release takes exactly one from the foreground waiters ahead of every foreground waiter left |
| ImapQueue.BoundedWaiting | imap_queue.go:73-90 | a foreground waiter with n foreground waiters ahead is out of the queue after n + 1 releases, whatever else happens |
| ImapQueue.FirstInFirstOut | imap_queue.go:48-89 | over every run, while the earlier of two waiters of one class waits, the later one has not been woken |
| ImapQueue.CallsKeepOrder | imap_queue.go:26-90 | after every run each pending call stands in the queue with the two flags it was made with, and the queue is in the order of the calls |
| ImapQueue.ReleaseByCalls | imap_queue.go:43-89 | by the calls made, over every run: whoever a release wakes owns the connection, everybody else still queues, no call queued in the background is woken while one in the foreground queues, and of its class the earliest call is |
| ImapQueue.ReleaseHandsOn | imap_queue.go:73-90 | a release with a call queued wakes one |
| ImapQueue.BoundedWaitingOfCalls | imap_queue.go:26-90 | by the calls made: a foreground call with n foreground calls queued before it no longer queues after n + 1 releases |
| SendClaim.SendMessage | mail/smtp.go:569-613 | success means the server answered DATA with success; after a failure `dataStarted` holds exactly when DATA was begun and no 4xx or 5xx reply ended it |
| SendClaim.Deliver | mail/smtp.go:529-566 | delivered if and only if DATA was begun, copied and answered with success, whatever QUIT does; failed if and only if DATA was never begun or its end was answered 4xx or 5xx; uncertain in what is left. With a server true to its replies, delivered means it has the message and failed that it has not |
| SendClaim.ToldIsTrue | mail/smtp.go:549-565 | the same of the outcome as a function of the session, as the runs use it |
| SendClaim.ToldByReplies | mail/smtp.go:529-613 | the same two equivalences on the replies of a session, for the outcome the runs use |
| SendClaim.SendClaims.ClaimSend | mail/send_claim.go:22-57 | the claim under the lock: records of inactive claims older than ten minutes go, a kept record answers with its stage, otherwise a fresh claim is stored and made active; a failed write changes nothing |
| SendClaim.SendClaims.FinishSend | mail/send_claim.go:59-72 | the record is replaced or deleted, or left when the write fails |
| SendClaim.SendClaims.EndSend | mail/send_claim.go:74-79 | the claim is no longer active |
| SendClaim.SendClaims.Submit | mail/send.go:45-149 | a submission run alone, its results and the stage left in the record by the replies of the session: bad recipients end it before the claim, an accepted message leaves its record complete, partial or accepted by what followed, one that certainly failed gives it back if the store lets it, an uncertain one keeps it claimed; and what it does to the claims is a run of the system |
| SendClaim.TryKeepsSafe | mail/send_claim.go:30-56 | a claim is fresh only where no younger one of the message counts |
| SendClaim.AtMostOnce | mail/send_claim.go:17-79 | over all runs with retries, crashes, lost writes and SMTP sessions that fail anywhere, two acceptances of one message come from claims at least the keeping time apart, if each release comes when no other claim of the message is young and may still be taken |
| SendClaim.AtMostOnceExactly | mail/send_claim.go:17-79 | a run has that guarantee, now and however any part of it goes on without further releases, if and only if its releases are so |
| SendClaim.PromptOrWholeIsOnce | mail/send.go:66-91 | runs whose releases come within the keeping time of their claims, or end their attempts in one step, are such runs |
| SendClaim.ReleasedNeverTakes | mail/send.go:82-91 | a claim is given back only when the server has not taken the message and never will, since the attempt began no delivery or was told of a certain failure |
| SendClaim.StepKeepsDated | mail/send.go:45-96 | every step keeps what the attempts say of themselves true of their sessions |
| SendClaim.RetryIsRefused | mail/send_claim.go:45-51 | until the claim of an accepted message may expire, a retry is answered from the record |
| SendClaim.ReleaseSafeExactly | mail/send.go:77-90 | a release keeps the invariant if and only if no other claim of the message is both young and one whose message the server may take |
| SendClaim.UnsafeReleaseSendsTwice | mail/send.go:77-90 | after a release that is not so, the next retry can make the server take the message twice, with no further release |
| SendClaim.LateReleaseSendsTwice | mail/send.go:66-91 | a concrete run with a late release that sends twice |
| ListingViews.ViewsShowTheirFolder | mail/cache.go:711-713 | every view name built for a folder, its orders and its pages is one that folder's changes reach |
| ListingViews.NameTells | mail/listing.go:314-318 | a view's name gives back its folder or role and what is asked (search, filter, sort and conversation), and its pages are cut from an order exactly when a search, a filter or a sort other than by account is asked |
| ListingViews.OrderIsOfFolder | mail/listing.go:412-455 | by the branches of the fetch, pages are cut from an order exactly where search, filter or sort ask for one (one conversation apart), and that order is the folder's |
| ListingCache.WordsWithout | mail/cache.go:136-138 | the sum of the held words does not depend on the order it is taken in |
| ListingCache.ListingCache.Lookup | mail/cache.go:385-400 | a page of another size is a miss; a page is changed, stale or fresh, and fresh exactly within thirty seconds of its fetch; only its use moves |
| ListingCache.ListingCache.HeldOrder | mail/cache.go:195-204 | an order not used for too long is not given; only its use moves |
| ListingCache.ListingCache.DropOrders | mail/cache.go:207-214 | the orders in scope are gone and the counted words went with them |
| ListingCache.ListingCache.StaleFolder | mail/cache.go:658-668 | the generation moves by one; exactly the user's orders and pages under the folder's name, that name and a separator, or a merged view's mark go or are marked wrong; the rest stays |
| ListingCache.ListingCache.Drop | mail/cache.go:723-730 | the generation moves and what is in scope is gone; the side bars, which are marked stale, are not modelled |
| ListingCache.ListingCache.FlagFolder | mail/cache.go:529-558 | the generation moves by one, the folder's orders go; filtered and merged views go, the folder's own pages are due again, everything else stays; the rewritten flags and unseen counts are not modelled |
| ListingCache.ListingCache.StoreAt | mail/cache.go:440-470 | nothing under another generation; otherwise the page is held, the expired go, and the least recently used until the bound is met; the side bar kept with the page and the UIDVALIDITY told to the body cache are not modelled |
| ListingCache.ListingCache.HoldOrder | mail/cache.go:167-193 | nothing under another generation or when too large; otherwise held, counted, and down to three quarters of both bounds, least recently used first and no further than needed |
| ListingCache.ListingCache.EvictOrders | mail/cache.go:179-191 | the eviction loop ends within three quarters, oldest first, and its last victim was needed |
| ListingRuns.StepKeepsSafe | mail/cache.go:155-310 | every step of readers, flights, writers, refreshes and orders, pages cut from the view's own held order and the copy into the merged inbox included, keeps cache, flights and waiting readers coherent with what was told |
| ListingRuns.RunsAreSafe | mail/cache.go:155-310 | the same over every run |
| ListingRuns.ReadYourWrites | mail/cache.go:247-310 | a listing that `load` gives, also from another reader's flight, has the size asked for, shows no older state of the server than, and was read after, every stale, evict or evictAll before the call: of any folder whose change reaches the view, and flag writes that drop it, when the page was read for the view; of its folder when it was cut from the view's order held before, or copied; only views cut from orders have the former, only the merged inbox the latter |
| ListingRuns.TakenIsCurrent | mail/cache.go:159-161 | the order of the view taken from the cache to cut a page from is current for its folder, which is why changes and flag writes drop orders |
| ListingRuns.ReadYourWritesOfView | mail/cache.go:711-713 | in a view of a folder, and in a merged view that is neither cut from orders nor the merged inbox, that is every change that reaches the view |
| ListingRuns.SeesExactly | mail/listing.go:412-460 | a page has been read after a change told before the call, in every run, if and only if the change touches the page's folder, or the view is merged, not cut from an order, and not the merged inbox showing the inbox |
| ListingRuns.OlderPageIsGiven | mail/listing.go:438-452 | the run for a view cut from an order: its own order of the folder is held, another folder changes, and the page loaded after that is cut from that order |
| ListingRuns.StoredPageIsGiven | mail/cache.go:271-272 | the run for a view of one folder: its stored page stays fresh over another folder's change |
| ListingRuns.CopiedPageIsGiven | mail/watch.go:268-282 | the run for the merged inbox: the inbox's page stays fresh over another folder's change and is copied into the merged view when mail arrives |
| ListingRuns.CopyIsCurrent | mail/watch.go:277-282 | what is copied is current for the inbox's changes up to the call that gave it |
| ListingRuns.CachedIsCurrent | mail/cache.go:385-400 | a page held and not marked changed is current for every change told so far that it must have seen, as above, and a held order for every change that reaches it, flag writes too |
| ListingRuns.CachedIsYoung | mail/cache.go:269-275 | over every run, whatever a flight gives from the cache it found there at its look-up: a page of the size asked for, not known to be wrong, fetched no more than thirty seconds before |
| ListingRuns.LookUpAnswers | mail/cache.go:385-400 | the cache answers a flight if and only if it holds such a page |
| ListingRuns.RunsAreCounted | mail/cache.go:155-214 | in every reachable state the words counted are the words held; at most 512 pages, 16384 orders and 4194304 words are |
| ListingRuns.TakeoverHandshake | mail/cache.go:257-299 | the speculative fetch and a takeover never both reach the connection; a takeover that was set is run unless the cache answered |
| ListingRuns.FlightEnds | mail/cache.go:269-290 | a flight is over after at most five steps of its own, and its one result never changes after that |
| SieveText.QuotedRoundTrip | filters/composed.go:33-41 | a quoted string in front of anything is matched whole and unquotes to what was quoted (section 2.4.2 of RFC 5228) |
| SieveText.EscapedKeepsLine | filters/composed.go:33-35 | quoting neither makes nor hides a line break |
| SieveText.QuoteWrites | filters/composed.go:33-35 | quoting puts a backslash before each backslash and each quote, adds nothing else, and sets the whole between quotes |
| SieveRules.TestRoundTrip | filters/rules.go:40-50 | a test in front of anything is matched to its end, with its match, header and value; what kind of test it is, and means, is in `SieveMeaning` |
| SieveRules.TestsRoundTrip | filters/rules.go:136-175 | the tests found in a list of tests are those written, whatever their values hold |
| SieveRules.IfRoundTrip | filters/rules.go:153-162 | the line with the tests says again whether the rule is off, any or all, and its conditions |
| SieveRules.ActionsRoundTrip | filters/rules.go:176-195 | the action lines are read to the closing brace, each as written |
| SieveRules.BlockRoundTrip | filters/rules.go:143-197 | a rule's block in front of anything is read as that rule |
| SieveRules.RulesRoundTrip | filters/rules.go:98-201 | for all rules with known fields and matches and no line break, reading the script gives the same rules and ok |
| SieveRules.ScriptIsInjective | filters/rules.go:98-128 | two such lists never share a script |
| SieveRules.Block | filters/rules.go:60-96 | the block built action by action is the rule's block |
| SieveRules.RulesScriptFor | filters/rules.go:98-128 | the loops write exactly the script, whose meaning is `SieveMeaning.RulesScriptMeans` |
| SieveRules.NeedsExactly | filters/rules.go:102-119 | the extensions required are `fileinto` exactly when a rule files, `imap4flags` when one marks or stars, `copy` when one forwards, and no other, each once |
| SieveRules.ReadRules | filters/rules.go:141-201 | the index over lines reads exactly what the line grammar says |
| SieveForwarding.RedirectRoundTrip | filters/forwarding.go:24-41 | a redirect line, trimmed, is matched with its address and whether it keeps a copy |
| SieveForwarding.ForwardingRoundTrip | filters/forwarding.go:28-76 | for addresses without line breaks, reading the script gives the same forwarding and ok if and only if there is an address or a copy is kept |
| SieveForwarding.WriteScript | filters/forwarding.go:28-48 | the builder loop writes exactly the script |
| SieveForwarding.ReadForwarding | filters/forwarding.go:51-76 | the loop over lines with `off` and `Keep` reads exactly what the line grammar says |
| SieveMeaning.RulesScriptMeans | filters/rules.go:40-128 | the text of the script, lexed, parsed and run as Sieve on any message, does what the rules say: from, to and cc are asked of the addresses, subject and list of the header, a domain of the addresses' domains, any or all as the rule has it, a rule that is off never; flags are set before the copy is filed, copies are sent on, the inbox loses the message when it is filed or discarded, and a rule that applies and stops is the last; every extension used is required, and the server takes the script if and only if each rule has a condition |
| SieveMeaning.NeedsAreUses | filters/rules.go:102-122 | an extension is required if and only if some command of the script uses it |
| SieveMeaning.TestLexes | filters/rules.go:40-50 | a condition is written as the test it stands for: `header` for subject and list, `address` otherwise, `address :domain :is` for a domain |
| SieveMeaning.ForwardingScriptMeans | filters/forwarding.go:28-48 | the text of the forwarding's script, run on any message, sends it to every address that is on, in order, and keeps the inbox's copy exactly when that is asked for or nobody is sent to |
| SieveWiring.MainRoundTrip | filters/composed.go:54-100 | a main script gives back the reader's script and is recognised as written here |
| SieveWiring.MainTextIs | filters/composed.go:54-65 | the main script is the heading, the `require` line, an include line for each of `alborz-rules`, `alborz-forward` and `alborz-vacation` that is there, in that order, and the reader's own script last |
| SieveWiring.ByUsReads | filters/composed.go:67-100 | a script is recognised as written here only if it is such a text, and every such text is recognised with the reader's script in it |
| SieveWiring.SieveClient.CheckMainScript | filters/composed.go:79-100 | accepted only, and with two calls left always, when the main script is absent or written here |
| SieveWiring.SieveClient.Wire | filters/composed.go:103-153 | what is done is a prefix of the wiring's calls, all of them on success, however the connection drops, and then the three names, their lines and the main script are as in the wiring theorem; a success when the connection holds and the server takes the calls |
| SieveWiring.SieveClient.Rewrite | filters/composed.go:207-234 | what is left is the server after some cut of the rewrite, the whole of it on success; a success when the connection holds, the script is as it was loaded and the server takes the calls, which the wiring theorem says it does |
| SieveWiring.WireSound | filters/composed.go:103-153 | every call of the wiring is one the server takes and keeps the reader's script active or remembered |
| SieveWiring.RewriteSound | filters/composed.go:207-234 | the same for the whole rewrite, which ends wired |
| SieveWiring.CutsKeep | filters/composed.go:207-234 | after any rewrites cut short at any call the reader's script is active or remembered and none of the reader's scripts changed |
| SieveWiring.WiringTheorem | filters/composed.go:102-234 | after any rewrites cut short, the next one of a script loaded as it stands is not refused, all its calls are taken, and it leaves the main script there and active if and only if one of the three names is on the server, its text including each of them if and only if it is there, in the order rules, forward, vacation, and the reader's script last; with none left, the reader's script active as found |
| Flowed.LineWidth | mail/smtp.go:41-77 | each line written for a typed line is at most 74 octets, unless it is indented or one word too long by itself |
| Flowed.WidthTheorem | mail/smtp.go:27-79 | for any text, every line of the wrapped text is so |
| Flowed.FlowedRoundTrip | mail/smtp.go:31-105 | unflowing wrapped text gives back every line, trailing spaces trimmed but on `-- ` and in quotes, for every text whose lines each give themselves and none of which stays open into the next; quoted lines and CRLF included |
| Flowed.LineExactly | mail/smtp.go:41-105 | a line gives itself in its normal form if and only if it is left alone or its pieces join again and lose no space, and leaves nothing open if and only if it is besides no quote ending in a soft space and its last piece is hard |
| Flowed.CarriesIsCarried | mail/smtp.go:41-77 | over-long lines that are single-spaced and hold no word that is `--` or, unquoted, starts with `>` are such lines |
| Flowed.PiecesFlow | mail/smtp.go:62-105 | the pieces of a filled line are read as one paragraph if and only if none but the last is `--`, no later one reads as the signature mark or, unquoted, as a quote |
| Flowed.TextExactly | mail/smtp.go:31-105 | every part of a text up to a line comes back if and only if each of its lines gives itself and none that stays open is continued by the next |
| Flowed.CarriedText | mail/smtp.go:31-105 | lines that come back closed one by one make such a text |
| Flowed.OneMoreLine | mail/smtp.go:85-103 | behind anything read, some lines give exactly one line more if and only if they do not continue it and are one paragraph |
| Flowed.WrapIsGreedy | mail/smtp.go:62-76 | no wrapped line ends before it has to: the first word of the next would have made it longer than 72 |
| Flowed.UnflowedIsParagraphs | mail/smtp.go:81-105 | for any text, with either DelSp, unflowing is reading by paragraphs: soft-broken lines of one quote depth join, but not onto a signature mark, and no others do; each paragraph is opened once at its depth |
| Flowed.WriteFilled | mail/smtp.go:62-76 | the loop over words with its running line writes the greedy filling |
| Flowed.WriteLine | mail/smtp.go:41-77 | trimming, leaving alone, quoting and filling one line |
| Flowed.WrapText | mail/smtp.go:31-79 | the builder loop writes exactly the wrapped text |
| Flowed.Unflow | mail/smtp.go:82-105 | the loop with `out`, `soft` and `depth` gives exactly the unflowed text, with either DelSp |
| FlowedLines.ShortLinesStay | mail/smtp.go:34-56 | a line of at most 72 octets, or an indented one, is sent as typed, behind one space if it starts with a space or `From ` |
| FlowedLines.NormalIs | mail/smtp.go:42-62 | what a line comes back as: itself less its end and the spaces behind it, but for the signature mark; a quote with one space behind its markers |
| FlowedLines.FromExactly | mail/smtp.go:34-76 | a line that starts with `From ` is written if and only if an unquoted over-long line is broken behind a piece that is `From` |
| FlowedLines.FromAlone | mail/smtp.go:34-76 | the word before any word of 68 octets or more is written so |
| FlowedLines.SoftLineJoins | mail/smtp.go:82-105 | a soft line and the next are one line if and only if they are quoted alike, with the space between them or, under DelSp, without it |
| Pages.WithinIsNearest | profile.go:76-79 | a page with rows is itself, one past the end is the last with rows, page zero of an empty list |
| Pages.PagesPartition | profile.go:82-85 | each row lies on exactly one page, that of its index divided by the size |
| Sorting.StableSortSorts | mail/listing.go:179-179 | the sort is ordered, a permutation, and keeps equal rows in their order |
| MergedPages.RowAround | mail/listing.go:161-179 | without one row the stable sort of the rest is unchanged, and every earlier row that may precede it does |
| MergedPages.TailDoesNotShow | mail/listing.go:129-134 | an account's rows behind its first n do not reach the first n of the merge |
| MergedPages.PageIsExact | mail/listing.go:129-181 | for any total preorder, the page cut from merged windows that reach its end is the page of all rows sorted stably, ties included: as many rows as the size or the rest allows, row k being row number * size + k of the sort, where the number is the one asked or, past the end, the last with rows |
| MergedPages.PagesMakeAll | mail/listing.go:129-134 | such pages, one behind the other, are the list |
| MergedPages.PageIsOne | mail/listing.go:129-134 | a list and a page asked for have one such page |
| MergedPages.GatheredPageIsExact | mail/listing.go:137-181 | the same for what the accounts answered, with the summed totals |
| MergedPages.HeldPageIsExact | mail/listing.go:39-71 | the same for the windows `held` asks for, whatever each account already holds |
| MergedPages.Held | mail/listing.go:65-71 | the doubling loop: at least to the page's end, which is (number + 1) * size, and what is held, and less than twice the need when nothing larger is held |
| MergedPages.WalkFetchesRarely | mail/listing.go:64-71 | a walk through n pages fetches a logarithmic number of times |
| MergedPages.Absorb | mail/cache.go:364-369 | rows in the accounts' order and the sum of their totals |
| MergedPages.Gather | mail/listing.go:137-181 | merged if and only if no account failed for another reason and one answered; the silent ones are named; otherwise which error is returned |
| Places.CountedIsListed | mail/imap.go:1589-1624 | for every folder and UID the place counted from three searches, where `n:*` always holds the highest UID (section 6.4.9 of RFC 9051), is the place in the reversed list |
| Places.CountedPlace | mail/imap.go:1589-1624 | counted, the newer message is the one with the next higher UID, the older the next lower, the position counts those above; a UID not in the folder has no place |
| Places.AboveCounts | mail/imap.go:1594-1596 | above the highest message the search answers with that message, also when the next UID wraps to zero |
| Places.PlaceAt | mail/imap.go:1559-1572 | in a list without repeats the place of a row is its index from one, the rows before and behind it, zero where there is none, and the count |
| Places.CachedIsWhole | mail/cache.go:606-636 | the place found from a cached page and its adjoining pages is the place in the whole order, and it is found exactly when the message is on the page and a neighbour beyond its border is on a page that adjoins |
| Places.ReverseInPlace | mail/imap.go:1580-1585 | the reversal in place |
| Places.FolderNeighbours | mail/imap.go:1576-1587 | with or without a server that counts, the place in the folder newest first |
| BodyCache.ChangedFlags | mail/bodies.go:240-254 | the flags after a set, a delete and an add, as sets |
| BodyCache.BodyCache.Claim | mail/bodies.go:59-71 | a new token unless the body is held or being fetched, or nothing is kept |
| BodyCache.BodyCache.Put | mail/bodies.go:73-108 | nothing unless the token is the one that claims the key under the UIDVALIDITY in force; otherwise held, the expired dropped and the rest thinned |
| BodyCache.BodyCache.Expire | mail/bodies.go:83-93 | the loop that drops what was not used for too long and counts the rest |
| BodyCache.BodyCache.Evict | mail/bodies.go:94-107 | the eviction loop ends with at most 100 for the user and 64 MiB in all, oldest first, and its last victim was needed |
| BodyCache.BodyCache.Flags | mail/bodies.go:133-148 | claims on the UIDs are withdrawn and held bodies take the new flags |
| BodyCache.BodyCache.Discard | mail/bodies.go:118-123 | bodies, claims and marks of the UIDs, or of the whole mailbox, are gone |
| BodyCache.BodyCache.Forget | mail/bodies.go:125-130 | everything of the user is gone, the observed validities too |
| BodyCache.BodyCache.Observe | mail/bodies.go:256-268 | another UIDVALIDITY replaces the one in force and drops what was held under others |
| BodyCache.BodyCache.Lookup | mail/bodies.go:270-284 | given exactly when a body is held under the validity in force, was used not too long ago and is of the part asked for, if one is; its use moves, and one unused for too long goes |
| BodyCache.ValidityIsLastObserved | mail/bodies.go:256-268 | over every run the validity in force is the one last observed since the user was last forgotten |
| BodyCache.RunsAreBounded | mail/bodies.go:59-148 | in every reachable state each body is keyed by the UIDVALIDITY last observed for its mailbox, each user holds at most 100 and all together at most 64 MiB |
| BodyCache.StepKeepsToken | mail/bodies.go:59-148 | no step gives a token a second key or brings a spent one back; a flag write, discard or forget spends it |
| BodyCache.WithdrawnNeverInstalls | mail/bodies.go:59-148 | a prefetch claimed before a flag write, discard or forget of its UID installs nothing afterwards |
| BodyCache.HeldIsAsPut | mail/bodies.go:59-148 | in every reachable state a body held was put for its key by a claim that then stood, nothing has discarded, forgotten or superseded it since, and its flags are those it came with as every later flag write of its UID left them |
| BodyCache.FinishGivesUp | mail/bodies.go:186-190 | a prefetch that ends gives up the claims it still has and no other's |
| Refusals.Refusals.RecentOf | accounts.go:81-89 | the loop keeps exactly the stamps within the window, in order |
| Refusals.Refusals.Sweep | accounts.go:91-103 | keys without a recent stamp go, and the earliest expiry of the others is noted |
| Refusals.Refusals.Reserve | accounts.go:106-123 | refused by its count, or by a full map before or after a sweep, otherwise noted |
| Refusals.Refusals.Release | accounts.go:125-139 | one stamp of that time is taken back, the key too when it was the last |
| Refusals.Refusals.Attempt | accounts.go:141-151 | a try that the mail server does not refuse leaves no stamp of its own |
| Refusals.SlidingWindow | accounts.go:66-151 | in every run a key has at most `tries` unreleased reservations in any half-open interval of length `window` less the skew of readings at the lock, and at most 4096 keys are held |
| Refusals.WindowExactly | accounts.go:66-151 | for all tries, windows and skews, every run keeps to `tries` in every interval of a length if and only if the length is at most the window less the skew |
| Refusals.RefusedExactly | accounts.go:106-123 | readings in order: a try is refused for its count exactly when that many unreleased reservations of its key are within the window; any other refusal is a full map |
| Refusals.PauseHolds | accounts.go:110-112 | a pause given for a key's count lies ahead and refuses that key until its time, unless one of its tries is released |
| Refusals.PauseExactly | accounts.go:106-123 | readings in order: the time a count refusal names is the first at which the tries noted so far let another one pass |
| Refusals.RefusedIsInFuture | accounts.go:110-120 | every refusal names a time still to come |
| Refusals.NotedUnlessRefused | accounts.go:106-123 | a try is in the map afterwards exactly when it was not refused |
| Refusals.LateReadingPasses | accounts.go:141-143 | for all tries, windows and skews, a run in which a reading late by the skew lets one try too many into an interval one longer |
| SearchTokens.NextToken | search/query.go:126-174 | a token is never empty and advances; without one at the end of the input all of it is consumed |
| SearchTokens.SplitStable | search/query.go:126-174 | a token found in a part of the input is the token of every longer input |
| SearchTokens.FindTermStable | search/query.go:136-147 | the first word with a key, once found, stays where it is |
| SearchTokens.BufferingDoesNotMatter | search/query.go:126-198 | for every query and every way its bytes arrive, the tokens are those of the whole string |
| SearchTokens.TokensKeep | search/query.go:126-198 | for every query the tokens hold all that was typed but spaces and quotes, in its order |
| SearchTokens.FindTermIn | search/query.go:136-147 | the loop over words finds the first one with a key |
| SearchTokens.SplitSearchTokens | search/query.go:126-174 | the split function as written |
| SearchQuery.BareTerms | search/query.go:43-67 | the loop with its gathered words reads a run's terms |
| SearchQuery.Parse | search/query.go:22-41 | the loop over tokens reads the query |
| SearchQuery.QueryString | search/query.go:92-98 | the loop over terms writes the query |
| SearchQuery.KeyedToken | search/query.go:157-173 | a key with its value, quoted where it holds a space, is one token with the quotes taken off |
| SearchQuery.RunToken | search/query.go:136-155 | keyless terms up to the next key or the end are one token |
| SearchQuery.RunReadBack | search/query.go:43-67 | the words of a canonical run fold back into its terms |
| SearchQuery.QueryRoundTrip | search/query.go:22-123 | a canonical query written and read comes back if and only if no phrase with a colon stands in a run that starts with something else |
| SearchQuery.UnreadableRun | search/query.go:27-38 | such a run comes back as one term with a key nobody wrote |
| SearchQuery.ColonInPhrase | search/query.go:27-38 | a word and a phrase with a colon: a canonical query that does not come back |
| SearchQuery.NothingIsLost | search/query.go:22-123 | for everything that can be typed, the query read from it, written again, is what was typed but for spaces, quotes and the case of letters |
| SearchQuery.TypedKey | search/query.go:22-41 | a key and its value as typed: the key in lower case, the value as it is, negated by a dash; without a value, or with nothing before the colon, the whole is a word |
| Timing.Sweep | timing.go:84-96 | over spans in the order of their starts, however equal starts are placed, the sweep counts the instants covered |
| Timing.MergedDuration | timing.go:80-97 | sorted and swept, the spans give the number of instants at least one of them covers |

## Left out

- `keys.go`, `secret.go`, `records.go`, `push.go` and the key-value store: in the send claim the store is an abstract map whose writes happen whole or not at all, and sealing is the identity.
- SendClaim.AtMostOnce: claims are measured from the time read before the lock of the earlier to the time the later holds it; what follows acceptance in `Submit` (marking, filing, dropping the draft) enters as outcomes; a session is one the server's replies tell the truth of.
- ListingRuns.ReadYourWrites: `fill`, `setFlags` and `markSeen` change rows outside the generation and would need a weaker statement; `reorder`, `refresh` and the copy into the merged inbox are steps of the runs; whether the server threads, and the day a search is asked on, may differ from fetch to fetch; the rows of a page are as old as the order it is cut from, though their flags may be newer; that a fetch brings a page of the size its caller asked for is a hypothesis on it; a cache that keeps nothing passes every call to the server and is not modelled.
- ListingCache.ListingCache.FlagFolder: which rows take which flags, and the unseen counts of the side bar, are not in the model; a page's rows are one value with the time they were read.
- ListingCache.ListingCache.StoreAt: the side bar kept with the page and the call of `bodies.observe` are not in the model.
- ListingCache.ListingCache.Drop: that the side bars are marked stale is not in the model.
- ListingRuns.FlightEnds: that a flight's next step happens at all rests on timeouts and the scheduler; a reader whose own context ends early is simply no longer waiting.
- Counters are unbounded: the 64-bit generation of the listing cache and the token counter of the body cache do not wrap.
- SieveRules.ReadRules: the branch that accepts scripts filed by older versions (filters/rules.go:202-214) is not modelled.
- SieveWiring.SieveClient.Rewrite: the fingerprint is the content itself, and the change of a component is its new text; edits made elsewhere between the calls of one rewrite are not modelled. `filters/vacation.go` is not modelled; its script is any text.
- SieveMeaning.RulesScriptMeans: headers and the addresses in them are given with the message; texts are compared without regard to ASCII case, as a server does by default; a rule's field and match are among those the page offers.
- Flowed.FlowedRoundTrip: a character is one octet, and a line holds no carriage return but in its line end; DelSp is modelled in `Unflow` but the round trip is for text written without it, as the writer writes it.
- MergedPages.PageIsExact: the order is a parameter, and that each account's rows come sorted by it is a hypothesis; the concrete columns of `unifiedLess` are not modelled, nor the second fetch that completes a page's rows.
- MergedPages.Gather: needs at least one account; the code would index an empty list of errors without one.
- Sorting.StableSortSorts: stands for the library's stable sort, specified by order, permutation and stability; `sort.Slice` in timing.go is not stable, which `Timing.Sweep` does not need.
- Places.CachedIsWhole: that entries with one snapshot and total were cut from one order is a hypothesis; which entry `message` picks among several is not modelled.
- Places.CountedIsListed: a UID is at least 1, as every UID is.
- BodyCache.RunsAreBounded: what marks a message as seen (`seen`, `markHeldSeen`, `cancelSeen`) enters only as steps that take tokens and change that map.
- Refusals.Refusals.Sweep: `sweepAt` is not claimed to be exact later, since a release can leave a key with only expired stamps.
- SearchTokens.BufferingDoesNotMatter: the scanner's limit of 64 KiB for one token is not modelled.
- SearchQuery.QueryRoundTrip: lower case is that of ASCII letters.
- IMAP, SMTP, ManageSieve, HTTP and DNS clients, TLS, timers and the login reaper: their results enter as outcomes of events.
- Sessions, passkeys, setup, templates, rendering, routes, service worker, desktop launchers, add-ons, PGP, S/MIME, WKD: user interface, plumbing, or verdicts of other libraries.
