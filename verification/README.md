# Verified models of an OpenVPN server and its relay

Dafny models of the stateful parts of the server: the two-factor check, the device leases, the collector that turns
OpenVPN's status into sessions and traffic, the traffic tables, visits, the log reader, the login limiter, the option
parser, and of the relay its policy cache, UDP capsules, accounting and stored history. Each part is a specification by
functions, the code in its own form (loops, classes with fields) proved to do what the functions say, and lemmas about
every input or every run.

`dafny verify dfyconfig.toml` checks all of it. A module is one file.

- `Oath`: bin/oath.sh. Replay memory and lock-out over whole runs of requests.
- `Leases`: bin/client-access.sh, docker-entrypoint.sh, ui/app/network.py. Addresses of devices.
- `Collector`, `Bookings`, `SessionEnds`: ui/app/collector.py, ui/app/db.py. Polls, outages, failed transactions and
  restarts; the minutes in which traffic is booked; when sessions are opened and ended.
- `Traffic`: ui/app/db.py, ui/app/main.py. Traffic tables, roll-ups and charts.
- `Visits`: ui/app/db.py. Grouping of sessions.
- `Lines`, `LogReader`, `LogTruncation`: ui/app/collector.py, ui/app/db.py, docker-entrypoint.sh. Splitting text into
  lines, reading a log that grows and is renewed, and a renewal that is not noticed.
- `LoginLimiter`: ui/app/auth.py. Exponential back-off.
- `OptionName`: ui/app/pki.py. The first word of a configuration line.
- `RelayAuth`: relay/auth.go, relay/main.go. The policy cache and the watch over open flows.
- `Capsules`: relay/http2.go. DATAGRAM capsules of RFC 9297 with the context ID of RFC 9298.
- `RelayActivity`, `RelayRuns`, `RelaySeen`, `RelayLog`: relay/activity.go, relay/sessions.go, relay/clients.go. Flows,
  sessions and clients: the steps and what each of them keeps; whole runs and what is reported; what rows say about the
  past, and which session a flow joins; the log as it runs and its status page.
- `RelayHistory`: ui/app/relay_history.py. The relay's sessions in the database.
- `Wrappers`: an option type and a fact about sets that several modules use.

Where a step depends on something outside (the clock, a failing database, OpenVPN's pool, the backend's answer, the order
in which a dictionary or a query yields equal rows), that is an argument of the step, so the lemmas hold for all of it.

Eight results say that the code does less than its text promises, or only under a condition:

- relay/main.go:50 says that open flows close within about 9 seconds. The bound that the code meets is
  recheck + ttl + 2 * timeout, almost 12 seconds as deployed; `RelayAuth.RevocationBound` proves it and
  `RelayAuth.BoundIsReached` and `RelayAuth.LongerThanNineSeconds` show runs that reach it.
- After a failed turn the first poll cannot commit while no client is connected, as the resync statement then has an
  empty list (ui/app/collector.py:341-344): `Collector.ResyncNeedsAClient` is an equivalence.
- A connection without a start time counts twice what it had counted when the collector's memory was lost, unless it is
  seen again in the same second: `Collector.NoStartTimeCountsAgain` gives the exact amount.
- Insert-time grouping agrees with batch grouping exactly if every session that continues another continues the previous
  one of its client and IP, by the end that the table has for that when the session is inserted, and that is among the
  last 20 of the client: `Visits.InsertedAgrees`. `Visits.OverlapDiffers`, `Visits.ReopenedDiffers` and
  `Visits.BusyDiffers` show lists that fail each part.
- A roll-up keeps the totals over whole days in UTC, whole hours of the last 90 days and any range of the last two, and for
  every other range it changes some: `Traffic.RollupKeepsTotals` and `Traffic.RollupChangesOthers`.
- A flow joins a recent session of its client and credential only if that is their newest, so one that started early and
  connects late may not join the older session that it lies near: `RelaySeen.JoinsRecent`. For a flow that started after
  all that was seen it does not matter: `RelaySeen.JoinsInOrder`.
- The committed lines are the whole lines of all logs exactly if each log was read from its start, and up to its last
  newline before it was renewed: `LogReader.EveryLineOnce`. A log is read from its start exactly if its inode or its
  length shows the renewal, or just half a line end is skipped: `LogReader.NoticedIsExact`. One that is truncated in place
  (docker-entrypoint.sh:294-300) and has grown to the stored position before the next read loses lines, and so does one
  that is renewed before it is read: `LogTruncation.UnnoticedLoses` and `LogTruncation.UnreadLoses`.
- Recording only the changed rows of a relay status is recording all of them exactly if no unchanged open row belongs to
  another relay process: `RelayHistory.RecordChanged` and `RelayHistory.ForeignDiffers`.

## Model

| member | source | states |
|---|---|---|
| Oath.Verifier.Check | bin/oath.sh:33-65 | one run of the script gives the verdict and the state files of the specification, for every request |
| Oath.Crowded | bin/oath.sh:57-61 | no six accepted codes fit into three consecutive steps, which is why five remembered codes are enough |
| Oath.Extend | bin/oath.sh:57-61 | a code that is not found among the remembered ones was not accepted in the last three steps |
| Oath.Memory | bin/oath.sh:57-62 | in every run the file holds the latest accepted codes, and the full history has no code twice within three steps |
| Oath.AcceptedApart | bin/oath.sh:57-61 | in every run two acceptances of one code for one user are at least three steps apart |
| Oath.OneTime | bin/oath.sh:57-61 | the code of one time step is accepted at most once, as section 5.2 of RFC 6238 demands |
| Oath.FewerIsNotEnough | bin/oath.sh:61 | with any smaller memory some run accepts one code twice two steps apart |
| Oath.UserStep | bin/oath.sh:45-62 | what one request, by whomever, does to the two files of a user |
| Oath.LockoutStep | bin/oath.sh:45-55 | the wrong codes evaluated since any request are at most the stored count, while none is accepted and 300 seconds have not passed |
| Oath.Lockout | bin/oath.sh:45-55 | in any 300 seconds without an accepted code at most five wrong codes of a user are evaluated |
| Oath.CountIsStreak | bin/oath.sh:45-55 | the stored count is that of a streak of wrong codes without an acceptance or a pause of 300 seconds, the stored time that of the last |
| Oath.StreakIsCounted | bin/oath.sh:45-62 | and no streak is longer |
| Oath.LockedIs | bin/oath.sh:45-50 | so the files lock a user out if and only if five wrong codes in a row, with pauses under 300 seconds up to now, were evaluated since the last acceptance |
| Oath.UsedIsLog | bin/oath.sh:58-61 | the remembered codes are the last accepted ones, whatever their number and the clock |
| Oath.VerdictIs | bin/oath.sh:33-65 | the verdict on every request of every run: locked out, wrong, used or accepted, each if and only if the requests and verdicts before it say so |
| Oath.SameValue | bin/oath.sh:58-58 | codes of one length that compare as equal numbers are equal |
| Oath.LeadingZero | bin/oath.sh:58-58 | and a zero in front makes no difference |
| Leases.TextRoundTrip | bin/client-access.sh:28-29 | an address number survives being written in octets and read back |
| Leases.NumberRoundTrip | docker-entrypoint.sh:337-338 | four octets survive being turned into a number and back |
| Leases.MultipleIs | ui/app/network.py:243-244 | a strict network address is a multiple of the network's size |
| Leases.SameQuotient | docker-entrypoint.sh:209-209 | the leading bits of an address are those of such a network if and only if the address is in it |
| Leases.GuestRange | ui/app/network.py:243-253 | with validated settings the guest range has at least two addresses, all of them client addresses of the network outside the pool and the static ones |
| Leases.FindFree | bin/client-access.sh:39-41 | the first address of the range without a lease, or none if all have one |
| Leases.CountHeld | bin/client-access.sh:34 | the number of leases of a name |
| Leases.LeaseDirectory.ClientConnect | bin/client-access.sh:25-58 | acceptance, pushed addresses and leases after client-connect, for every kind of client |
| Leases.LeaseDirectory.ClientDisconnect | bin/client-access.sh:60-62 | exactly the leases of this device go |
| Leases.LeaseDirectory.ReapLeases | docker-entrypoint.sh:356-370 | against a current list, exactly the old leases of unlisted addresses go |
| Leases.LeaseDirectory.PrepareAccess | docker-entrypoint.sh:348-349 | a new start of OpenVPN has no leases |
| Leases.ConnectKeeps | bin/client-access.sh:31-58 | a connection, completed or aborted, leaves every connected device its own lease, address and place |
| Leases.StepKeeps | docker-entrypoint.sh:339-370 | so do disconnects, client lists, reaping, restarts and the passing of time |
| Leases.NoSharedAddress | bin/client-access.sh:31-63 | in every run no two connected devices have the same address |
| Leases.GuestsApart | bin/client-access.sh:38-47 | in every run guests have host addresses of the guest range, no other device has any address of the guest network, and addresses of the pool are those that OpenVPN gave out |
| Leases.RulesMatchGuests | docker-entrypoint.sh:206-209 | in every run a firewall rule for the guest network applies to a connected device if and only if it is a guest |
| Leases.NetworkIs | ui/app/network.py:243-253 | the addresses of the networks are those with their leading bits, up to the broadcast addresses |
| Leases.NoSharedHost | bin/client-access.sh:51-55 | in every run the IPv6 hosts that the script derives from addresses differ, too, and their two groups of 16 bits make up the address |
| Leases.DevicesLimited | bin/client-access.sh:33-36 | in every run a name has at most MAX_DEVICES leases, and no more connected devices than leases |
| Leases.GuestRefused | bin/client-access.sh:33-42 | a guest is refused if and only if its limit is reached or every guest address has a lease |
| Leases.FullRefused | bin/client-access.sh:33-47 | a full client is refused if and only if its name has all its devices |
| Leases.GetsItsDue | bin/client-access.sh:32-58 | in every run a device that connects gets, with the lease of it, the lowest free guest address, its free static address or the pool's offer, or nothing if there is none or its name has all its devices |
| Leases.LeasesAre | bin/client-access.sh:48-62 | in every run a lease is there if and only if a connection wrote it, and since then its device did not disconnect, its address was not given again, OpenVPN did not start, and no reaping against a fresh list missed it |
| Collector.CloseSessions | ui/app/collector.py:356-360 | ends the open rows of some connections and drops just these from the memory |
| Collector.Transact | ui/app/collector.py:286-344 | the statements of a poll give the specified tables and memory, or none if the resync statement is refused |
| Collector.Thread.constructor | ui/app/collector.py:144-150 | a new thread knows no connection and ends the sessions of its predecessor if the database lets it |
| Collector.Thread.PollOnce | ui/app/collector.py:271-354 | the status file of the last poll changes nothing; a poll that fails leaves the tables as they were, one whose commit is not confirmed changes them, and both forget the memory and the time of the status |
| Collector.Thread.GoDown | ui/app/collector.py:362-369 | an outage ends every session that the thread knows, or forgets them if the transaction fails, and forgets the time of the status |
| Collector.Thread.Forget | ui/app/collector.py:163-169 | after a failed write the memory is empty and a resync is due |
| Collector.ObserveKeeps | ui/app/collector.py:287-334 | observing a client keeps traffic equal to session bytes and the memory equal to open rows, whether the connection is known, reopened or new |
| Collector.ObserveAllKeys | ui/app/collector.py:287-314 | after the loop the memory knows what it knew and every listed connection |
| Collector.CloseKeeps | ui/app/db.py:420-427 | ending sessions changes no counter |
| Collector.DropKeeps | ui/app/collector.py:340-340 | ending the rows of vanished connections keeps memory and open rows in step |
| Collector.ResyncCovers | ui/app/collector.py:341-344 | the resync ends exactly the open rows that the memory does not know |
| Collector.PollTxKeeps | ui/app/collector.py:286-345 | a committed poll keeps the ledger and brings memory and rows into step |
| Collector.ResyncNeedsAClient | ui/app/collector.py:341-344 | a poll cannot commit if and only if a resync is due and the status lists no client |
| Collector.PollKeys | ui/app/collector.py:286-345 | after a committed poll the memory is exactly the listed connections |
| Collector.DownKeeps | ui/app/collector.py:362-366 | an outage keeps the ledger, however its transaction ends |
| Collector.StartKeeps | ui/app/collector.py:144-150 | so does a restart |
| Collector.LogKeeps | ui/app/db.py:463-474 | so does a session known from the log alone |
| Collector.RollKeeps | ui/app/db.py:342-367 | so does a roll-up of the traffic tables at any time |
| Collector.ObserveTimed | ui/app/collector.py:287-334 | observing a client times the row of its connection with the poll, and no other row |
| Collector.PollTxTimed | ui/app/collector.py:286-345 | a stored poll times the rows of exactly the connections that it lists |
| Collector.TurnKeeps | ui/app/collector.py:144-174 | every turn of the thread keeps the invariant; memory and rows get into step by a start that commits or a resync, and stay in step |
| Collector.EveryTurnPossible | ui/app/collector.py:144-174 | after every run any turn can follow, so the runs are all schedules |
| Collector.EveryByteOnce | ui/app/collector.py:286-345 | in every run of polls, outages, restarts, roll-ups and failed or unconfirmed transactions, with any clock, each client's traffic is the bytes of its sessions, and a connection has one row, with its counters of the last stored status that listed it, or none if no status did |
| Collector.OnlyListedHoldBytes | ui/app/collector.py:286-345 | in every run a row with bytes is one of a connection that a stored status listed when the row was last seen |
| Collector.PollIsCurrent | ui/app/collector.py:279-345 | in every run a committed poll leaves in memory exactly the listed connections, each with its open row, its time and its counters of this poll |
| Collector.MemoryMatchesRows | ui/app/collector.py:340-366 | in every run, once the last start committed or a turn has failed since, and outside a pending resync, exactly the rows in memory are open and hold its bytes |
| Collector.NoStartTimeCountsAgain | ui/app/collector.py:293-315 | a connection without a start time that is seen, forgotten and seen again counts its first counters twice, unless both polls are of the same second |
| Bookings.ObserveBooks | ui/app/collector.py:287-334 | observing a client adds to its minute what the connection has grown by since it was last listed |
| Bookings.BookedWhenSeen | ui/app/collector.py:279-345 | in every run the traffic of a client or all in a range is the growth of the listed connections that the stored polls saw in its minutes, for any range if nothing is rolled up, and else for those that roll-ups keep |
| Bookings.AnyCounters | ui/app/collector.py:293-334 | a fallen counter counts in full for a known connection, and as nothing for a reopened one |
| SessionEnds.PollEnds | ui/app/collector.py:287-344 | after a poll listed rows are open, those of vanished connections end now, and others that a resync finds open end when they were last seen |
| SessionEnds.EndsAre | ui/app/collector.py:144-174 | in every run this holds of every turn and row, with outages, restarts and rows from the log, and no other end ever changes |
| SessionEnds.ResyncIsDue | ui/app/collector.py:155-169 | in every run a resync is due if and only if a write failed or was not confirmed, and since then neither a poll committed nor a new thread began |
| Traffic.UpsertSum | ui/app/db.py:295-301 | adding to a row changes every sum that includes it by the amount, and no other |
| Traffic.GroupedSum | ui/app/db.py:347-355 | a grouped insert moves the sum of the source rows to their groups |
| Traffic.UpsertKeyed | ui/app/db.py:295-301 | adding keeps one row per time and client |
| Traffic.GroupedKeyed | ui/app/db.py:347-355 | so does a grouped insert |
| Traffic.CutSum | ui/app/db.py:350-356 | the rows moved and the rows kept are all rows, once |
| Traffic.Database.Add | ui/app/db.py:292-301 | a write changes the minute table as specified, negative amounts counting as nothing |
| Traffic.Database.RollUp | ui/app/db.py:342-367 | a roll-up moves old minutes to hours and old hours to days |
| Traffic.RollupKeepsTotals | ui/app/db.py:342-367 | a roll-up at any time keeps every total between midnights in UTC, full hours of the last 90 days and any times of the last two days, of one client or all |
| Traffic.RollupChangesOthers | ui/app/db.py:342-367 | and for any other range it changes the total of some dated tables |
| Traffic.TotalsAreWrites | ui/app/db.py:292-367 | through any mix of writes and roll-ups a total between such times is what was written |
| Traffic.RunKeyed | ui/app/db.py:292-367 | through any mix of writes and roll-ups each table has one row per time and client |
| Traffic.RunPositive | ui/app/db.py:292-301 | and no row without traffic |
| Traffic.SeriesIs | ui/app/db.py:321-333 | the series query has, in order of time, one point for each bucket with rows and none besides, and it is the sum of the three tables over the bucket |
| Traffic.FillSeries | ui/app/main.py:369-378 | a chart has every bucket of its range once, with its point or zero |
| Traffic.ChartSumsToTotals | ui/app/db.py:310-333 | for any range, width and time zone the filled chart of the series query sums to the totals of the range |
| Visits.VisitsAreUnique | ui/app/db.py:476-491 | the maximal visits of a list of sessions are determined |
| Visits.FirstOfVisit | ui/app/db.py:483-490 | a visit is named after its first session, of the same client and IP |
| Visits.VisitsApart | ui/app/db.py:483-490 | different visits of one client and IP are more than MERGE_GAP apart |
| Visits.JoinIsVisit | ui/app/db.py:484-487 | joining by the dictionary extends the visits by one session |
| Visits.JoinTracks | ui/app/db.py:488-488 | the dictionary keeps, for each client and IP, the visit that can go on and its latest end |
| Visits.GroupSessions | ui/app/db.py:476-491 | batch grouping gives exactly the maximal visits |
| Visits.InsertSession | ui/app/db.py:451-474 | a new session gets the visit that the scan of the last 20 finds, or its own |
| Visits.LatestFirst | ui/app/db.py:456-458 | in start order the query yields the newest sessions first |
| Visits.ScanFinds | ui/app/db.py:456-461 | the scan stops at the previous session of the same IP |
| Visits.RecentIs | ui/app/db.py:456-458 | in start order the query finds a session if and only if fewer than 20 of the client are later |
| Visits.InsertedAt | ui/app/db.py:451-474 | a session inserted in start order joins the visit of its predecessor if that is among the last 20 and its end, as the table then has it, is recent, and else none |
| Visits.InsertedAreVisits | ui/app/db.py:451-474 | chained sessions inserted in start order form the maximal visits, however ends move afterwards |
| Visits.UnchainedDiffers | ui/app/db.py:451-491 | a session that is not chained starts a visit of its own, which batch grouping does not give it |
| Visits.InsertedAgrees | ui/app/db.py:451-491 | insert-time and batch grouping agree on sessions in start order if and only if each that continues another continues its predecessor by the end stored at that time, and that is among the last 20 of the client |
| Visits.SeparateChained | ui/app/db.py:451-474 | sessions that do not overlap meet this if their predecessors are among the last 20 and had ended for good |
| Visits.OverlapDiffers | ui/app/db.py:451-491 | they differ on three sessions of which the first outlasts the second |
| Visits.ReopenedDiffers | ui/app/collector.py:298-307 | they differ when an outage ends a session, another is inserted, and the first is reopened after that |
| Visits.BusyDiffers | ui/app/db.py:456-458 | they differ on sessions that do not overlap, when 20 from elsewhere come between two that belong together |
| Lines.FirstOfLines | ui/app/collector.py:199-199 | a text is split after its first line end, of those that Python knows, and a carriage return before a newline is half of one |
| Lines.LastOfLines | ui/app/collector.py:199-199 | a text without one is one line, or none if it is empty |
| Lines.SplitConcat | ui/app/collector.py:195-199 | whole lines can be split off: the lines of a text are those of its parts |
| Lines.Prepend | ui/app/collector.py:199-199 | one more character at the start makes the lines longer by one, unless it is half a line end, and then it changes nothing |
| Lines.Longer | ui/app/collector.py:199-199 | so more text in front never gives the same lines, but for half a line end |
| LogReader.CountsAreHits | ui/app/db.py:400-406 | counting lines raises the number of every day, client, reason and address by the lines that describe it, and keeps the latest time |
| LogReader.ReadChunk | ui/app/collector.py:191-195 | the chunk ends at its last newline |
| LogReader.CountLines | ui/app/collector.py:199-203 | the loop over the lines counts every rejection among them |
| LogReader.Reader.ReadLog | ui/app/collector.py:184-208 | reading goes on at the stored position of the same file, or at the start of another or shorter one; the lines of the chunk and the position take effect together or not at all |
| LogReader.Reader.PurgeRejections | ui/app/db.py:369-369 | exactly the rows of days before the cutoff go |
| LogReader.CommitTallied | ui/app/collector.py:198-208 | a transaction keeps the counts those of the committed lines |
| LogReader.ReadKeeps | ui/app/collector.py:184-208 | a read, committed or not, commits the next piece of the log after the last, or the first of a new one |
| LogReader.RenewKeeps | docker-entrypoint.sh:294-300 | a renewal keeps what was committed of the old log |
| LogReader.PurgeKeeps | ui/app/db.py:369-369 | a purge keeps the counts of the days that it leaves |
| LogReader.PiecesOnce | ui/app/collector.py:180-208 | in every run of growth, renewals, reads, failures, restarts and purges the committed lines are those of one piece of each log, from a place to a newline, each once and in order |
| LogReader.CompleteIs | ui/app/collector.py:189-199 | the lines of a piece are all whole lines of its log if and only if it begins at the start, or after half a line end, and leaves no newline behind |
| LogReader.EveryLineOnce | ui/app/collector.py:180-208 | in every run the committed lines are the whole lines of all logs, of the last one those before the position, if and only if every piece is complete |
| LogReader.NoticedIsExact | ui/app/collector.py:189-192 | the first read of a renewed log takes all its lines up to the new position if and only if inode or length show the renewal, or just half a line end is skipped |
| LogReader.NoticedFromStart | ui/app/collector.py:189-192 | in every run in which renewals show, every log is read from its start |
| LogReader.UnreadIsLost | ui/app/collector.py:189-208 | and loses exactly the whole lines that were not read when it was renewed |
| LogReader.GrowingOnce | ui/app/collector.py:180-208 | a log that only grows needs no condition |
| LogTruncation.UnnoticedLoses | ui/app/collector.py:189-192 | a run in which a truncated log has grown to the stored position again and loses a line |
| LogTruncation.UnreadLoses | ui/app/collector.py:180-195 | a run in which a log is renewed before its line is read |
| LogReader.RejectionsAreLines | ui/app/db.py:400-406 | in every run each stored number and time are those of the committed lines, if the day is not before a cutoff, and the number is never more |
| LogReader.ReadAdvances | ui/app/collector.py:191-208 | a committed read whose chunk holds a newline moves past it |
| LoginLimiter.LongestWait | ui/app/auth.py:123-123 | the shortest wait after which no key is held back |
| LoginLimiter.DropOldest | ui/app/auth.py:133-134 | the newest entries stay |
| LoginLimiter.Limiter.Attempt | ui/app/auth.py:116-135 | zero if and only if no key is held back, else the seconds to wait; the table changes only for admitted attempts, and stays within its bound with one entry for each key |
| LoginLimiter.Limiter.Success | ui/app/auth.py:137-139 | a success forgets the key, and no other |
| LoginLimiter.RetryGoesAhead | ui/app/auth.py:123-125 | after the announced seconds an attempt goes ahead, and more than a second earlier it does not |
| LoginLimiter.OldestFirst | ui/app/auth.py:126-134 | in every run the table is ordered by last admitted attempt and within its bound |
| LoginLimiter.EvictedIsOldest | ui/app/auth.py:133-134 | in every run an attempted key that is gone, but not by a success, had its last attempt before every key that is there |
| LoginLimiter.EvictedWhenFull | ui/app/auth.py:133-139 | a key goes only by its success, or at an admitted attempt that leaves the table full |
| LoginLimiter.EntryStep | ui/app/auth.py:126-139 | what any call does to the entry of a key that stays |
| LoginLimiter.BackoffStep | ui/app/auth.py:126-132 | the failures of a key are at least its admitted attempts, exactly these if the first was counted anew, and the next one has to wait the delay of that number after the last |
| LoginLimiter.Backoff | ui/app/auth.py:105-139 | in every run N admitted attempts on a key take at least the sum of min(max_delay, 2^(j - threshold + 1)) for j from the threshold to N - 1 |
| LoginLimiter.NextAttempt | ui/app/auth.py:116-135 | and after N of them, the first counted anew, the next on the key alone goes ahead if and only if min(max_delay, 2^(N - threshold + 1)) seconds have passed, or at once below the threshold |
| OptionName.OptionName | ui/app/pki.py:535-565 | the loop over the characters reads the first word of the line |
| OptionName.DoubleQuoted | ui/app/pki.py:535-565 | reading undoes double quotes and backslashes after any blanks and before any rest |
| OptionName.SingleQuoted | ui/app/pki.py:535-565 | reading undoes single quotes |
| OptionName.PlainWord | ui/app/pki.py:535-565 | reading undoes backslashes in a word without quotes |
| OptionName.SpellingsAgree | ui/app/pki.py:535-565 | the three spellings of a word that has all three give the same name |
| OptionName.Decorations | ui/app/pki.py:535-565 | leading dashes and the brackets of inline blocks do not belong to the name |
| OptionName.NothingSet | ui/app/pki.py:535-565 | a comment or an empty line has no name |
| RelayAuth.Authorizer.Authorize | relay/auth.go:23-58 | the check that a call waits for, and the cache afterwards |
| RelayAuth.Authorizer.RemoveExpired | relay/auth.go:46-50 | exactly the expired entries go |
| RelayAuth.Authorizer.Finish | relay/auth.go:64-72 | an error leaves no entry, a success one that expires |
| RelayAuth.LookupKeeps | relay/auth.go:31-58 | a call keeps the cache within its capacity, with one check per token |
| RelayAuth.CompleteKeeps | relay/auth.go:61-73 | a check that ends removes no entry but its own |
| RelayAuth.StepShared | relay/auth.go:23-80 | every step of calls, replies, ticks and time keeps the cache in order, for all timings |
| RelayAuth.StepKeeps | relay/main.go:51-76 | and the watched flows, if a check ends before the next tick |
| RelayAuth.EveryEventPossible | relay/auth.go:23-80 | after every run any event that the relay allows can follow, so the runs are all interleavings |
| RelayAuth.OneCheckPerToken | relay/auth.go:30-58 | in every run, for all timings, a shared check in flight is the only one of its token and the cache is bounded |
| RelayAuth.NothingShared | relay/auth.go:27-30 | in every run without a time to live each call has a check of its own, begun when it asks |
| RelayAuth.AnswersAreOwn | relay/auth.go:32-80 | in every run, for all timings, a call gets an answer about its own token: an error only of a check it joined in flight, else a success younger than ttl |
| RelayAuth.ClosedForCause | relay/main.go:51-76 | in every run a flow ends by itself, or by a tick whose answer is an error, of another relay, or of a policy that neither allows its address nor is its portal; on any other answer it goes on until the next tick |
| RelayAuth.ClosedInTime | relay/main.go:51-76 | an open flow without permission has one tick and one check left |
| RelayAuth.RevocationBound | relay/main.go:49-76 | in every run a watched flow is closed recheck + ttl + 2 * timeout after the backend began to give only such answers |
| RelayAuth.BoundIsReached | relay/main.go:49-76 | for all timings with a check that ends before the next tick some run has the flow open one unit before that |
| RelayAuth.LongerThanNineSeconds | relay/main.go:49-50 | as deployed a flow can outlive its permission by almost twelve seconds |
| Capsules.Written | relay/http2.go:246-249 | reading undoes writing an integer of any size that fits |
| Capsules.WrittenShort | relay/http2.go:246-249 | a cut integer is not read |
| Capsules.CapsulesToUdp | relay/http2.go:232-267 | the loop sends the specified packets, for every byte stream |
| Capsules.EncodedHead | relay/http2.go:236-239 | the head of a capsule gives its kind, length and where its value begins |
| Capsules.SendsPackets | relay/http2.go:240-259 | a packet is sent exactly for kind 0, context 0 and at most 65507 bytes, and it is the payload |
| Capsules.ReceiveFrame | relay/http2.go:235-266 | one capsule is taken off the stream whatever its kind, context and length |
| Capsules.ReceiveAll | relay/http2.go:232-267 | for every stream of capsules exactly their packets are sent, in order |
| Capsules.CutFrame | relay/http2.go:236-259 | a capsule that the stream does not complete sends nothing |
| Capsules.CutStream | relay/http2.go:232-267 | a stream that is cut anywhere sends exactly the packets of its complete capsules |
| Capsules.UdpToCapsules | relay/http2.go:286-305 | the capsules written for packets are read back as these packets, too long ones left out |
| Capsules.AllDelivered | relay/http2.go:286-305 | and if they fit in a UDP datagram they are all of them, in order |
| Capsules.ShortFits | relay/http2.go:286-305 | lengths are written in the fewest bytes that hold them |
| RelayActivity.OldestSession | relay/sessions.go:48-54 | a full table gives up the idle session seen longest ago, if one is idle |
| RelayActivity.OldestClient | relay/clients.go:38-48 | likewise for clients, unless a row was seen at time 0; in any case no row with open flows goes, and none from a table with room |
| RelayActivity.EvictKeeps | relay/sessions.go:55-61 | giving up an idle session keeps every count |
| RelayActivity.AttachKeeps | relay/sessions.go:34-72 | a flow joins the current session of its client and credential, and every count stays right |
| RelayActivity.AdmitKeeps | relay/clients.go:30-53 | so does finding or making the client's row |
| RelayActivity.BookKeeps | relay/activity.go:209-247 | rows that follow their flow keep every session and client equal to the sum of its flows |
| RelayActivity.ConnectKeeps | relay/activity.go:116-136 | so does a connection |
| RelayActivity.FinishKeeps | relay/activity.go:179-251 | so does an end, the first and any later one |
| RelayRuns.StepKeeps | relay/activity.go:94-253 | every step of every flow keeps the counts, the links and the bound on clients |
| RelayRuns.SessionRows | relay/activity.go:116-247 | in every run a session's active count is the number of open flows with its ID, and it reports its finished counted flows and its open ones |
| RelayRuns.ClientRows | relay/clients.go:30-84 | in every run a client's open count is its open flows, never negative, and it reports its flows since the row was made |
| RelayRuns.CurrentIsStored | relay/sessions.go:45-67 | in every run the current session of a client and credential is a stored one of theirs |
| RelayRuns.OneActiveSession | relay/sessions.go:34-72 | in every run at most one session of a client and credential has open flows |
| RelayRuns.OpenIsCounted | relay/activity.go:116-136 | in every run an open flow is counted by a row of its session and one of its client |
| RelayRuns.OpenIsCount | relay/clients.go:30-53 | a client's count of open flows is never negative |
| RelayRuns.ReportedIs | relay/sessions.go:74-91 | a session reports the bytes of its finished counted flows and of its open ones |
| RelayRuns.ClientReportedIs | relay/clients.go:55-84 | so does a client, for the flows since its row was made |
| RelayRuns.FinishReports | relay/activity.go:179-253 | ending a flow, once or again, changes what no session reports; a flow that never connected adds its counted bytes to the session it ends in, and to no other |
| RelayRuns.FinishClientReports | relay/activity.go:209-250 | so it is with clients; a row goes only from a full table and without open flows |
| RelayRuns.AddReports | relay/activity.go:94-100 | traffic shows in the session of its open flow at once, and nowhere else |
| RelayRuns.ActiveSessionsStay | relay/sessions.go:47-68 | no step gives up a session with open flows, and a step adds a row beyond the limit only if all rows are in use |
| RelayRuns.SessionsBounded | relay/sessions.go:47-68 | in every run with at most peak flows open at once, the rows are at most the limit or peak + 1 |
| RelayRuns.ClientsBounded | relay/clients.go:29-53 | in every run client rows are within the limit, or each has open flows |
| RelaySeen.StepRows | relay/sessions.go:34-72 | what a step does to the row of a session: nothing, or one flow accepted, denied or failed and the time of it; a row begins with its first flow |
| RelaySeen.RowCounts | relay/activity.go:124-127 | in every run a stored session has counted the flows that carry its ID as accepted, denied and failed |
| RelaySeen.RowTimes | relay/sessions.go:63-70 | and was last seen at the latest start or end of one of them, if the clock does not go back |
| RelaySeen.SessionsApart | relay/sessions.go:46-67 | in every such run a session of a client and credential was opened more than 300 seconds after each older one was last seen, and the newest is the current one |
| RelaySeen.JoinsRecent | relay/sessions.go:46-70 | in every such run a flow joins a stored session of its client and credential if and only if that is the newest, and has an open flow or one that started or ended no more than 300 seconds before |
| RelaySeen.JoinsInOrder | relay/sessions.go:46-70 | and a flow that started after all that was seen of the stored sessions needs no more than the latter |
| RelaySeen.ClientCounts | relay/clients.go:30-53 | in every run a client's row has counted its flows since it was made, and was last seen at the last of their events |
| RelayLog.ActivityLog.Begin | relay/activity.go:106-114 | a new flow, known to no row |
| RelayLog.ActivityLog.Identify | relay/main.go:113-162 | naming a flow is a step that keeps the invariant |
| RelayLog.ActivityLog.Add | relay/activity.go:94-100 | so is its traffic |
| RelayLog.ActivityLog.EvictLocked | relay/sessions.go:55-61 | a session goes, and its place as the current one if it has it |
| RelayLog.ActivityLog.RenewLocked | relay/sessions.go:46-68 | the key has a current session, a new one if the old has been idle for more than five minutes |
| RelayLog.ActivityLog.SessionLocked | relay/sessions.go:34-72 | the flow is in the current session |
| RelayLog.ActivityLog.ClientLocked | relay/clients.go:30-53 | the client has a row |
| RelayLog.ActivityLog.Connected | relay/activity.go:116-136 | a step of the run that keeps the invariant |
| RelayLog.ActivityLog.Finish | relay/activity.go:179-253 | likewise, for a flow in any state |
| RelayLog.ActivityLog.Settled | relay/activity.go:193-250 | what the rows record at the end of a flow |
| RelayLog.ChargeClient | relay/activity.go:213-229 | the client's row is charged once for each kind of end |
| RelayLog.ChargeSession | relay/activity.go:231-246 | so is the session's |
| RelayLog.ActiveFlows | relay/activity.go:295-300 | the list of open flows adds up to what all flows do, in every total of open flows |
| RelayLog.AddOpenFlows | relay/sessions.go:74-92 | each row gets the sums of its open flows |
| RelayLog.SessionSnapshot | relay/sessions.go:74-106 | every row once, with its open flows, state and end |
| RelayLog.SummarizeClients | relay/clients.go:55-84 | a row for each client with history or an open flow, with the sums of its open flows |
| RelayLog.ActivityLog.Status | relay/activity.go:283-317 | what is shown of each session and client is what the run theorems are about |
| RelayLog.BusyMeansOpen | relay/sessions.go:80-97 | a session is shown as active, and as seen now, if and only if it has open flows |
| RelayLog.OverMeansNew | relay/sessions.go:46-47 | the latest session of a client and credential is shown as ended, and at the time it was last seen, if and only if its next flow would begin a new one |
| RelayHistory.Previous | ui/app/relay_history.py:29-32 | a group is found if and only if there is a candidate, and it is that of one seen last |
| RelayHistory.Save | ui/app/relay_history.py:26-48 | one row is inserted or joined with what is stored |
| RelayHistory.RecordRows | ui/app/relay_history.py:14-49 | a status that is not ready changes nothing; else reset, rows in order, retention |
| RelayHistory.StoredIsMax | ui/app/relay_history.py:34-49 | after any calls each stored row is, field by field, the greatest of what was recorded since it appeared, and one of these attains it |
| RelayHistory.MaxIsUnique | ui/app/relay_history.py:38-45 | so it depends on neither order nor repetition |
| RelayHistory.ApplyChanged | ui/app/relay_history.py:23-48 | upserting the changed rows alone gives the same table from the same choices of groups |
| RelayHistory.RecordChanged | ui/app/relay_history.py:83-86 | recording the changed rows is recording all rows, sample times aside, if unchanged open rows are of the answering process |
| RelayHistory.ForeignDiffers | ui/app/relay_history.py:20-22 | and, for rows within the retention, only then |
| RelayHistory.ChangedIsEnough | ui/app/relay_history.py:78-89 | in every run of polls, failures and restarts the table is the one in which all rows were recorded, sample times aside |
| RelayHistory.OpenIsSampled | ui/app/relay_history.py:60-86 | in every run each poll that goes through samples every session with open flows, as its last_seen has moved, and shows them for 15 seconds |
| RelayHistory.ShowsAllFlows | ui/app/relay_history.py:60-60 | so at every later moment the table shows the open flows that it would if all rows were recorded |
| RelayHistory.RecordGrouped | ui/app/relay_history.py:28-33 | a call keeps every group to one client and credential |
| RelayHistory.GroupsAreOwn | ui/app/relay_history.py:28-33 | in every run no visit mixes clients or credentials |
| RelayHistory.NewInVisit | ui/app/relay_history.py:28-33 | in every run a session that is new when it is recorded gets the visit of the row seen last among those of its client and credential that started before it and were seen at most 300 seconds before it, or else its own |
| RelayHistory.VisitStays | ui/app/relay_history.py:28-38 | and keeps it while its row is stored |
| RelayHistory.ListedIsStored | ui/app/relay_history.py:23-48 | in every run a poll that goes through leaves a row with its open flows for every listed session that has a client and a credential |
| RelayHistory.RowsAreSessions | ui/app/relay_history.py:26-48 | and every row is one of such a session, with its client, credential, transport and start |
| RelayHistory.YearIsKept | ui/app/relay_history.py:49-49 | a poll leaves the rows seen in the last year, and only these |
| RelayHistory.ById | ui/app/relay_history.py:83-83 | rows by ID, each once |
| RelayHistory.Compare | ui/app/relay_history.py:84-84 | the rows that are not as they were last seen |
| RelayHistory.RelayCollector.Turn | ui/app/relay_history.py:78-89 | a turn records the changed rows and remembers all, or changes nothing |

## Left out

- The web API, the pages, certificates, profiles, backups and upgrades: each reads or writes a file or a row at a time and calls other programs, and keeps no state of its own between calls.
- The firewall, DNS and the guest portal: they are lists of rules for other programs, whose meaning is not in this repository; Leases.RulesMatchGuests says which devices the guest rules select.
- Concurrency inside one lock: relay steps and limiter calls are atomic, as their mutexes make them; `f.opened` and `f.event` are taken to be set by the one goroutine of the flow.
- Oath: oathtool and the secrets file are a function from time steps to codes; unreadable files and failing writes are not modelled.
- Leases: addresses are numbers, and the decimal text of octets is not modelled; OpenVPN is taken to give out pool addresses that no connected pool client has, and to list connected clients.
- Leases.NoSharedHost: the IPv6 addresses that OpenVPN gives out from its own pool are not compared with those that the script pushes, as that pool is OpenVPN's.
- Archiving of client history (ui/app/db.py:374-390): it renames sessions, traffic and relay sessions of a client, all or those before a time. The bytes of a connection that is open then go on in the renamed row while its traffic goes to the name, and after a restart it gets a second row, so Collector.EveryByteOnce does not hold through it; nor does RelayHistory.GroupsAreOwn, as rows of one group that started before and after that time get different names.
- Collector: rates, the published live view and the descriptive columns of sessions are not modelled; a status is taken to show counters that do not fall and a start time for each connection.
- Collector.EveryByteOnce: needs a start time for each connection; Collector.NoStartTimeCountsAgain shows what happens without one.
- Traffic.RollupKeepsTotals: for rows from 1970 on, as the division of PostgreSQL rounds others upwards.
- Bookings.BookedWhenSeen: once something was rolled up, for clocks from 1970 on.
- Traffic.ChartSumsToTotals: for times that are not before 1970 in local time, as PostgreSQL and Python round such divisions differently.
- Visits: the session's id is its place in start order, and the port and protocol of an address are not modelled.
- LogReader: text is characters, so UTF-8 decoding is not modelled.
- LogReader.Reader.ReadLog: of the lines only rejections take effect; the device, protocol and end of sessions and the pending handshakes are not modelled.
- LoginLimiter: time is a real number, so rounding of floats is not modelled.
- RelayAuth: cancelled requests, the authSlots limit and the three attempts within a check are part of the backend's answer.
- RelayAuth.RevocationBound: for a check that ends before the next tick, as the deployed 3 and 5 seconds do, and answers taken without delay.
- Capsules: failing reads and writes of sockets end the loops and are not modelled; nor are deadlines.
- RelayActivity: reasons, the global totals, TCP and UDP counts, destinations, the ring of events and the log lines are not modelled; a session key is a pair, not a string with a NUL in it.
- RelayActivity.OldestClient: that the oldest goes holds if no row was seen at time 0, which the loop uses for none.
- RelaySeen.RowTimes: for a clock that does not go back and flows that start before they connect; so are SessionsApart and JoinsRecent.
- RelayLog.ActivityLog.Connected: needs a clock that does not show 0, as OldestClient does; so does Finish.
- RelayLog.ActivityLog.Finish: reasons, global totals and the ring of events are not modelled.
- RelayLog.ActivityLog.Settled: the last error and the global totals are not modelled.
- RelayLog.SessionSnapshot: the sort order of the rows and the filter by client are not modelled.
- RelayLog.SummarizeClients: TCP and UDP counts, destinations and the sort order are not modelled.
- RelayLog.ActivityLog.Status: events, totals and the filter by client are not modelled.
- RelayHistory: an ID is its process and number, so the pattern of LIKE is not modelled; of the query that sums groups for display only the open flows of a row are.
- RelayHistory.ChangedIsEnough: for statuses whose sessions are of the answering process and not past the retention of a year; a longer idle one is inserted and deleted by each call.
- RelayHistory.ShowsAllFlows: the relay's clock goes on between two polls, which are five seconds apart.
