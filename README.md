# Inbox Guardian, modelled in Dafny

Inbox Guardian is an inbox-cleaning web application. It signs in to Gmail (OAuth)
or to Yahoo Mail (an app password, through a small IMAP backend). It then does four things:

- lists the unread messages;
- groups them by sender;
- asks an AI model, or a rule-based fallback, how to treat each sender or message;
- moves what the user picks to the trash.

This project models the core of that application and proves properties of it:

| file | module | what it models |
|---|---|---|
| `text.dfy` | `Text` | the JavaScript string built-ins the core relies on (`toLowerCase`, `includes`, `trim`, `<` on strings, `String(n)`, `parseInt`, `split`, `replace`) |
| `types.dfy` | `Model` | the records of `types.ts` (emails, sender groups, analyses, trash results) |
| `seqs.dfy`, `sorting.dfy` | `Seqs`, `Sorting` | consecutive batches of a list, and the stable sort of `Array.prototype.sort` |
| `email_grouping.dfy` | `Grouping` | `utils/emailGrouping.ts`: grouping by sender, sorting, searching, and removing trashed emails |
| `app_state.dfy` | `Coordinator` | the state the screen keeps in `App.tsx` (class `AppState`) and the handlers that change it |
| `mailbox_service.dfy` | `Mailbox` | class `MailboxService` of `services/mailboxService.ts`: sign-in state, routing, trash protocol, content fallbacks |
| `yahoo_imap.dfy` | `ImapSessions` | `server/services/yahooImapService.ts`: the session registry, reconnection, message ids, the fetch window and the move-to-trash loop |
| `analysis_fallbacks.dfy` | `Fallbacks` | the rule-based `mock*` analyses of `services/geminiService.ts` |

Whatever comes from outside is a parameter of the operation that receives it:

- answers from Google, Yahoo, the IMAP server and the AI model;
- the outcome of each network request;
- the result of parsing a date into a time.

Stateful code is modelled as classes whose methods are proved against specification functions:

- `AppState` in App.tsx;
- `MailboxService`;
- the IMAP `SessionManager`.

The grouping loop, the Gmail batch loop, the IMAP fetch and trash loops and the similarity loop are `while`/`for` loops with invariants.

Similarity and confidence scores are integers in hundredths (0.6 is 60).

## Model

| member | source | states |
|---|---|---|
| Grouping.FoldOldest | utils/emailGrouping.ts:93-96 | the oldest-date reduction returns the start or one of the dates, and no date is smaller |
| Grouping.FoldNewest | utils/emailGrouping.ts:97-100 | the newest-date reduction returns the start or one of the dates, and no date is greater |
| Grouping.OldestDate | utils/emailGrouping.ts:29-32 | a group's oldest date is the date of one of its emails, and no email's date is smaller |
| Grouping.NewestDate | utils/emailGrouping.ts:33-35 | a group's newest date is the date of one of its emails, and no email's date is greater |
| Grouping.OldestDateAtMost | utils/emailGrouping.ts:29-32 | the oldest date is at or below every date of the group |
| Grouping.NewestDateAtLeast | utils/emailGrouping.ts:33-35 | the newest date is at or above every date of the group |
| Grouping.CountUnread | utils/emailGrouping.ts:25-27 | the unread count never exceeds the number of emails |
| Grouping.KeyMembersExact | utils/emailGrouping.ts:6-22 | the emails collected under a key are exactly the listing's emails with that lower-cased address, in order |
| Grouping.DistinctKeys | utils/emailGrouping.ts:4-19 | the map's keys are distinct, cover every email's lower-cased address, and each occurs in the listing |
| Grouping.DistinctKeysFirstOccurrence | utils/emailGrouping.ts:9-19 | the map's insertion order is the order in which the senders first appear |
| Grouping.GroupForIsGroupOf | utils/emailGrouping.ts:10-35 | the reference group of a key takes the sender's address and name from the first email seen, holds exactly that sender's emails, and has count, unread count and date range computed from them |
| Grouping.AccumulateIsReference | utils/emailGrouping.ts:6-36 | the loop builds one group per distinct key in first-occurrence order, each equal to the reference group of its key over the whole listing |
| Grouping.AccumulateSum | utils/emailGrouping.ts:22-23 | the email counts of all groups add up to the number of emails |
| Grouping.GroupingCorrect | utils/emailGrouping.ts:3-40 | grouping partitions the listing: every group is the group of its key, keys are distinct, every email's key has a group, counts add up to the listing's length, and the groups are ordered by count, greatest first |
| Grouping.GroupedConsistent | utils/emailGrouping.ts:21-35 | every produced group's count, unread count and date range agree with its emails |
| Grouping.GroupingStable | utils/emailGrouping.ts:39 | groups with equal counts keep the order in which their senders first appear (the sort is stable) |
| Grouping.SortKey | utils/emailGrouping.ts:44-59 | only the four options count, name, newest and oldest have a sort key, count's being the email count |
| Grouping.GroupEmailsBySender | utils/emailGrouping.ts:3-40 | the loop over the listing, filling an insertion-ordered map and then sorting, returns exactly the specified grouping |
| Grouping.MatchingGroups | utils/emailGrouping.ts:67-71 | the matching groups are an order-preserving subsequence holding exactly the groups whose name or address contains the term |
| Grouping.FilterSenderGroups | utils/emailGrouping.ts:61-72 | a blank term returns the groups unchanged; otherwise exactly the groups whose lower-cased name or address contains the lower-cased, untrimmed term, in order |
| Grouping.MatchingGroupsIdempotent | utils/emailGrouping.ts:67-71 | filtering the matches again with the same term changes nothing |
| Grouping.FilterIdempotent | utils/emailGrouping.ts:61-72 | searching a search result again with the same term changes nothing |
| Grouping.SortSenderGroups | utils/emailGrouping.ts:44-59 | the result is a permutation of the groups, ordered by count (descending), name rank (ascending), newest time (descending) or oldest time (ascending); any other option returns the copy unsorted |
| Grouping.SortSenderGroupsStable | utils/emailGrouping.ts:45-55 | groups that tie under the chosen order keep their relative order |
| Grouping.WithoutExact | utils/emailGrouping.ts:82 | the remaining emails are exactly those whose id was not trashed |
| Grouping.WithoutInOrder | utils/emailGrouping.ts:82 | the remaining emails keep their order in the group |
| Grouping.Recount | utils/emailGrouping.ts:88-101 | a group rebuilt from its remaining emails has count, unread count and date range consistent with them |
| Grouping.RemoveTrashedEmailsFromGroups | utils/emailGrouping.ts:74-104 | no more groups than before; every remaining group is consistent, non-empty and holds no trashed id |
| Grouping.RemoveTrashedFromInput | utils/emailGrouping.ts:80-103 | each remaining group is an input group with the trashed emails taken out and its figures recomputed, header and analysis kept |
| Grouping.RemoveTrashedInOrder | utils/emailGrouping.ts:74-104 | the remaining groups correspond, one to one and in increasing position, to the input groups with an email left, each being that group's remainder |
| Grouping.RemoveTrashedKeepsRemaining | utils/emailGrouping.ts:84-103 | every input group with an email left survives |
| Grouping.WithoutWithout | utils/emailGrouping.ts:78-82 | taking out ids a and then ids b is taking out a + b |
| Grouping.WithoutSameIds | utils/emailGrouping.ts:78 | only the set of trashed ids matters, not their order or repetition |
| Grouping.WithoutNone | utils/emailGrouping.ts:82 | taking out ids no email carries keeps the emails |
| Grouping.RemoveTrashedCompose | utils/emailGrouping.ts:74-104 | removing a and then b equals removing a + b at once |
| Grouping.RemoveTrashedSameIds | utils/emailGrouping.ts:78-103 | two id lists with the same members remove the same emails |
| Grouping.RemoveTrashedIdempotent | utils/emailGrouping.ts:74-104 | removing the same ids a second time changes nothing |
| Grouping.RemoveTrashedNothing | utils/emailGrouping.ts:74-104 | consistent groups with none of the ids come back unchanged |
| Grouping.RemoveTrashedAfterGrouping | utils/emailGrouping.ts:74-104 | after grouping and a trash, every remaining group holds exactly the remaining emails of its sender, in listing order |
| Grouping.RemainingEmailsKeepGroup | utils/emailGrouping.ts:80-103 | after grouping and a trash, every email that was not trashed still has its sender's group |
| Sorting.SortDesc | utils/emailGrouping.ts:39 | the sorted list is a permutation of the input |
| Sorting.SortDescSorted | utils/emailGrouping.ts:39 | the sorted list is ordered by key, greatest first |
| Sorting.SortDescStable | utils/emailGrouping.ts:39 | the elements sharing a key keep their input order |
| Seqs.ChunksCorrect | App.tsx:292-295 | the batches cover the list exactly, in order; none is empty or exceeds the size, all but the last are full, so there are ceil(n / size) of them |
| Text.ParseIntOfNatToString | server/services/yahooImapService.ts:244 | `parseInt` reads the decimal digits of a number back as that number |
| Coordinator.FindBySender | App.tsx:202 | a found group is in the list and has exactly the searched address |
| Coordinator.FindBySenderFirst | App.tsx:202 | the found group is the first with the address: no earlier group has it |
| Coordinator.FindBySenderNone | App.tsx:202-203 | nothing is found iff no group has that address |
| Coordinator.SelectedGroup | App.tsx:263 | the selected group exists only when a sender is selected, and has that address |
| Coordinator.FindEmail | App.tsx:264 | a found email is in the group and has the id |
| Coordinator.Succeeded | App.tsx:321 | no more ids are trashed than were requested |
| Coordinator.SucceededExact | App.tsx:321 | the trashed ids are exactly the requested ids not reported as failed |
| Coordinator.CollectIdsExact | App.tsx:241-249 | the collected ids are exactly the ids of the emails of the listed senders that still have a group |
| Coordinator.CollectIdsEmpty | App.tsx:241-253 | nothing is collected iff none of the listed senders has a group |
| Coordinator.Unanalyzed | App.tsx:287 | the emails left to analyse are no more than the group's emails |
| Coordinator.UnanalyzedExact | App.tsx:287 | the emails left to analyse are exactly those without a cached analysis, in order |
| Coordinator.WithResultsKeeps | App.tsx:298-302 | storing results adds exactly the results' ids to the cache keys and keeps every entry no result names |
| Coordinator.ApplyBatchesKeeps | App.tsx:292-303 | analysing batch after batch never removes a cache entry |
| Coordinator.AnalyzeAllBatches | App.tsx:286-303 | the batches cover the unanalysed emails exactly, in order, at most ten each, and none holds an email already analysed |
| Coordinator.SetAnalysis | App.tsx:210-214 | every group with the address gets the analysis, and every other group is unchanged |
| Coordinator.SetAnalysisKeeps | App.tsx:210-214 | attaching an analysis keeps every group's emails, address and consistency |
| Coordinator.SetAnalysisFind | App.tsx:210-214 | attaching an analysis does not change which addresses have a group |
| Coordinator.UntrashedStay | App.tsx:321-325 | an email whose id was not trashed is still in some group afterwards, so a partial failure never loses the failed emails |
| Coordinator.AppState.constructor | App.tsx:24-40 | the screen starts at sign-in with no groups, no selection, an empty cache and no error |
| Coordinator.AppState.LeaveStalePage | App.tsx:61-69 | a sender page whose group is gone returns to the list with no selection; otherwise nothing changes |
| Coordinator.AppState.ShowScanResult | App.tsx:144-179 | a fetched listing replaces the groups by its grouping and shows the list, leaving the error as it was; a failure keeps the groups and returns to sign-in with the error message, or the caller's default when the message is empty |
| Coordinator.AppState.Login | App.tsx:112-115 | the error is cleared first; a listing is grouped and shown with no error; a failure shows its message or "An unexpected error occurred during connection." |
| Coordinator.AppState.YahooLogin | App.tsx:117-142 | the error is cleared first; a listing is grouped and shown with no error; a failure shows its message or "Failed to connect to Yahoo Mail" |
| Coordinator.AppState.ScanAfterAuth | App.tsx:86-110 | a listing is grouped and shown, an earlier error kept; a failure shows its message or "Failed to connect to Gmail after authentication" |
| Coordinator.AppState.SelectSender | App.tsx:181-189 | opens the sender's page; a sender without a group falls back to the list |
| Coordinator.AppState.BackToGroups | App.tsx:191-198 | shows the list with no sender selected |
| Coordinator.AppState.Logout | App.tsx:408-421 | signs the mailbox out and clears the view, groups, selection, cache and error, leaving the mailbox's other fields alone |
| Coordinator.AppState.TrashEmails | App.tsx:312-343 | no ids is a no-op; otherwise one request; when anything was trashed, exactly the requested ids not reported as failed leave the groups and the cache, and with nothing trashed both are unchanged; a page whose group vanished returns to the list |
| Coordinator.AppState.DeleteIds | App.tsx:328-332 | the cache loses exactly the listed ids and keeps every other entry |
| Coordinator.AppState.TrashGroup | App.tsx:222-234 | a missing group is a no-op; otherwise one request with the ids of all the group's emails, after which the groups and the cache lose exactly the trashed ids when anything was trashed and are unchanged otherwise |
| Coordinator.AppState.TrashMultipleGroups | App.tsx:236-258 | nothing to collect is a no-op; otherwise one request with the collected ids, after which the groups and the cache lose exactly the trashed ids when anything was trashed and are unchanged otherwise |
| Coordinator.AppState.ViewEmailDetail | App.tsx:345-370 | opens the email only when it is in the selected sender's group; otherwise nothing changes |
| Coordinator.AppState.BackToSenderDetail | App.tsx:387-392 | closes the email and shows its sender's page, or the list if that group is gone |
| Coordinator.AppState.TrashFromEmailDetail | App.tsx:394-406 | with no open email nothing happens; otherwise one request for that id, the groups and the cache lose it if it was trashed, the email is closed, and the sender's page is shown unless the group vanished |
| Coordinator.AppState.AnalyzeEmail | App.tsx:260-280 | a cached id or an email outside the selected group is a no-op; otherwise one request for that email, and its first result alone is added under its id |
| Coordinator.AppState.AnalyzeAllEmails | App.tsx:282-310 | the selected group's uncached emails are sent ten at a time, and each batch's results are added to the cache |
| Coordinator.AppState.AnalyzeInBatches | App.tsx:290-303 | the batches sent are the consecutive slices of ten of the emails, and the cache afterwards has every batch's results stored in order |
| Coordinator.AppState.StoreResults | App.tsx:298-302 | the cache with each result stored under its email id, later results overriding earlier ones |
| Coordinator.AppState.AnalyzeGroup | App.tsx:200-220 | a missing or already analysed group is a no-op; otherwise the analysis is attached to every group with that address, and the view is unchanged |
| Mailbox.Failed | services/mailboxService.ts:482-492 | no more ids fail than were requested |
| Mailbox.CountFulfilled | services/mailboxService.ts:484-486 | the trashed count never exceeds the number of requests |
| Mailbox.FailedAppend | services/mailboxService.ts:482-492 | each answer adds its id to the failures or one to the count |
| Mailbox.FailedAccounting | services/mailboxService.ts:463-510 | every request is counted once, as trashed or as failed; the failed ids are the rejected ones in input order; none failed iff all were fulfilled |
| Mailbox.SettledResult | services/mailboxService.ts:503-510 | trashed plus failed equals the number of ids, and success holds iff nothing failed, iff every request was fulfilled |
| Mailbox.SettledResultCorrect | services/mailboxService.ts:503-510 | success iff no error message, and the failed ids are the rejected ids in order |
| Mailbox.YahooTrashResult | services/mailboxService.ts:421-457 | a transport or HTTP failure reports every id as failed with nothing trashed and an error; otherwise the backend's figures, with a missing failure list read as empty and an error iff something failed |
| Mailbox.SnippetDetail | services/mailboxService.ts:627-635 | a failed content request shows the listed email with the snippet as both bodies |
| Mailbox.GmailDetail | services/mailboxService.ts:568-636 | the HTML part is preferred for display and the text part for reading, each standing in for the other when empty; a single-part body (empty when it has no data) serves as both, with no attachments; a failure falls back to the snippet |
| Mailbox.YahooDetail | services/mailboxService.ts:638-672 | the backend's bodies and addresses are shown; a missing or empty body falls back to the snippet and missing attachments to none; a failure shows the snippet |
| Mailbox.MockDetail | services/mailboxService.ts:674-699 | the generated page is the body, the snippet the text, with no attachments |
| Mailbox.MailboxService.constructor | services/mailboxService.ts:37-44 | a new service is signed out in mock mode with the default client id and no Yahoo address |
| Mailbox.MailboxService.DataRoute | services/mailboxService.ts:409-418 | requests go to Gmail iff not mocking and the provider is Gmail, to the Yahoo backend iff not mocking, the provider is Yahoo and an address is set, and to the mock data otherwise |
| Mailbox.MailboxService.SearchRoute | services/mailboxService.ts:289-300 | searches never go to Yahoo; Yahoo accounts search the mock data |
| Mailbox.MailboxService.Connect | services/mailboxService.ts:46-71 | sets the provider name; replaces the client id only with a non-blank one; refuses Yahoo; signs in to Gmail for real unless the client id is a placeholder, in which case mock mode is used and sign-in succeeds |
| Mailbox.MailboxService.ConnectYahoo | services/mailboxService.ts:73-98 | succeeds iff the backend accepts, and then stores the address and signs in; a failure has a non-empty message and changes no state but the provider name |
| Mailbox.MailboxService.DisconnectYahoo | services/mailboxService.ts:100-116 | without a Yahoo address nothing changes; otherwise the address is cleared and the service signed out, whatever the backend says |
| Mailbox.MailboxService.FetchUnreadEmails | services/mailboxService.ts:175-221 | refused when signed out; otherwise the listing of the route's source: Gmail's answer, the mock data, or the backend's listing as it came, a backend failure keeping its message or taking the default one, never empty |
| Mailbox.MailboxService.SearchEmailsBySender | services/mailboxService.ts:289-300 | refused when signed out; otherwise the Gmail search or the mock data |
| Mailbox.MailboxService.FetchEmailContent | services/mailboxService.ts:551-566 | fails iff signed out; otherwise the content of the route's source, never failing |
| Mailbox.MailboxService.TrashOutcome | services/mailboxService.ts:391-419 | signed out: everything failed with the sign-in error; no ids: success with nothing trashed; otherwise the counts add up and success means no failure, except on the Yahoo route where the backend's figures are reported |
| Mailbox.MailboxService.TrashEmails | services/mailboxService.ts:391-419 | reports the specified outcome, changes no sign-in state, and sends Gmail ids in consecutive batches of five with one pause between batches |
| Mailbox.MailboxService.TallyBatch | services/mailboxService.ts:482-492 | adding one batch's answers in order extends the tally to the end of the batch |
| Mailbox.MailboxService.TrashRealGmail | services/mailboxService.ts:459-520 | an unusable client fails every id; otherwise the settled result, the batches are the consecutive slices of five, and there are ceil(n/5) - 1 pauses |
| ImapSessions.SessionId | server/services/yahooImapService.ts:39-41 | the session key is the address under ASCII lower-casing: the same length, with no capital letter |
| ImapSessions.SessionIdIgnoresCase | server/services/yahooImapService.ts:39-41 | addresses equal up to letter case have the same key, and the key of a key is itself |
| ImapSessions.AfterConnect | server/services/yahooImapService.ts:43-97 | a ready connection is stored as connected with the given password; an error leaves no session under the key; other sessions are untouched |
| ImapSessions.EnsureWithoutSession | server/services/yahooImapService.ts:104-106 | without a session the call fails with "No session found..." and changes nothing |
| ImapSessions.EnsureKeepsLiveSession | server/services/yahooImapService.ts:108-125 | a connected, authenticated session is returned unchanged with no new connection |
| ImapSessions.EnsureReconnectsOnce | server/services/yahooImapService.ts:109-122 | otherwise exactly one reconnection with the stored password: its connection is returned and stored, or the call fails with "Reconnection failed: " and the error |
| ImapSessions.EnsureSettles | server/services/yahooImapService.ts:100-126 | after a success, a second call with the connection still authenticated returns the same connection and changes nothing |
| ImapSessions.EncodeId | server/services/yahooImapService.ts:179 | a listed id is "yahoo-" followed by at least one character |
| ImapSessions.DecodeEncode | server/services/yahooImapService.ts:244 | decoding a listed id gives back its number |
| ImapSessions.DecodeRejectsNonNumber | server/services/yahooImapService.ts:244-247 | an id whose part after "yahoo-" starts with no digit, sign or white space does not decode, so it is rejected |
| ImapSessions.EncodeIdInjective | server/services/yahooImapService.ts:179 | different numbers get different ids |
| ImapSessions.DetailNumber | server/services/yahooImapService.ts:243-247 | an id is rejected with "Invalid message ID: <id>" iff it does not decode; otherwise its number |
| ImapSessions.DetailOfListedId | server/services/yahooImapService.ts:243-247 | every listed id is accepted and names its own number |
| ImapSessions.FetchRange | server/services/yahooImapService.ts:159-167 | an empty INBOX fetches nothing; otherwise the range ends at the total and starts at 1 or later, covering min(limit, total) messages for a positive limit; a limit below 1 gives a first number past the total (an inverted range, see Left out) |
| ImapSessions.FirstFetched | server/services/yahooImapService.ts:166 | the first fetched number is at least 1 and, for a positive limit, at most the total |
| ImapSessions.Labelled | server/services/yahooImapService.ts:178-219 | a listed email carries the id of its message and the parsed address and date |
| ImapSessions.Kept | server/services/yahooImapService.ts:221-223 | no more emails are listed than messages were fetched |
| ImapSessions.KeptExact | server/services/yahooImapService.ts:221-223 | exactly the messages with a sender address are listed |
| ImapSessions.Listing | server/services/yahooImapService.ts:159-235 | at most `limit` emails, newest first |
| ImapSessions.ListingWindow | server/services/yahooImapService.ts:166-223 | the listing holds exactly the emails with a sender among the last `limit` messages |
| ImapSessions.ReplyOf | server/services/yahooImapService.ts:359-363 | success iff no id failed |
| ImapSessions.TrashBySeqNo | server/services/yahooImapService.ts:331-357 | the loop as written: every id ends up trashed or failed |
| ImapSessions.SeqNoTrashMovesWrongMessage | server/services/yahooImapService.ts:343 | trashing the ids of the first two of three messages reports success for both but moves the first and the third |
| ImapSessions.Uids | server/services/yahooImapService.ts:343 | the UIDs of the INBOX, in order |
| ImapSessions.RemoveUidExact | server/services/yahooImapService.ts:343 | a move takes out exactly the message with that UID |
| ImapSessions.UidStep | server/services/yahooImapService.ts:334-353 | each id is appended to exactly one of trashed and failed, and a failure leaves the INBOX as it was |
| ImapSessions.Targets | server/services/yahooImapService.ts:334-338 | the decoded numbers are no more than the ids |
| ImapSessions.TargetsExact | server/services/yahooImapService.ts:334-338 | a number is a target iff some id decodes to it |
| ImapSessions.TargetsAppend | server/services/yahooImapService.ts:334-338 | the targets of a concatenation are the targets of each part in turn, so their order follows the ids |
| ImapSessions.TrashByUidAccounting | server/services/yahooImapService.ts:331-357 | every id ends up in exactly one of the two lists, duplicates included, so a failure never stops the rest |
| ImapSessions.TrashByUidInOrder | server/services/yahooImapService.ts:331-357 | the trashed ids and the failed ids each keep the order of the request |
| ImapSessions.TrashByUidMovesNamed | server/services/yahooImapService.ts:341-353 | a message leaves the INBOX iff a trashed id names its UID; each trashed id named a message of the INBOX |
| ImapSessions.TrashByUidSuccess | server/services/yahooImapService.ts:359-363 | when nothing failed, no message named by an id is left |
| ImapSessions.FailedFreeIsAll | server/services/yahooImapService.ts:359-363 | with no failure the trashed ids are all the ids, in order |
| ImapSessions.SessionManager.constructor | server/services/yahooImapService.ts:36 | the registry starts empty |
| ImapSessions.SessionManager.Disconnect | server/services/yahooImapService.ts:128-141 | the session under the address is removed if there is one; nothing else changes |
| ImapSessions.SessionManager.Connect | server/services/yahooImapService.ts:43-97 | the registry becomes the specified one; the reply succeeds iff the handshake did, iff the address has a session, and carries the error otherwise |
| ImapSessions.SessionManager.ConnectionLost | server/services/yahooImapService.ts:70-93 | the session under the address is marked not connected, and whether a session exists is unchanged |
| ImapSessions.SessionManager.EnsureConnected | server/services/yahooImapService.ts:100-126 | result and registry are the specified reconnection |
| ImapSessions.SessionManager.FetchEmails | server/services/yahooImapService.ts:149-238 | a connection error, then an INBOX error, then a fetch error (only when there are messages) is reported with its prefix; otherwise the listing of the window |
| ImapSessions.SessionManager.CollectFrom | server/services/yahooImapService.ts:178-223 | the emails collected over the fetched range are exactly the kept emails of that range, in INBOX order |
| ImapSessions.SessionManager.TrashEmails | server/services/yahooImapService.ts:319-366 | a connection or INBOX error is reported and moves nothing; otherwise the reply and the INBOX after the corrected loop |
| ImapSessions.SessionManager.MoveToTrash | server/services/yahooImapService.ts:331-357 | the loop computes the corrected trash tally |
| ImapSessions.ConnectIgnoresCase | server/services/yahooImapService.ts:39-41 | after connecting, the session is found under any spelling of the address, and disconnecting any spelling removes it |
| Fallbacks.SenderVerdict | services/geminiService.ts:81-101 | the whole rule table: Amazon or Uber gives notification, archive, medium; else Netflix, Spotify or Old Navy gives promotional, delete, low; else LinkedIn gives social, archive, low; otherwise personal, keep, high; brand names are case-sensitive |
| Fallbacks.SenderVerdictFirstRuleWins | services/geminiService.ts:85-91 | a sender naming Uber and Netflix gets the first rule: notification, archive, medium |
| Fallbacks.MockAnalysis | services/geminiService.ts:79-111 | one result per email, in order, naming its email, confidence 95 and the sender's verdict |
| Fallbacks.MockAnalysisAppend | services/geminiService.ts:79-80 | analysing a list in parts gives the analysis of the whole |
| Fallbacks.MockSenderGroupAnalysis | services/geminiService.ts:333-397 | Promotional iff a promotional pattern; Notification iff none of those but a notification pattern; Finance after both; Personal otherwise |
| Fallbacks.SenderGroupRecommendation | services/geminiService.ts:351-396 | each category has one recommendation and confidence: delete 85, archive 80, keep 90, review 60 |
| Fallbacks.SenderGroupIgnoresCase | services/geminiService.ts:338-339 | the verdict ignores the letter case of the name and address and the group's emails |
| Fallbacks.LongerThanThree | services/geminiService.ts:216-217 | only words longer than three characters are kept |
| Fallbacks.LongerThanThreeExact | services/geminiService.ts:216-217 | the kept words are exactly the words of more than three characters, in their order |
| Fallbacks.CommonCount | services/geminiService.ts:218 | the shared words are no more than the source's words |
| Fallbacks.CommonCountExact | services/geminiService.ts:218 | the count is the number of the source's word positions whose word the candidate has |
| Fallbacks.WordScore | services/geminiService.ts:220-221 | the word score is 0 iff there are no shared words, and at most 40 and 15 per word |
| Fallbacks.Score | services/geminiService.ts:205-243 | the uncapped score is at most 130 hundredths |
| Fallbacks.ReasonOfPositiveScore | services/geminiService.ts:206-249 | every positive score has a reason |
| Fallbacks.Similar | services/geminiService.ts:245-251 | a kept result names its candidate, with the score capped at 100 |
| Fallbacks.Matches | services/geminiService.ts:201-252 | at most one result per candidate |
| Fallbacks.MatchesExact | services/geminiService.ts:245-252 | the matches are exactly the candidates scoring at least 60, each with a score between 60 and 100 |
| Fallbacks.SameSenderScores | services/geminiService.ts:208-245 | the same sender plus one shared word is kept; the same sender alone is not |
| Fallbacks.OtherSenderScores | services/geminiService.ts:215-245 | another sender is kept iff shared words and the two patterns reach 60, never without a shared word or a pattern |
| Fallbacks.MockSimilarEmails | services/geminiService.ts:194-256 | the loop returns the matches sorted by descending score (stably) |
| Fallbacks.ScoreCandidate | services/geminiService.ts:205-243 | the loop body computes the candidate's score and reason |
| Fallbacks.Candidates | services/geminiService.ts:119 | the candidates exclude the source email by id |
| Fallbacks.AtLeast | services/geminiService.ts:184-185 | the model's results are filtered to scores of at least the threshold |
| Fallbacks.CandidatesExact | services/geminiService.ts:119 | the candidates are exactly the emails whose id differs from the source's, in order |
| Fallbacks.AtLeastExact | services/geminiService.ts:184-185 | the kept results are exactly those scoring at least the threshold, in order |
| Fallbacks.FindSimilarEmails | services/geminiService.ts:114-192 | no candidates give no results; no key or a failed reply gives the rule-based matches; a reply is filtered at 60 |
| Fallbacks.RulesExcludeSource | services/geminiService.ts:119-128 | the rules never offer the source email as similar to itself |
| Fallbacks.Classify | services/geminiService.ts:546-601 | the whole rule chain in order: promotions are neutral, low and need no reply; urgent subjects are critical iff they say "immediately" or "action required", else high, and need a reply; then finance (medium, no reply); then notification (low, no reply); otherwise personal and neutral, needing a reply at medium urgency iff the body asks a question, else low; urgent sentiment iff high or critical urgency |
| Fallbacks.ActionsForKinds | services/geminiService.ts:603-652 | two to four actions; a reply, with its draft, first iff a response is needed; unsubscribe then delete for promotions, archive otherwise; star iff high or critical |
| Fallbacks.ActionsForPriorities | services/geminiService.ts:603-652 | a tertiary forward comes last, and only the first action is primary |
| Fallbacks.SuggestActions | services/geminiService.ts:603-652 | the pushes build the specified action list: two to four actions; reply first iff a response is needed; unsubscribe then delete for promotions, archive otherwise; star iff high or critical; a tertiary forward last; only the first is primary |
| Fallbacks.FirstFive | services/geminiService.ts:660 | the first five items of a list, or all of them when fewer |
| Fallbacks.KeyPointsShape | services/geminiService.ts:685-691 | never empty and at most five; the single fallback iff no point applies; "Requires your response" first iff a response is needed |
| Fallbacks.NotedPoints | services/geminiService.ts:686-690 | the pushes give the specified points: response, finance, dates, amounts, attachments, each iff it applies |
| Fallbacks.KeyPoints | services/geminiService.ts:684-691 | the specified key points, with the fallback added only to an empty list: never empty; the single fallback iff no point applies; "Requires your response" first iff a response is needed; at most five |
| Fallbacks.MockEmailDetailAnalysis | services/geminiService.ts:535-704 | the classification, summary, the specified actions and the specified key points of the first five dates and amounts, and extracted info absent iff nothing was found, else at most five of each |

## Left out

- Rendering, scroll positions, the busy flags (`isTrashing*`, `isAnalyzing*`, `isProcessing`, processing stages) and the success banner's delay in App.tsx are presentation, not modelled. Coordinator.AppState.Logout does not model the removal of `gmail_access_token` from `sessionStorage` (App.tsx:410), a browser effect.
- The sign-in effect and the AI analysis of an open email (App.tsx:72-83, 372-385) are not modelled. The effect only calls `startScanningAfterAuth` (ScanAfterAuth). The service calls made by the sign-in handlers are those of `MailboxService`, and their result is the `fetched` parameter. Coordinator.AppState.Login, Coordinator.AppState.YahooLogin and Coordinator.AppState.ScanAfterAuth leave `mailbox` unchanged; the sign-in state that `connect` and `connectYahoo` set is modelled by Mailbox.MailboxService.Connect and Mailbox.MailboxService.ConnectYahoo.
- Coordinator.AppState.ShowScanResult: the error-object cases of `startScanning` (`idpiframe_initialization_failed`, `popup_closed_by_user`) are not modelled. A failure carries only a message, and an empty one gives the default text.
- Coordinator.AppState.ViewEmailDetail: the fetched content (`emailDetail`) is not state in this model; `fetchEmailContent` is modelled in `Mailbox`.
- The AI services are total function parameters. `analyzeEmailsWithGemini` and `analyzeSenderGroup` catch every error and fall back to the rules, so the handlers' own `catch` branches cannot run.
- Grouping.SortSenderGroups: `localeCompare` is an abstract rank on names, and `new Date(..).getTime()` is an abstract time function. An invalid date (NaN in JavaScript) is not modelled.
- Grouping.FilterSenderGroups: `toLowerCase` and the white space of `trim` follow Text; lower-casing is ASCII-only, and lengths count characters, not UTF-16 units.
- Text.Lower: `toLowerCase` is modelled on ASCII letters only, and lengths count characters, not UTF-16 units. Every use inherits this: Grouping.KeyMembersExact and Grouping.GroupEmailsBySender (the grouping key), ImapSessions.SessionId and ImapSessions.ConnectIgnoresCase (the session key), Fallbacks.MockSenderGroupAnalysis and Fallbacks.SenderGroupIgnoresCase, the similarity rules (Fallbacks.MockSimilarEmails, Fallbacks.Score), and Fallbacks.Classify. JavaScript also lowers non-ASCII letters, so "É@x.com" and "é@x.com" share one group and one session there but get two here, and "İ".toLowerCase() is two UTF-16 units long.
- Google sign-in (gapi and the OAuth popup) is a parameter of `Mailbox.MailboxService.Connect`. Every `fetch` to the backend, `atob` and the MIME part walk are left out; their results are parameters.
- `generateMockEmails`, `mockSearchBySender` and `generateMockSubject` are random. Their listings are parameters. `mockTrashEmails`'s random draw is the per-id outcome sequence, and the mock HTML body is a parameter of MockDetail.
- Timers and the order of concurrent requests are not modelled. A batch's `Promise.allSettled` is read as its answers in request order, and each pause is counted.
- `parseGmailMessage`, `fetchRealGmail` and `searchRealGmailBySender` are Gmail wire formats; their listings are parameters.
- The IMAP library, its events, `simpleParser`, the header regexes and `toISOString` are left out. A message is its UID and its parsed email, and the server's answers are parameters.
- ImapSessions.SessionManager.FetchEmails requires a limit of at least 1. A limit below 1 asks for an inverted range whose meaning depends on the server; FetchRange states it.
- ImapSessions.TrashByUid: an accepted id whose UID is no longer in the INBOX is counted as failed. A UID MOVE of a missing UID would be a no-op the server accepts, so the corrected loop reports such an id instead of claiming it was moved.
- ImapSessions.Labelled, ImapSessions.KeptExact, ImapSessions.Listing, ImapSessions.ListingWindow, ImapSessions.SessionManager.FetchEmails, ImapSessions.SessionManager.CollectFrom: ids are built from UIDs ("yahoo-<uid>"), the corrected protocol of the Findings table, not from sequence numbers as line 179 does.
- ImapSessions.SessionManager.TrashEmails: an exception thrown by a MOVE and a MOVE the server rejects both appear as a rejected answer in `accepted`.
- ImapSessions.SessionManager.ConnectionLost: the events of a replaced connection still clear the flag of the session now under the same key, as the handlers do. Which connection raised the event is not modelled.
- `fetchEmailDetail` is modelled only as far as its reading of the id (DetailNumber). Its fetch and MIME parse are the same library behaviour as above.
- The Express routes and server bootstrap are thin glue, not modelled.
- The Gemini network calls, prompts, schemas and JSON parsing are left out. The model's reply is a parameter of FindSimilarEmails.
- Fallbacks.MockEmailDetailAnalysis: the date, amount and link regexes are left out. What they find is a parameter, and only the five-item cap and the presence of the extracted info are modelled.
- Fallbacks.MockSimilarEmails: scores are exact hundredths, and the 0.6 threshold gives the same decisions as the JavaScript doubles for every reachable sum. Two scores that are equal in hundredths but different as doubles (0.5 + 0.3 and 0.4 + 0.2 + 0.2) are treated as a tie, so their order can differ from JavaScript's.

## Findings

| source | as written | input that shows it | evidently intended | confidence | as-written member | corrected member |
|---|---|---|---|---|---|---|
| server/services/yahooImapService.ts:343 | `trashEmails` moves each id's sequence number one at a time, with the ids made from sequence numbers at listing time (line 179). Each MOVE expunges the message and renumbers the later ones (section 7.4.1 of RFC 3501). | An INBOX with UIDs [10, 20, 30] lists 20 as `yahoo-2`. Trashing `yahoo-1` and `yahoo-2`, both accepted, reports success for both but moves 10 and 30 and leaves 20. | Move the messages the ids named: identify messages by UID (section 2.3.1.1 of RFC 3501), so later moves are unaffected | not executed | ImapSessions.TrashBySeqNo, ImapSessions.SeqNoTrashMovesWrongMessage | ImapSessions.TrashByUid, ImapSessions.TrashByUidMovesNamed (used by ImapSessions.SessionManager.TrashEmails); the listing builds UID ids in ImapSessions.Labelled, ImapSessions.KeptExact, ImapSessions.Listing, ImapSessions.ListingWindow, ImapSessions.SessionManager.FetchEmails and ImapSessions.SessionManager.CollectFrom |
