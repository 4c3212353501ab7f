# cozcaf-app admin panel: a verified model of its state logic

The panel is a React front end for a bulk WhatsApp-messaging business. It
keeps a contact roster and a selection from it, an order list, and the
message history. It lets the operator compose a message from templates and
send it, or schedule it, to the selected contacts. It also shows analytics
over the history. When Firebase is not configured, its data services fall
back to the browser's local storage.

This project models the logic behind those screens in Dafny. It states and
proves what each handler does to the state it owns.

- **Pure transitions** are Dafny functions. These are the page's
  `prev => next` updates, the selection checkboxes, the order-item form, the
  filters, the timeline and the status mappings.
- **Stateful parts** are imperative Dafny:
  - the add-contact dialog is a class whose handlers update its fields;
  - the composer is a class whose send loop keeps the progress counters and
    prepends one history entry per recipient;
  - the analytics passes that fill key-count objects are loops;
  - local storage is a class mapping keys to lists.

Three kinds of value are parameters, because the code draws them from the
environment:

- the clock (`Date.now()` ids, ISO times, locale date keys);
- the `Math.random` outcome of each simulated send;
- the result of parsing a `sentAt` string into milliseconds.

Modules, one per source file plus two shared ones:

- `Seqs`: the JavaScript array operations (`filter`, `findIndex`, `find`, `slice(-n)`), subsequences, first occurrences.
- `Text`: the ASCII string operations (case folding, `trim`, `includes`, global literal `replace`, digit stripping, `toString`, capitalising).
- `Page` (app/page.tsx), `ContactList`, `AddContactDialog`, `OrdersManagement`, `OrderDetails`, `MessageComposer`, `MessageHistory`, `AnalyticsDashboard`, `FirebaseServices`.

Four facts about the composer shape the model:

- It sends text only. There are no attachments.
- Sending is simulated. Each recipient gets exactly one attempt and one
  personalised history entry.
- History entries are prepended (`unshift`), so the newest entry comes first.
- A blank message or an empty selection is refused before anything else
  is checked.

## Model

| member | source | states |
|---|---|---|
| MessageComposer.TemplateIdsDistinct | components/message-composer.tsx:36-62 | No two templates share an id, so a lookup by id finds at most one template |
| MessageComposer.TemplateApplied | components/message-composer.tsx:74-79 | A known template id replaces the compose buffer wholesale with that template's content; an unknown id leaves the buffer unchanged |
| MessageComposer.Composer.ApplyTemplate | components/message-composer.tsx:74-79 | The message field becomes the template's content for a known id and is left alone otherwise |
| MessageComposer.SelectedContactsData | components/message-composer.tsx:72 | The recipients are exactly the roster contacts whose id is selected, each as often as it occurs in the roster, in roster order; selected ids without a contact are dropped |
| MessageComposer.RecipientsWithinSelection | components/message-composer.tsx:72 | With no id twice in the roster, there are never more recipients than selected ids |
| MessageComposer.PersonalizeWithoutTokens | components/message-composer.tsx:81-87 | A body without any of `{name}`, `{phone}`, `{date}` and `{time}` is sent exactly as written by the four global replacements |
| MessageComposer.Successes | components/message-composer.tsx:98-104 | The number of successful attempts never exceeds the number of attempts |
| MessageComposer.SendLog | components/message-composer.tsx:93-120 | One send writes exactly one entry per recipient |
| MessageComposer.SendLogAt | components/message-composer.tsx:107-118 | Position i of the log is the entry iteration i writes for recipient i |
| MessageComposer.SendEntryIsEntryFor | components/message-composer.tsx:108-117 | The entry written for one recipient names it, carries its personalised text, is "delivered" exactly on success and "failed" otherwise, and carries the iteration's time and scheduled flag |
| MessageComposer.SendLogEntries | components/message-composer.tsx:107-118 | Entry i names recipient i and carries the message personalised for it with that iteration's date and time. Its status is "delivered" exactly when attempt i succeeded and "failed" otherwise. Its `sentAt` and scheduled flag are the iteration's |
| MessageComposer.SendLogCounts | components/message-composer.tsx:100-118 | The delivered entries of a send number exactly the successes, the failed entries exactly the rest |
| MessageComposer.HistoryAfterOrder | components/message-composer.tsx:106-119 | Prepending each entry leaves the send's entries in reverse order ahead of the earlier history, which is kept intact; a non-empty send leaves the last recipient's entry first |
| MessageComposer.HistoryAfterStep | components/message-composer.tsx:118 | Each iteration's `unshift` puts its entry in front of the history built so far |
| MessageComposer.Composer.SimulateSending | components/message-composer.tsx:89-123 | Progress starts at total n with nothing sent and is active while running. It ends inactive, with `sent` the successes, `failed` the rest, and `sent + failed == total`. The history becomes the send's entries, newest first, ahead of the old history |
| MessageComposer.EnabledMeansNotIgnored | components/message-composer.tsx:289 | The send button is enabled exactly when no send is running and the handler would not ignore the press (the message is not blank and the selection is not empty) |
| Text.BlankIffAllSpace | components/message-composer.tsx:126 | `!message.trim()` holds exactly when every character of the message is white space |
| MessageComposer.Composer.SendAndClear | components/message-composer.tsx:154-155 | The immediate path leaves the progress and history the send loop produces and an empty message |
| MessageComposer.Composer.StoreScheduled | components/message-composer.tsx:134-150 | The scheduled path appends one scheduled message and resets message, date, time and the scheduled flag |
| MessageComposer.Composer.HandleSendMessage | components/message-composer.tsx:125-156 | A blank message or empty selection changes nothing, and neither does a scheduled send missing its date or time. A scheduled send appends exactly one scheduled message (raw text, recipients, the scheduled time, the creation time) and resets the form, leaving progress and history alone. An immediate send runs the send loop over the recipients and then clears the message. Every path keeps the composer's invariant: no send in flight between handlers, and sent + failed <= total |
| MessageComposer.Composer.constructor | components/message-composer.tsx:65-70 | The composer starts with an empty message, idle zero progress, no template, no schedule, and its invariant holds |
| Page.StatusNameInjective | app/page.tsx:31 | No two order statuses share a name, so comparing status strings compares statuses |
| Page.MergeOrder | app/page.tsx:100 | Spreading a partial order over an order: for each of the nine fields a present value wins and an absent one keeps the order's own; an empty update changes nothing |
| Page.MergeOrderIdempotent | app/page.tsx:100 | Spreading the same update twice is spreading it once |
| FirebaseServices.MergeContact | lib/firebase-services.ts:106 | Spreading a partial contact over a contact: for each of the five fields a present value wins and an absent one keeps the contact's own; an empty update changes nothing |
| FirebaseServices.MergeContactIdempotent | lib/firebase-services.ts:106 | Spreading the same contact update twice is spreading it once |
| Page.AddContact | app/page.tsx:76-83 | Exactly one contact, with the supplied id and date, is appended; earlier contacts are unchanged |
| Page.WithoutContact | app/page.tsx:86 | Exactly the contacts with that id are removed; every other contact stays as often as it occurred, in order |
| Seqs.FirstOccurrencesOrdered | components/analytics-dashboard.tsx:124-136 | The keys come out in insertion order: for any two keys, every occurrence of the later one follows an occurrence of the earlier one |
| Seqs.FilterDetermined | app/page.tsx:86 | Keeping the input's order and each accepted element's multiplicity determines a filter's result: nothing but the filter meets both, so the filter contracts fix their results |
| Page.Without | app/page.tsx:87 | Every occurrence of the id leaves the selection; every other id stays as often as it occurred, in order |
| Page.DeleteContact | app/page.tsx:85-88 | Deleting a contact removes it from the roster and its id from the selection; everything else stays, with its multiplicity and order |
| Page.DeleteUndoesAddContact | app/page.tsx:76-88 | Deleting a contact just added under a fresh id restores the roster |
| Page.AddOrder | app/page.tsx:90-97 | Exactly one order is appended, with the supplied id and date and the draft's customer id, name, phone, items, total, status and notes; earlier orders are unchanged |
| Page.UpdateOrder | app/page.tsx:99-101 | Length is kept; orders with another id are unchanged; every matching order gets the update merged over it |
| Page.UpdateOrderIdempotent | app/page.tsx:99-101 | Applying the same update twice equals applying it once |
| Page.WithoutOrder | app/page.tsx:103-105 | Exactly the orders with that id are removed; every other order stays as often as it occurred, in order |
| Page.DeleteUndoesAddOrder | app/page.tsx:90-105 | Deleting an order just added under a fresh id restores the list |
| Page.FilteredContacts | app/page.tsx:107-112 | A contact is kept iff its case-folded name contains the case-folded query, its phone contains the query, or some case-folded tag contains the case-folded query. Kept contacts appear as often as in the roster, in roster order |
| Page.EmptySearchShowsAll | app/page.tsx:107-112 | An empty search keeps every contact |
| ContactList.Ids | components/contact-list.tsx:20 | The shown contacts' ids, one per contact, in table order |
| ContactList.SelectAll | components/contact-list.tsx:18-24 | Checking selects the shown contacts' ids in order, as many as there are contacts; unchecking yields the empty selection |
| ContactList.SelectContact | components/contact-list.tsx:26-32 | Checking appends the id at the end without deduplicating; unchecking removes every occurrence and keeps every other id as often as it occurred, in order |
| ContactList.UncheckUndoesCheck | components/contact-list.tsx:26-32 | Checking a contact that was not selected and unchecking it restores the selection |
| ContactList.HeaderFlagsExclusive | components/contact-list.tsx:34-35 | The header is never both all-selected and indeterminate |
| ContactList.SelectAllSetsHeader | components/contact-list.tsx:18-35 | After select-all on a non-empty table the header is all-selected and not indeterminate; after clearing, neither flag is set |
| ContactList.AllSelectedMisreportsHiddenSelection | components/contact-list.tsx:34 | With a search hiding the selected contacts, the count comparison reports all selected although no shown contact is |
| ContactList.AllShownSelectedTracksSelection | components/contact-list.tsx:18-35 | The intended flag (every shown contact selected) is set by select-all and cleared by unchecking any shown contact |
| ContactList.AllSelectedAgreesWithoutHiddenSelection | components/contact-list.tsx:34 | When the selection holds only shown ids, none twice, the count comparison agrees with the intended flag in both directions |
| AddContactDialog.WithTagKeepsTagsWellFormed | components/add-contact-dialog.tsx:57-62 | Adding a tag keeps the list free of blank, untrimmed and duplicate tags |
| AddContactDialog.WithTagIdempotent | components/add-contact-dialog.tsx:57-62 | Adding the same input twice adds it once |
| AddContactDialog.WithoutTagKeepsTagsWellFormed | components/add-contact-dialog.tsx:64-66 | Removing a tag keeps the tag list well formed |
| AddContactDialog.ContactForm.constructor | components/add-contact-dialog.tsx:27-31 | A new form is empty with a well-formed (empty) tag list |
| AddContactDialog.ContactForm.AddTag | components/add-contact-dialog.tsx:57-62 | Accepts exactly a non-blank trimmed input not yet present: it appends the trimmed tag and clears the input. A rejected input leaves tags and input unchanged |
| AddContactDialog.ContactForm.RemoveTag | components/add-contact-dialog.tsx:64-66 | That tag is removed and the others keep their order |
| AddContactDialog.ContactForm.KeyPress | components/add-contact-dialog.tsx:68-73 | Enter behaves exactly like adding the tag; other keys change nothing |
| AddContactDialog.ContactForm.Submit | components/add-contact-dialog.tsx:33-55 | A blank name or phone changes nothing and submits nothing. Otherwise the trimmed name and phone and the tags are handed over, the fields are reset and the dialog closes |
| Text.TrimmedHasNoOuterSpace | components/add-contact-dialog.tsx:39-40 | The trimmed name and phone handed over neither start nor end with white space |
| OrdersManagement.FilteredOrders | components/orders-management.tsx:72-81 | An order is kept iff the search matches (case-folded name, phone or id contains the query) and the status filter is "all" or its status. Kept orders appear as often as in the list, in list order; with a status filter every kept order has that status |
| OrdersManagement.NoFilterShowsAllOrders | components/orders-management.tsx:72-81 | With status "all" and an empty query every order is kept |
| OrdersManagement.AddItem | components/orders-management.tsx:83-88 | One item is appended with the new id, an empty name, quantity 1 and price 0; existing items and other fields are unchanged |
| OrdersManagement.RemoveItem | components/orders-management.tsx:90-95 | Exactly the items with that id are removed; every other item stays as often as it occurred, in order; the other form fields are unchanged |
| OrdersManagement.ChangeItem | components/orders-management.tsx:97-102 | Length is kept; items with another id are unchanged; matching items get the one field changed |
| OrdersManagement.ChangeItemTouchesOneField | components/orders-management.tsx:97-102 | A change leaves the other three fields of every item as they were |
| OrdersManagement.TotalAdditive | components/orders-management.tsx:104-106 | The total over two concatenated item lists is the sum of their totals |
| OrdersManagement.AddItemKeepsTotal | components/orders-management.tsx:83-88 | Adding a blank item does not change the total |
| OrdersManagement.EmptyFormTotal | components/orders-management.tsx:63-70 | A fresh form's total is 0 |
| OrdersManagement.SubmitOrder | components/orders-management.tsx:108-124 | The order handed over carries the form's fields and the computed total. The form is reset to one default item with status pending |
| OrdersManagement.StatusPatch | components/orders-management.tsx:126-128 | The update carries only the new status: merged over any order it changes the status and nothing else |
| OrderDetails.CurrentStatusIndex | components/order-details.tsx:94-96 | The index is -1 exactly for a cancelled order; otherwise it is the status's position on the five-step timeline |
| OrderDetails.TimelineSteps | components/order-details.tsx:167-170 | The completed steps form a prefix. A status on the timeline makes exactly one step current, its own. A cancelled order has no completed and no current step |
| OrderDetails.WhatsAppPhone | components/order-details.tsx:100 | The link's phone is the customer phone's digits: each digit as often as in the phone, in order, and nothing else |
| OrderDetails.WhatsAppPhoneOfDigits | components/order-details.tsx:100 | A phone already written as digits only goes into the link unchanged |
| Text.DigitsOnly | components/order-details.tsx:100 | `replace(/[^0-9]/g, "")` keeps each digit as often as it occurs, in order, and drops every other character |
| OrderDetails.ShortId | components/order-details.tsx:114 | The short id is the last min(6, length) characters of the id |
| OrderDetails.StatusLabel | components/order-details.tsx:148 | The label is the status name with its first character upper-cased (an ASCII capital) and the rest unchanged |
| OrderDetails.NotesUpdate | components/order-details.tsx:89-92 | The update targets this order, carries only the notes, and ends editing |
| OrderDetails.StatusUpdate | components/order-details.tsx:85-87 | The update targets this order and carries only the new status |
| OrderDetails.NotesUpdateChangesOnlyNotes | components/order-details.tsx:89-92 | Sent to the page, the notes update changes the notes of this order and nothing else |
| MessageHistory.FilteredHistory | components/message-history.tsx:21-30 | An entry is kept iff its case-folded contact name or message, or its phone, contains the query, and its status matches or the filter is "all". Kept entries appear as often as stored, in stored order |
| MessageHistory.NoFilterShowsAllHistory | components/message-history.tsx:21-30 | With status "all" and an empty query every entry is kept |
| MessageHistory.StatusColorClassifies | components/message-history.tsx:45-56 | "delivered", "failed" and "pending" each have a colour of their own, and every other status shares the grey default |
| MessageHistory.IconClassifies | components/message-history.tsx:32-43 | The icons classify statuses the same way: one icon per known status, a grey clock for all others |
| MessageHistory.UnknownStatusIsGrey | components/message-history.tsx:32-56 | A status gets the grey colour and the grey clock exactly when it is not one of the three known statuses |
| AnalyticsDashboard.CountStatus | components/analytics-dashboard.tsx:43-44 | A status count is at most the history length and is 0 exactly when no entry has that status |
| AnalyticsDashboard.CountsWithinTotal | components/analytics-dashboard.tsx:43-45 | delivered + failed <= total messages |
| AnalyticsDashboard.Since | components/analytics-dashboard.tsx:48-53 | The window keeps exactly the entries sent at or after its start, each as often as stored, in stored order |
| AnalyticsDashboard.SinceShrinks | components/analytics-dashboard.tsx:48-53 | A later start keeps no more entries |
| AnalyticsDashboard.TimeRangesNest | components/analytics-dashboard.tsx:80-99 | The 7-, 30- and 90-day windows nest. Any range other than "30d" and "90d" selects the 7-day window |
| AnalyticsDashboard.DeliveryRate | components/analytics-dashboard.tsx:101-104 | The rate is 0 when there are no messages. Otherwise it is delivered/total percent, between 0 and 100 |
| AnalyticsDashboard.TimeRangeDeliveryRate | components/analytics-dashboard.tsx:101-104 | The window's rate is the delivery rate of the window's delivered count over its size: 0 for an empty window, otherwise a percentage between 0 and 100 |
| AnalyticsDashboard.AveragePerDay | components/analytics-dashboard.tsx:76 | The average is 0 exactly for an empty month and is otherwise the month's count over 30 |
| AnalyticsDashboard.Days | components/analytics-dashboard.tsx:124 | One date key per entry, in stored order |
| AnalyticsDashboard.TallyEntries | components/analytics-dashboard.tsx:107-117 | The tally lists each key once, in first-seen order, with its number of occurrences (at least 1) |
| AnalyticsDashboard.CountMapCounts | components/analytics-dashboard.tsx:109-115 | The filled key-count object has exactly the keys seen, each mapped to its number of occurrences |
| AnalyticsDashboard.CountKeys | components/analytics-dashboard.tsx:109-115 | The counting loop builds exactly that object, and its keys in first-seen order |
| AnalyticsDashboard.Tally | components/analytics-dashboard.tsx:107-116 | The object's entries are exactly the tally's entries |
| AnalyticsDashboard.TopOf | components/analytics-dashboard.tsx:62-65 | The chosen day is an entry (or the "N/A" seed) whose count is at least every entry's count; with no positive count it is ("N/A", 0) |
| AnalyticsDashboard.TopIsFirstMaximum | components/analytics-dashboard.tsx:62-65 | On ties the first entry wins: every entry before the chosen one has a strictly smaller count |
| AnalyticsDashboard.TopDayIsNAIffEmpty | components/analytics-dashboard.tsx:56-65 | The top day is "N/A" exactly when the history is empty, assuming no date key is literally "N/A" |
| AnalyticsDashboard.ComputeAnalytics | components/analytics-dashboard.tsx:40-78 | Totals, counts, rate, windows, top day and average are as defined above. delivered + failed <= total; week <= month <= total; the rate lies in [0, 100]; with no history the top day is "N/A" |
| AnalyticsDashboard.BucketCountsDay | components/analytics-dashboard.tsx:123-133 | In each day's bucket, delivered + failed equals the number of entries that day; any status other than "delivered" counts as failed |
| AnalyticsDashboard.DailyEntries | components/analytics-dashboard.tsx:120-136 | Entry i holds the i-th distinct day of the window in first-seen order, with that day's bucket. Every day of the window appears exactly once |
| AnalyticsDashboard.DailyMapDays | components/analytics-dashboard.tsx:123-127 | The `daily` object has a bucket for exactly the days seen |
| AnalyticsDashboard.DailyMapBuckets | components/analytics-dashboard.tsx:123-133 | Each day's bucket holds exactly that day's delivered and other entries |
| AnalyticsDashboard.DayOrderStep | components/analytics-dashboard.tsx:124-127 | An entry's day is appended to the key order exactly when `daily` has no bucket for that day yet |
| AnalyticsDashboard.FillDaily | components/analytics-dashboard.tsx:123-133 | The bucket-filling loop builds exactly the `daily` object, and its days in first-seen order |
| AnalyticsDashboard.DailyVolumeOf | components/analytics-dashboard.tsx:120-136 | Over the given entries, the result is the last seven daily entries (at most 7), and each bucket's delivered + failed is the number of those entries on its day |
| AnalyticsDashboard.DailyVolume | components/analytics-dashboard.tsx:120-136 | The chart is built from the selected window: the last seven daily entries of `timeRangeData` (at most 7), and each bucket counts only the window's entries on its day |
| AnalyticsDashboard.ContactGrowth | components/analytics-dashboard.tsx:107-117 | The growth list is the last six entries of the per-month tally of `addedDate`, at most 6 |
| FirebaseServices.Store.constructor | lib/firebase-services.ts:17-53 | A store holds the given lists |
| FirebaseServices.Store.Get | lib/firebase-services.ts:18-22 | Reading an absent key, or reading outside a browser, yields the empty list; otherwise the stored list |
| FirebaseServices.Store.Save | lib/firebase-services.ts:24-28 | In a browser, reading the saved key gives back the saved list. Every other key reads as before. Outside a browser nothing changes |
| FirebaseServices.ReplaceFirst | lib/firebase-services.ts:104-106 | Length is kept; only the first element matching is replaced; with no match the list is unchanged |
| FirebaseServices.ReplaceFirstIsUpdateWhenIdsUnique | lib/firebase-services.ts:207-215 | When order ids are unique, the store's first-match update equals the page's update of every match |
| FirebaseServices.DeleteUndoesPrepend | lib/firebase-services.ts:123-127 | Deleting a contact just prepended under a fresh id restores the list |
| FirebaseServices.LocalAddContact | lib/firebase-services.ts:79-85 | The contact, stamped with the new id and date, is prepended; the list grows by one; that id is returned; other keys are untouched |
| FirebaseServices.LocalUpdateContact | lib/firebase-services.ts:102-110 | Only the first contact with the id gets the updates merged; length is kept; with no such contact nothing is written |
| FirebaseServices.LocalDeleteContact | lib/firebase-services.ts:123-127 | Every contact with the id is removed, the rest keep their order |
| FirebaseServices.LocalAddOrder | lib/firebase-services.ts:184-190 | The order, stamped with the new id and date, is prepended; the list grows by one; that id is returned |
| FirebaseServices.LocalUpdateOrder | lib/firebase-services.ts:207-215 | Only the first order with the id gets the updates merged; length is kept; with no such order nothing is written |
| FirebaseServices.LocalDeleteOrder | lib/firebase-services.ts:228-232 | Every order with the id is removed, the rest keep their order |
| FirebaseServices.LocalAddMessage | lib/firebase-services.ts:288-294 | The entry, with the fresh id and `sentAt`, is prepended and that id returned |

## Left out

- JSX, styling, icons, dialogs and tabs, `alert`, `window.open`, and app/layout.tsx are presentation only.
- lib/firebase.ts is not part of this model: it is configuration and SDK set-up.
- The Firestore branches, the `onSnapshot` subscriptions and `fileService` are calls into Firebase. This includes the "contacts-cozcaf" vs "contacts" collection names. The local `subscribeTo…` branches pass the stored list to the callback, which is `FirebaseServices.Store.Get`.
- components/image-managements.tsx is calls into Firebase Storage with no local logic.
- `setTimeout` delays, React batching and `useEffect` persistence are not modelled. Each handler is one atomic transition, and the composer's `history` field stands for the stored history list.
- JSON round-tripping is not modelled. Each storage key holds a list of one element type, so there is one `Store` per type.
- `toLocaleDateString`, `toLocaleTimeString`, `toLocaleString`, `toISOString`, `Intl.NumberFormat` and `encodeURIComponent` are given values or functions. So is the parsing of dates.
- The text of the WhatsApp link message is not modelled, only its phone and short id. The same holds for the scheduled-message alert.
- Case folding and white space are ASCII. Unicode `toLowerCase` and `trim` are not modelled.
- `String.replace` treats `$` patterns in a replacement string specially; replacements here are literal.
- Prices and totals are integers (cents), not floating point. Percentages and averages are `real`, without rounding. The progress-bar width, which divides by `total` unguarded, is not modelled.
- `Object.entries` lists integer-like keys first in ascending order. The tallies take date and month keys to be non-integer-like, so entries come in first-seen order.
- The `profile`, `wa_id` and `createdAt` fields the dialog adds to the submitted record are not declared on `Contact`. They are left out, and so is the `addedDate` that the store's `addContact` overwrites.
- The `Date.now()` ids are not guaranteed to be unique. Lemmas that need fresh or unique ids say so in their preconditions.
- MessageComposer.Composer.HandleSendMessage: needs one attempt per recipient even on the paths that send nothing, because the outcomes are an input.

## Findings

| source | as written | input that shows it | evidently intended | confidence | as-written member | corrected member |
|---|---|---|---|---|---|---|
| components/contact-list.tsx:34 | `isAllSelected` compares the selection's length with the number of shown contacts. The page passes the searched list as the shown contacts (app/page.tsx:197) but the whole selection | Contacts 1-4 with 1 and 2 selected; a search shows only 3 and 4. The header reports all selected though neither shown contact is | The header is checked when every shown contact is selected | medium; not executed | ContactList.AllSelectedMisreportsHiddenSelection | ContactList.AllShownSelectedTracksSelection |
