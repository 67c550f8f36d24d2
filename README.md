# MediAlert core, modelled in Dafny

MediAlert is a web app for tracking one's medicines. Each medicine record has:
- a name and a dosage;
- a list of daily `HH:MM` reminder times;
- an optional expiry date, barcode, description, "used for" text and precautions;
- a reminder switch.

This project models the logic behind the app's screens and hooks:

- **The reminder loop** (`useReminders`). Once a minute it compares every enabled medicine's schedule with the current `HH:MM`. It fires each due slot at most once a day, by remembering the key `id-time-date`, and then forgets every key that does not mention today's date string. A browser notification is shown only when permission was granted.
- **The medicine list** (`useMedicines`). This is the client copy of the user's records, reconciled with the record store after fetch, insert, update and delete. Insert, update and delete are function parameters that map the request to its outcome. The fetch receives the store's answer as a plain outcome value. The list changes only on success.
- **The drug-information lookup** (`useMedicineInfo`).
  - It sends an exact label query and, when that response is not ok, a lenient one.
  - It parses the first label into a record with fixed placeholders for missing fields.
  - A barcode lookup goes through the product catalogue first.
  - The hook's `loading` and `error` fields are updated along the way.
- **The add/edit form** (`MedicineForm`).
  - The required-field schema, and loading a record into the form.
  - The submit mapping, where a blank optional field becomes null.
  - The schedule editor, which keeps the times sorted by JavaScript's default string order and free of duplicates.
  - Filling the fields from a name search or a barcode scan.
- **The dashboard** (`Dashboard`). The case-insensitive search filter, the expiring, expired and active-reminder counts, and the handlers that open the form, submit it, and confirm or cancel a delete.
- **The medicine card** (`MedicineCard`). The expiry flags, the days-until-expiry value, the banner, the border colour, the reminder badge and the schedule badges.
- **The information dialog** (`MedicineInfoDialog`). Whether to show the stored information, with placeholders, or to run a lookup, and which panel is shown.

Three JavaScript behaviours are kept as written:
- `a || b` on strings treats `""` as absent.
- An empty array is truthy.
- `if (deleteId)` is false for `""`.

Modules:
- `Records`: shared records, `Option` and `Remote`.
- `Text`: substring search, ASCII lower-casing, decimal digits and padding.
- `Seqs`: `Array.prototype.filter` and subsequences.
- `StringSort`: the default `Array.prototype.sort` on strings.
- `Reminders`, `Medicines`, `MedicineInfo`, `MedicineForm`, `Dashboard`, `MedicineCard` and `InfoDialog`: one module per core file.

Code whose source updates state in place is modelled as a class, with one method per handler. Methods that compute a list, a key set, form values or a lookup result are proved equal to a specification function, and the lemmas are stated about those functions. The simple handlers state their new field values directly.

## Model

| member | source | states |
|---|---|---|
| Reminders.CurrentTimeFormat | useReminders.ts:54 | For a clock reading, the current time string is exactly `HH:MM`: two zero-padded hour digits, a colon and two zero-padded minute digits. |
| Reminders.CurrentTimeInjective | useReminders.ts:54 | Different clock readings give different time strings, so a slot matches exactly one minute of the day. |
| Reminders.ReminderKey | useReminders.ts:61 | The de-duplication key `id-time-day` ends with the day's date string. |
| Reminders.NoticeOf | useReminders.ts:33-38 | The tag is the de-duplication key without its `-day` part. The body starts with "Time to take NAME (" and ends with "DOSAGE)". |
| Reminders.ScanScheduleEffect | useReminders.ts:60-67 | Within one medicine, only entries equal to the current time matter. However often that time is listed, the slot fires at most once, and only when its key was not yet remembered. |
| Reminders.ScanAllChecked | useReminders.ts:57-68 | A pass over all medicines adds exactly the keys of the due slots (enabled medicines that list the current time). |
| Reminders.ScanAllFiredKeys | useReminders.ts:57-68 | The slots fired in a pass are exactly the due slots whose keys were not remembered before. |
| Reminders.ScanAllDistinct | useReminders.ts:57-68 | No two notifications of one pass share a key. |
| Reminders.ScanAllSound | useReminders.ts:57-68 | Every notification is for an enabled medicine of the list that is scheduled at the current time. |
| Reminders.ScanAllEffect | useReminders.ts:57-68 | Both halves together: the remembered keys after the pass, and the keys of the slots fired. |
| Reminders.Evict | useReminders.ts:70-77 | The clean-up keeps exactly the keys that contain today's date string. |
| Reminders.TickRetention | useReminders.ts:52-78 | After a tick every remembered key mentions today. Remembered keys that mention today are kept, and so is every key of the current minute's due slots. |
| Reminders.DisabledIgnored | useReminders.ts:58 | A medicine with reminders off changes nothing: the tick is the same without it. |
| Reminders.TickIdempotent | useReminders.ts:52-78 | A second tick in the same minute of the same day fires nothing and leaves the key set unchanged. The per-minute interval and the immediate check therefore never repeat a notification. |
| Reminders.TickKeepsDay | useReminders.ts:61-77 | During one day, ticks keep every remembered key a key of that day. |
| Reminders.TickKeepsDays | useReminders.ts:52-78 | If every remembered key ends with one of a set of date strings, then after a tick every key ends with one of those strings or the tick's own date string. |
| Reminders.NewDayRefires | useReminders.ts:55-77 | Suppose every remembered key ends with one of some earlier date strings, all of the new date string's length. Then on a date string not among them, no remembered key blocks a slot, and the slots fired are exactly the due slots. |
| Reminders.RunTicksKeysOfDays | useReminders.ts:52-92 | Over a whole session of ticks, every remembered key ends with the date string of some tick of the session. |
| Reminders.SessionNewDayRefires | useReminders.ts:52-92 | After any session of ticks, the first tick on a date string not seen before (of the same length as all the others) fires every due slot, however many day changes came before. |
| Reminders.ReminderLoop.constructor | useReminders.ts:7-8 | The loop starts without permission and with no remembered keys. |
| Reminders.ReminderLoop.RequestPermission | useReminders.ts:10-28 | Unsupported means false and nothing is recorded. If permission is already granted, the flag is set. Only the default state prompts, and the flag becomes "answer is granted". A denied permission returns false and leaves the flag as it was. |
| Reminders.ReminderLoop.SendNotification | useReminders.ts:30-50 | A notice is shown exactly when permission was granted. |
| Reminders.ReminderLoop.CheckSchedule | useReminders.ts:60-67 | The inner loop leaves the keys and the fired slots that `ScanSchedule` specifies. It shows their notices when permission is granted, and nothing otherwise. |
| Reminders.ReminderLoop.CheckMedicines | useReminders.ts:57-68 | The outer pass over the medicines leaves the key set and the fired slots that `ScanAll` specifies, and shows their notices only with permission. |
| Reminders.ReminderLoop.RemoveStaleKeys | useReminders.ts:70-77 | Collecting the stale keys and then deleting them leaves `Evict` of the old key set. |
| Reminders.ReminderLoop.CheckReminders | useReminders.ts:52-78 | One tick at `hour:minute` on `day` leaves the key set and the fired sequence that `Tick` specifies. Notices are shown only with permission. |
| Medicines.Prepend | useMedicines.ts:78 | The inserted record comes first, followed by the old list. |
| Medicines.ReplaceById | useMedicines.ts:106 | The list keeps its length. Every record with the id becomes the returned record, and every other record is unchanged. |
| Medicines.RemoveByIdEffect | useMedicines.ts:132 | Deleting keeps exactly the records with another id, in their order. It leaves the list unchanged when no record has the id. |
| Medicines.RemoveByIdCopies | useMedicines.ts:132 | Deleting keeps every copy of each record with another id, and no record with the id, so no duplicate is lost. |
| Medicines.ReplaceAbsentId | useMedicines.ts:106 | Updating an id that no record has leaves the list as it is. |
| Medicines.RemoveAfterReplace | useMedicines.ts:95-147 | When the returned record keeps its id, deleting after an update equals deleting: an update never duplicates or resurrects a record. |
| Medicines.MedicineRegistry.constructor | useMedicines.ts:35-36 | The list starts empty and loading. |
| Medicines.MedicineRegistry.FetchMedicines | useMedicines.ts:40-61 | Without a user nothing changes. With a user, loading ends. On success the list becomes the returned rows, or empty for null data. On failure the list is kept. |
| Medicines.MedicineRegistry.AddMedicine | useMedicines.ts:63-93 | Without a user the result is null and the list is unchanged. Otherwise the row carries the user's id; on success the stored record is returned and prepended, and on failure the result is null and the list is kept. |
| Medicines.MedicineRegistry.UpdateMedicine | useMedicines.ts:95-121 | On success the returned record replaces the records with the id and is returned. On failure the result is null and the list is kept. |
| Medicines.MedicineRegistry.DeleteMedicine | useMedicines.ts:123-147 | The result is true exactly when the store confirms. Only then are the records with the id removed. |
| MedicineInfo.Parse | useMedicineInfo.ts:50-66 | No result exactly when `results` is missing or empty. Purpose, warnings and dosage text are never empty. The name is non-empty for a non-empty query. |
| MedicineInfo.ParseSources | useMedicineInfo.ts:56-65 | Each field comes from its first non-empty source in the order the code tries them, ending in the query or the fixed placeholder. Ingredients are the first array present, even an empty one. |
| MedicineInfo.ThrownMessage | useMedicineInfo.ts:42 | A thrown Error gives its message; any other thrown value gives "Failed to fetch medicine information". |
| MedicineInfo.ParseOutcome | useMedicineInfo.ts:50-54 | A parse ends either with a record and no error, or with no record and "Medicine not found in database". |
| MedicineInfo.ProductName | useMedicineInfo.ts:87 | The product is named by its brand when that is non-empty, else by its generic name when that is non-empty, else by the barcode. |
| MedicineInfo.SearchOutcomes | useMedicineInfo.ts:15-48 | A search ends with a record exactly when it ends without an error. Two not-ok responses mean "not found". The lenient query is used only after a not-ok exact response. |
| MedicineInfo.BarcodeFallback | useMedicineInfo.ts:68-101 | A not-ok catalogue answer falls back to a name search of the barcode. A thrown error gives the barcode-failure message, and an empty catalogue answer the product-not-found message. A record is found exactly when there is no error. |
| MedicineInfo.Lookup.constructor | useMedicineInfo.ts:12-13 | Not loading, no error. |
| MedicineInfo.Lookup.ParseResponse | useMedicineInfo.ts:50-66 | Returns `Parse`. When nothing is found it sets the not-found error, and otherwise leaves the error as it was. |
| MedicineInfo.Lookup.SearchMedicine | useMedicineInfo.ts:15-48 | The record and the error left behind are those of `Search`, and loading is off. |
| MedicineInfo.Lookup.SearchByBarcode | useMedicineInfo.ts:68-101 | The record and the error left behind are those of `ByBarcode`, and loading is off. |
| StringSort.Sort | MedicineForm.tsx:96 | The default sort returns a permutation of its input, in ascending character order, a proper prefix first. |
| MedicineForm.SchemaErrors | MedicineForm.tsx:30-39 | The values are accepted exactly when name and dosage are non-empty. Each missing field has its own message. |
| MedicineForm.NullIfBlank | MedicineForm.tsx:140-144 | A blank value becomes null; any other value is kept. |
| MedicineForm.SubmitMapping | MedicineForm.tsx:132-150 | The submitted input passes name, dosage, the reminder switch and the schedule through. Each optional field is null exactly when it was blank. |
| MedicineForm.LoadSubmitRoundTrip | MedicineForm.tsx:75-150 | Loading a record and submitting it unchanged gives back its fields, with a stored blank turned into null. |
| MedicineForm.SubmitLoadRoundTrip | MedicineForm.tsx:77-86 | Loading a record stored from submitted values restores those values. |
| MedicineForm.AddTimeEffect | MedicineForm.tsx:94-99 | A blank or already-listed time changes nothing. Otherwise the result is the old times plus the new one, sorted. From a sorted, duplicate-free list it is that list with the time inserted in place. |
| MedicineForm.RemoveTimeEffect | MedicineForm.tsx:101-103 | Removing a time drops every copy of it and keeps the other times in order, every copy of each. The list stays sorted and duplicate-free. |
| MedicineForm.FillFromSearch | MedicineForm.tsx:105-117 | A found record sets the purpose and the precautions. Its dosage text fills the description only when that is blank. Name, dosage, barcode, expiry date and the reminder switch are kept. Without a record nothing changes. |
| MedicineForm.FillFromScan | MedicineForm.tsx:119-130 | The barcode is always recorded. A found record overwrites the name, purpose, precautions and description; the reminder switch is kept. |
| MedicineForm.LastEdited | MedicineForm.tsx:75-92 | The medicine most recently opened for editing is one of the edited ones, and there is none exactly when every load was for adding. |
| MedicineForm.LoadsAsWritten | MedicineForm.tsx:75-92 | As written, after any series of loads the form shows the most recently edited medicine's values (the defaults only if none was edited), and those are also what a bare `reset()` restores. |
| MedicineForm.AddAfterEditPrefilled | MedicineForm.tsx:75-92 | As written, editing a medicine with a name and then opening the form to add shows that medicine's values, not the defaults. |
| MedicineForm.LoadsKeepingDefaults | MedicineForm.tsx:75-92 | With the stored defaults kept, they stay the `useForm` defaults; an edit shows the edited record and every other load shows a blank form. |
| MedicineForm.FormState.constructor | MedicineForm.tsx:55-73 | The default values, which are also the stored defaults, no times, and an empty new-time field. |
| MedicineForm.FormState.Load | MedicineForm.tsx:75-92 | The code as written. Editing loads the record's values and times and makes those values the stored defaults. Otherwise the form shows the stored defaults (the last edited record's values, if any) with no times. |
| MedicineForm.FormState.SetNewTime | MedicineForm.tsx:56 | Only the pending time changes. |
| MedicineForm.FormState.HandleAddTime | MedicineForm.tsx:94-99 | The times become `AddTime` of the old times. The pending time is cleared exactly when it was added. |
| MedicineForm.FormState.HandleRemoveTime | MedicineForm.tsx:101-103 | The times become `RemoveTime` of the old times. |
| MedicineForm.FormState.HandleSubmit | MedicineForm.tsx:132-150 | The form submits exactly when the schema accepts the values, and then hands on `ToInput` of the values and times. |
| MedicineForm.FormState.HandleSearchInfo | MedicineForm.tsx:105-117 | A blank name changes neither the values nor the lookup's error and loading flag. Otherwise the values become `FillFromSearch` of the lookup's result, the lookup's error is the search's, and loading is off. The stored defaults are kept. |
| MedicineForm.FormState.HandleBarcodeScan | MedicineForm.tsx:119-130 | The values become `FillFromScan` of the barcode lookup's result, the lookup's error is the lookup's own, and loading is off. The stored defaults are kept. |
| Dashboard.FilteredMedicinesEffect | Dashboard.tsx:36-40 | The filter keeps, in order, exactly the medicines whose lower-cased name or dosage contains the lower-cased query. An empty query keeps them all. |
| Dashboard.FilteredMedicinesCopies | Dashboard.tsx:36-40 | The filter keeps every copy of each matching medicine and no copy of any other. |
| Dashboard.CountBounds | Dashboard.tsx:42-56 | Expiring (0 to 7 days) and expired (below 0) never overlap, so together they never exceed the total. Neither does the active-reminder count. The dashboard's "expiring" is the card's "expiring soon and not expired". |
| Dashboard.DashboardState.constructor | Dashboard.tsx:26-29 | The form is closed, and nothing is edited, pending deletion or shown. |
| Dashboard.DashboardState.HandleAdd | Dashboard.tsx:58-61 | The form opens with no medicine to edit. |
| Dashboard.DashboardState.HandleEdit | Dashboard.tsx:63-66 | The form opens on the given medicine. |
| Dashboard.DashboardState.CloseForm | Dashboard.tsx:204-207 | The form closes and nothing is left to edit. |
| Dashboard.DashboardState.RequestDelete | Dashboard.tsx:193 | The card's id becomes the pending deletion. |
| Dashboard.DashboardState.CancelDelete | Dashboard.tsx:220 | The pending deletion is dropped. |
| Dashboard.DashboardState.ViewInfo | Dashboard.tsx:194 | The information dialog opens on the medicine. |
| Dashboard.DashboardState.CloseInfo | Dashboard.tsx:216 | The information dialog closes. |
| Dashboard.DashboardState.HandleFormSubmit | Dashboard.tsx:68-74 | When editing, the list is reconciled as an update of the edited id. Otherwise it is reconciled as an insert for the user. The list's loading flag is left as it was. |
| Dashboard.DashboardState.HandleDelete | Dashboard.tsx:76-81 | With a non-blank pending id, the store's delete is applied and the pending id is cleared. Otherwise nothing changes. The list's loading flag is left as it was either way. |
| MedicineCard.DaysUntilExpiry | MedicineCard.tsx:41-43 | Null exactly when there is no expiry date; otherwise the day difference. |
| MedicineCard.ExpiryFlags | MedicineCard.tsx:33-43 | Both flags are read off the day difference. Without a date there is neither flag. An expired medicine is also "expiring soon". |
| MedicineCard.BorderOf | MedicineCard.tsx:52 | The border is red exactly when expired, yellow exactly when expiring and not expired, and plain otherwise. |
| MedicineCard.Banner | MedicineCard.tsx:53-58 | A banner is shown exactly when either flag holds, and it reads "EXPIRED" when expired. |
| MedicineCard.BannerCountdown | MedicineCard.tsx:56 | A banner that is not "EXPIRED" reads "Expires in N days", where N is the single digit 0 to 7. |
| MedicineCard.ReminderBadge | MedicineCard.tsx:69-75 | The badge reads "On" exactly when reminders are enabled, and "Off" otherwise. |
| MedicineCard.ScheduleViewOf | MedicineCard.tsx:84-92 | There is one badge per stored time, in stored order. An empty schedule shows "No schedule set". |
| InfoDialog.StoredInfo | MedicineInfoDialog.tsx:33-39 | The stored information, with "Not available", "No specific warnings" and "Consult your doctor" for blank fields and no ingredients. Its text fields are never empty. |
| InfoDialog.ActionOf | MedicineInfoDialog.tsx:29-47 | Nothing happens unless the dialog is open on a medicine. Stored "used for" text or precautions are shown; otherwise the medicine's name is looked up. |
| InfoDialog.NextInfo | MedicineInfoDialog.tsx:29-47 | The dialog's information is kept, set to the stored record, or set to the lookup's result (possibly null), following `ActionOf`. |
| InfoDialog.DialogOutcome | MedicineInfoDialog.tsx:29-78 | Once loading is over, a lookup that finds nothing leaves an error, shown unless its text is empty. A lookup that finds a record leaves no error and shows the record. Stored information is shown whatever error an earlier lookup left. |
| InfoDialog.PanelOf | MedicineInfoDialog.tsx:65-78 | The spinner wins while loading. Next comes a non-empty error without information, then the information, then nothing. |

## Left out

- The clock and the calendar are inputs:
  - `checkReminders` receives the hour, the minute and `toDateString()`'s result.
  - The card and the dashboard receive `differenceInDays(parseISO(date), now)` as a function from the date string to an integer.
  - An unparsable date (NaN days, for which every comparison is false) is not modelled.
- `setInterval`, the effect that calls `requestPermission` on mount, and the interleaving of asynchronous calls are not modelled. Each handler runs to completion as one step, and a lookup's answer is applied at once.
- The notification's icon, `requireInteraction`, its click handler and the in-app toasts are left out. A shown notification is a `Notice` value (title, body and tag).
- Console output and the success and error toasts of `useMedicines` are left out.
- The store's query, its `created_at` ordering and its row filtering are the remote's business. The fetch's answer is an input value (`Ok` with the rows, or `Err`). Insert, update and delete are functions from the request to `Ok`/`Err`.
- Medicines.MedicineRegistry.UpdateMedicine: the payload is a full `MedicineInput`, not a `Partial<MedicineInput>`. The only caller (the dashboard) always passes a full input.
- `schedule_times` is declared as a non-null array, so the form's `schedule_times || []` is the identity and is modelled as such.
- StringSort.Sort: compares Unicode code points, whereas JavaScript's default sort compares UTF-16 code units. The two orders differ only for characters outside the Basic Multilingual Plane (`"\u{1F600}"` sorts after `"\uFF01"` here but before it in JavaScript). Schedule times are ASCII `HH:MM`, where they agree.
- Text.Lower: lower-cases ASCII letters only, not the full Unicode case mapping of `toLowerCase`.
- The request URLs, `encodeURIComponent`, the JSON decoding of responses and the order links are left out. An HTTP response is `NotOk`, `Success(body)` or `Throws(value)`.
- `clearError`, `refetch`, the scanner visibility flag, the `submitting` flag, and the form's closing after submit are not modelled. They are presentation state with no logic beyond a single assignment.
- The `BarcodeScanner` component and the marketing and navigation pages are not part of this model.
- Dashboard: the `loading` spinner and the empty-list messages of the grid are presentation only.
- Formatting of the expiry date (`MMM dd, yyyy`) is left out.

## Findings

| source | as written | input that shows it | evidently intended | confidence | as-written member | corrected member |
|---|---|---|---|---|---|---|
| MedicineForm.tsx:75-92 | `form.reset(values)` on edit also replaces the form library's stored defaults, so the bare `form.reset()` used for adding restores the last edited record | Edit a medicine named "Aspirin", close the dialog, then press Add: the form opens filled with Aspirin's values | Opening the form to add shows the blank `useForm` defaults (for example by resetting with `keepDefaultValues`, or with the defaults passed explicitly) | not executed; relies on react-hook-form's documented `reset` behaviour (the library is not part of this model) | MedicineForm.AddAfterEditPrefilled | MedicineForm.LoadsKeepingDefaults |

`FormState.Load` keeps the behaviour as written, so that the class matches the dialog users see. The corrected step is `ResetKeepingDefaults`, and `LoadsKeepingDefaults` proves that with it the Add dialog always opens blank.
