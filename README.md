# Parking AI demo: a verified model of its screen flow and step components

The Parking AI demo is a React front end for a simulated smart-parking workflow. The flow goes from the welcome screen to a three-step pipeline (plate detection, slot selection, billing) and on to a success screen and a mock dashboard. This project models the parts of it that carry logic, with one Dafny module per source file:

- `App` (`app.dfy`): the four-screen navigation and the session record handed over when the pipeline completes. A second half composes the navigation with the wizard it mounts. It proves that the record held while success or the dashboard is shown always has an accepted plate, a selectable slot, the 12.50 fare and no duration.
- `PipelineScreen` (`pipeline.dfy`):
  - the step counter, clamped to 1..3 by the back button;
  - `handleStepCompletion`, which merges each step's data into the record, then advances or, at step 3, hands the record up;
  - the composition with whichever step component is mounted. A component is mounted fresh whenever the step changes.
- `PlateDetectionStep` (`plate_detection.dfy`):
  - how the vision model's reply becomes an error or a plate (JavaScript `trim`, the "NO PLATE" sentinel, the UTF-16 length of at least 4);
  - the state resets around a call;
  - the fallback plate after a failed call;
  - camera/upload mode switching;
  - `split(',')[1]` on a data URL;
  - the Proceed gate.
- `SlotDetectorStep` (`slot_detector.dfy`): the occupancy tick (free count clamped at 0, occupied ±1, reserved fixed), pause, the two selectable slots, and Proceed's `{ slotId, entryTime }`.
- `BillingStep` (`billing.dfy`): the not-generated, generating, generated machine; the primary button's dispatch; the fare of 12.50 and its `toFixed(2)` text; the receipt and share texts; and the fallbacks of the on-screen receipt rows.
- Helper modules:
  - `Wrappers` holds `Option`.
  - `Strings` models JavaScript `trim`, `length` in UTF-16 code units, and `split`/join on one character.
  - `Decimal` models `toString` on integers below 2^53 and `toFixed(2)` on amounts below 2^52 cents, the ranges where JavaScript's doubles are rendered digit for digit.
  - `SessionData` holds the session record and `{ ...s, ...data }`.

Each component is written twice, once as values and once as mutable state.

- **As values:**
  - a state datatype holding its React state cells;
  - an event datatype (clicks, timer callbacks, the model's reply);
  - `Offered`, which says whether the control is rendered and enabled, or the timer pending. `PipelineScreen` has none: its back arrow is always rendered, and a child's own `Offered` gates the child's events;
  - `Handle`, the handler bodies, with the `data` passed to `onNext`;
  - `Step`: `Handle` when offered, nothing otherwise.
- **What each module proves about those values:**
  - `PlateDetectionStep`, `SlotDetectorStep` and `BillingStep` each have an invariant `Inv` and a lemma `StepKeepsInv`.
  - `SlotDetectorStep` and `BillingStep` also have `Run` over event sequences, with lemmas about whole runs. `PlateDetectionStep` has no `Run`.
  - `PipelineScreen` has no `Handle`. Its `Step` is built from `MoveTo` and `Deliver`, under an invariant `Inv` with `StepKeepsInv` and `Run` with `RunKeepsInv`.
  - `App` has `Run` with lemmas about the record, but no invariant of its own. The invariant `SystemInv`, with `SystemStepKeepsInv`, belongs to the navigation composed with the wizard.
- **As mutable state:** a class with the same cells as fields, whose methods implement the handlers. What each method ensures:
  - In `App`, `SlotDetectorStep`, `BillingStep` and most of `PlateDetectionStep`, the new state is `Handle` applied to the old one.
  - `PipelineScreen.Pipeline.Back` ensures `BackStep`, and `HandleStepCompletion` ensures `CompleteStep`.
  - `PlateDetectionStep.PlateDetection.ApplyVerdict` ensures `AfterVerdict`.
  - `BillingStep.Billing.HandleGenerate` states the new fields directly.

Timers are counted as pending callbacks, so each scheduled callback fires at most once: it may never fire, and a remount drops it. Clock and locale strings are inputs. The coin flips are boolean inputs. The model's reply is an optional string or a failure.

Two behaviours of the code are easy to misread:

- Restart does not discard the session record. `handleRestart` only changes the screen (App.tsx:29-31). A new run starts from a fresh wizard, whose own record is empty.
- `dataUrl.split(',')[1]` is the piece between the first and second comma. It is not everything after the first comma.

The `error` cell is either null or one fixed message, so the model holds it as an optional value of a one-valued type, `PlateError`, whose `Message` is that text.

The fare 12.50 is a JavaScript number in the source. Every value the fare takes (0 and 12.50) is a whole number of cents, so the model holds it in cents (`1250`).

## Model

| member | source | states |
|---|---|---|
| Strings.Trim | screens/steps/PlateDetectionStep.tsx:101 | the result has no leading or trailing ECMAScript white space or line terminator |
| Strings.TrimSplits | screens/steps/PlateDetectionStep.tsx:101 | the trimmed string is a slice of the input with only white space before and after it |
| Strings.TrimUnique | screens/steps/PlateDetectionStep.tsx:101 | white space around a trimmed middle is exactly what trim removes, so trim gives the middle back |
| Strings.TrimIdempotent | screens/steps/PlateDetectionStep.tsx:101 | trimming twice is trimming once |
| Strings.Utf16LengthAppend | screens/steps/PlateDetectionStep.tsx:102 | the length of a concatenation is the sum of the lengths, so `length` is the sum over characters |
| Strings.Utf16LengthBmp | screens/steps/PlateDetectionStep.tsx:102 | the length equals the number of characters if and only if every character lies in the Basic Multilingual Plane |
| Strings.Utf16Length | screens/steps/PlateDetectionStep.tsx:102 | `length` counts UTF-16 code units: between one and two per character |
| Strings.Split | screens/steps/PlateDetectionStep.tsx:69 | there is always at least one piece, and no piece contains the separator |
| Strings.JoinSplit | screens/steps/PlateDetectionStep.tsx:78 | joining the pieces of a split with the separator gives the original string |
| Strings.SplitJoin | screens/steps/BillingStep.tsx:25 | splitting a join of separator-free pieces gives the pieces back |
| Strings.SplitSingle | screens/steps/PlateDetectionStep.tsx:69 | there is exactly one piece if and only if the separator does not occur |
| Strings.SplitFirst | screens/steps/PlateDetectionStep.tsx:78 | the first piece ends at the first separator, and the rest is split the same way |
| Strings.PieceAt | screens/steps/PlateDetectionStep.tsx:69 | indexing the pieces gives `undefined` past the last piece, and a present piece holds no separator |
| Strings.NotInAppend | screens/steps/BillingStep.tsx:25 | a character is absent from a concatenation if and only if it is absent from both parts |
| Strings.JoinAppend | screens/steps/BillingStep.tsx:25 | joining two lists is joining each, with the separator between |
| Strings.JoinEight | screens/steps/BillingStep.tsx:25 | eight lines joined by the separator are those lines with the separator between each pair |
| Strings.JoinFour | screens/steps/BillingStep.tsx:54 | four lines joined by the separator are those lines with the separator between each pair |
| Decimal.NatToDecimal | screens/steps/BillingStep.tsx:87 | below 2^53, where `toString` writes the integer's own digits: a non-empty numeral of decimal digits with no leading zero except for 0 itself |
| Decimal.NatToDecimalValue | screens/steps/BillingStep.tsx:87 | reading the numeral back gives the number |
| Decimal.FormatCents | screens/steps/BillingStep.tsx:87 | for amounts below 2^52 cents, where the double is exact to the cent, `toFixed(2)` gives the whole units as `toString`, a point and exactly two digits, together denoting the amount |
| SessionData.Override | screens/PipelineScreen.tsx:24 | one key of the spread: the new value when present, the old one otherwise; its meaning is carried by MergeOverridesPresentKeepsRest |
| SessionData.Apply | screens/PipelineScreen.tsx:24 | `{ ...s, ...data }` key by key; its meaning is carried by MergeOverridesPresentKeepsRest, MergeIdempotent and MergeThen |
| SessionData.Then | screens/PipelineScreen.tsx:24 | two spreads combined into one, the later data winning; its meaning is carried by MergeThen |
| SessionData.Merge | screens/PipelineScreen.tsx:24 | a missing `data` leaves the record unchanged |
| SessionData.MergeOverridesPresentKeepsRest | screens/PipelineScreen.tsx:24 | every field present in `data` is taken from it and every other field is kept |
| SessionData.MergeIdempotent | screens/PipelineScreen.tsx:24 | merging the same data twice is merging it once |
| SessionData.MergeThen | screens/PipelineScreen.tsx:24 | two merges in a row equal one merge of the combined data, the later data winning |
| PlateDetectionStep.ReplyText | screens/steps/PlateDetectionStep.tsx:101 | the text is the trimmed reply; a missing reply, or one empty after trimming, reads "NO PLATE"; the result is never empty |
| PlateDetectionStep.Classify | screens/steps/PlateDetectionStep.tsx:101-106 | a reply is accepted if and only if its trimmed text exists, is not "NO PLATE" and has at least 4 UTF-16 code units; the plate is then that text |
| PlateDetectionStep.ClassifyIgnoresPadding | screens/steps/PlateDetectionStep.tsx:101 | white space around a reply never changes the verdict |
| PlateDetectionStep.Base64Payload | screens/steps/PlateDetectionStep.tsx:69 | the payload is `undefined` if and only if the URL has no comma; a payload holds no comma |
| PlateDetectionStep.Base64PayloadOfDataUrl | screens/steps/PlateDetectionStep.tsx:78 | for `header,payload` the payload is exactly what follows the comma |
| PlateDetectionStep.Base64PayloadStopsAtSecondComma | screens/steps/PlateDetectionStep.tsx:69 | anything from a second comma on is dropped |
| PlateDetectionStep.FallbackPlateValid | screens/steps/PlateDetectionStep.tsx:111 | the fallback plate "TN 07 AB 4321" passes the same test as an accepted reply |
| PlateDetectionStep.Offered | screens/steps/PlateDetectionStep.tsx:179 | which controls are rendered and enabled and which callbacks are pending; its meaning is carried by ProceedGate, CallStartClears and the class methods' requires |
| PlateDetectionStep.AfterVerdict | screens/steps/PlateDetectionStep.tsx:102-106 | the `if` on the reply: rejection sets the error, acceptance sets the plate; its meaning is carried by ReplyOutcome |
| PlateDetectionStep.Handle | screens/steps/PlateDetectionStep.tsx:84-115 | the handler bodies and the data handed to `onNext`; its meaning is carried by StepKeepsInv, ReplyOutcome, FailureFallsBack, ProceedGate and UploadSwitchesMode |
| PlateDetectionStep.ErrorBanner | screens/steps/PlateDetectionStep.tsx:225-227 | the banner shows the error cell's message, or nothing; its meaning is carried by BannerAfterCall |
| PlateDetectionStep.BannerAfterCall | screens/steps/PlateDetectionStep.tsx:86-103 | starting a call clears the banner; a rejected reply shows "Could not detect a valid plate. Please try again."; an accepted one leaves the banner as it was |
| PlateDetectionStep.InitialInv | screens/steps/PlateDetectionStep.tsx:10-14 | the initial state meets the invariant |
| PlateDetectionStep.StepKeepsInv | screens/steps/PlateDetectionStep.tsx:84-115 | every event keeps the invariant: a shown plate is empty or passes the same test as an accepted reply |
| PlateDetectionStep.ReplyKeepsInv | screens/steps/PlateDetectionStep.tsx:100-106 | a reply leaves the plate as it was or shows an accepted, hence valid, plate |
| PlateDetectionStep.FallbackKeepsInv | screens/steps/PlateDetectionStep.tsx:110-112 | the fallback timer shows a valid plate |
| PlateDetectionStep.CallStartClears | screens/steps/PlateDetectionStep.tsx:85-87 | starting a call sets scanning and clears the error and the plate |
| PlateDetectionStep.CallEndsScanning | screens/steps/PlateDetectionStep.tsx:113-115 | every outcome of a call ends with scanning off |
| PlateDetectionStep.ReplyOutcome | screens/steps/PlateDetectionStep.tsx:101-106 | a rejected reply sets the error and keeps the plate; an accepted one sets the plate and keeps the error; no fallback is scheduled |
| PlateDetectionStep.FailureFallsBack | screens/steps/PlateDetectionStep.tsx:107-112 | a failed call sets no error and keeps the plate, and schedules a fallback that later shows "TN 07 AB 4321" |
| PlateDetectionStep.ProceedGate | screens/steps/PlateDetectionStep.tsx:247-249 | Proceed hands data on if and only if a plate is shown, and then exactly `{ plateNumber }` of that plate |
| PlateDetectionStep.UploadSwitchesMode | screens/steps/PlateDetectionStep.tsx:30-33 | a loaded upload switches to upload mode, stores the image and clears the plate; a denied camera falls back to upload |
| PlateDetectionStep.PlateDetection.constructor | screens/steps/PlateDetectionStep.tsx:10-14 | the state cells start idle, with no plate, camera mode, no image and no error |
| PlateDetectionStep.PlateDetection.SelectCamera | screens/steps/PlateDetectionStep.tsx:179 | the Live toggle sets camera mode and keeps the invariant |
| PlateDetectionStep.PlateDetection.OnCameraDenied | screens/steps/PlateDetectionStep.tsx:30-33 | a camera refusal switches to upload mode |
| PlateDetectionStep.PlateDetection.OnFileLoaded | screens/steps/PlateDetectionStep.tsx:46-49 | the loaded image is stored, the mode is upload and the plate is cleared |
| PlateDetectionStep.PlateDetection.BeginCall | screens/steps/PlateDetectionStep.tsx:84-87 | scanning starts with error and plate cleared |
| PlateDetectionStep.PlateDetection.ApplyVerdict | screens/steps/PlateDetectionStep.tsx:102-106 | a rejected verdict sets the error and nothing else; an accepted one sets the plate and nothing else |
| PlateDetectionStep.PlateDetection.ReceiveReply | screens/steps/PlateDetectionStep.tsx:100-115 | the reply is classified: a rejected one sets the error, an accepted one becomes the plate; scanning ends; the invariant is kept |
| PlateDetectionStep.PlateDetection.ReceiveFailure | screens/steps/PlateDetectionStep.tsx:107-115 | a failed call schedules the fallback and sets no error, keeping the plate; scanning ends |
| PlateDetectionStep.PlateDetection.OnFallbackTimer | screens/steps/PlateDetectionStep.tsx:110-112 | the fallback timer shows "TN 07 AB 4321" and keeps the invariant |
| PlateDetectionStep.PlateDetection.Proceed | screens/steps/PlateDetectionStep.tsx:247-249 | data is handed on if and only if a plate is shown, and it is that plate, which is valid |
| SlotDetectorStep.BoxSlotId | screens/steps/SlotDetectorStep.tsx:50-52 | only the two free boxes are clickable, and they select "A-102" and "B-045" |
| SlotDetectorStep.TickStats | screens/steps/SlotDetectorStep.tsx:18-21 | the free count moves by one but never below 0; occupied moves by exactly one either way; reserved is unchanged |
| SlotDetectorStep.Offered | screens/steps/SlotDetectorStep.tsx:82-85 | a tick runs only while not paused (:16), the pause button and the boxes are always there, and Proceed is enabled only with a selection; its meaning is carried by PausedNoTick and ProceedGate |
| SlotDetectorStep.Handle | screens/steps/SlotDetectorStep.tsx:15-25 | the tick, the pause toggle, the box click and Proceed; its meaning is carried by StepKeepsInv, PausedNoTick and ProceedGate |
| SlotDetectorStep.LastSelection | screens/steps/SlotDetectorStep.tsx:50-52 | the id of the last click on a free box in a run, defined from the end of the run; its meaning is carried by RunSelection |
| SlotDetectorStep.InitialInv | screens/steps/SlotDetectorStep.tsx:10-12 | the initial stats are 10/38/2 with no selection, and meet the invariant |
| SlotDetectorStep.StepKeepsInv | screens/steps/SlotDetectorStep.tsx:15-25 | every event keeps the free count non-negative, the reserved count at 2 and the selection one of the two ids |
| SlotDetectorStep.PausedNoTick | screens/steps/SlotDetectorStep.tsx:16 | while paused no tick changes anything, and the pause button flips the flag |
| SlotDetectorStep.ProceedGate | screens/steps/SlotDetectorStep.tsx:82-85 | Proceed hands data on if and only if a slot is selected, and then `{ slotId, entryTime }` of the selection |
| SlotDetectorStep.RunSnoc | screens/steps/SlotDetectorStep.tsx:15-25 | a run followed by one more event is that event applied to the run's end state |
| SlotDetectorStep.RunSelection | screens/steps/SlotDetectorStep.tsx:50-52 | after any run the selection is the one made by the last click on a free box, or the earlier one if there was no such click |
| SlotDetectorStep.RunBounds | screens/steps/SlotDetectorStep.tsx:18-21 | over any run the invariant holds, reserved never moves, and occupied moves by at most one per event |
| SlotDetectorStep.SlotDetector.constructor | screens/steps/SlotDetectorStep.tsx:10-12 | the state cells start unpaused, with stats 10/38/2 and no selection |
| SlotDetectorStep.SlotDetector.OnInterval | screens/steps/SlotDetectorStep.tsx:17-22 | an interval tick updates the stats as `TickStats` does and keeps the invariant |
| SlotDetectorStep.SlotDetector.TogglePause | screens/steps/SlotDetectorStep.tsx:65 | the pause button flips `isPaused` |
| SlotDetectorStep.SlotDetector.ClickBox | screens/steps/SlotDetectorStep.tsx:50-52 | a click on a free box selects its id; other boxes change nothing |
| SlotDetectorStep.SlotDetector.Proceed | screens/steps/SlotDetectorStep.tsx:82-85 | data is handed on if and only if a slot is selected, and it is that selectable slot with the given time |
| BillingStep.FareText | screens/steps/BillingStep.tsx:25 | `fare.toFixed(2)`, as used at :25, :41, :54 and :87; its meaning is carried by FormatCents and FareTextIs |
| BillingStep.FareTextIs | screens/steps/BillingStep.tsx:87 | the fare is always shown as "12.50", here and in the texts at :25, :41 and :54 |
| BillingStep.FareLabel | screens/steps/BillingStep.tsx:87 | the shown amount is "$12.50" |
| BillingStep.Offered | screens/steps/BillingStep.tsx:112 | the primary button is always there, and the completion only while pending; its meaning is carried by PhaseTransitions and PrimaryDispatch |
| BillingStep.Handle | screens/steps/BillingStep.tsx:13-18 | `handleGenerate`, its timer and the primary button's dispatch; its meaning is carried by StepKeepsInv, PhaseTransitions and PrimaryDispatch |
| BillingStep.InitialInv | screens/steps/BillingStep.tsx:10-11 | the step starts neither generating nor generated |
| BillingStep.StepKeepsInv | screens/steps/BillingStep.tsx:13-18 | the flags never both hold, a completion is pending while generating, the phase never goes back, and a generated bill stays generated |
| BillingStep.PhaseTransitions | screens/steps/BillingStep.tsx:13-18 | Generate moves to generating; pressing again while generating schedules another completion; the timer moves generating to generated |
| BillingStep.PrimaryDispatch | screens/steps/BillingStep.tsx:112 | the button hands data on if and only if the bill is generated, and then exactly `{ fare }` |
| BillingStep.RunMonotone | screens/steps/BillingStep.tsx:10-18 | over any run the invariant holds, the phase only moves forward and a generated bill stays generated |
| BillingStep.ReceiptText | screens/steps/BillingStep.tsx:25 | the downloaded receipt's template; its meaning is carried by ReceiptJoin and ReceiptTextLines |
| BillingStep.ReceiptJoin | screens/steps/BillingStep.tsx:25 | the receipt text is its eight lines joined by line breaks |
| BillingStep.ReceiptLinesUnbroken | screens/steps/BillingStep.tsx:25 | when no field holds a line break, none of the receipt's eight lines does |
| BillingStep.ReceiptTextLines | screens/steps/BillingStep.tsx:25 | when no field holds a line break, the receipt's lines are, in order, the heading, a blank line, the date, the plate, the slot, "Fare: $12.50", a blank line and the thank-you line |
| BillingStep.WhatsAppText | screens/steps/BillingStep.tsx:54 | the WhatsApp fallback text before encoding; its meaning is carried by WhatsAppTextLines |
| BillingStep.NativeShareText | screens/steps/BillingStep.tsx:41 | the text given to `navigator.share`; its meaning is carried by NativeShareNamesPlate |
| BillingStep.ShareText | screens/steps/BillingStep.tsx:38-57 | the native text when sharing is available, the WhatsApp text otherwise; its meaning is carried by the two lemmas on those texts |
| BillingStep.WhatsAppTextLines | screens/steps/BillingStep.tsx:54 | the WhatsApp fallback text consists of the heading, the plate, "Amount: $12.50" and "Status: Paid", as four lines |
| BillingStep.NativeShareNamesPlate | screens/steps/BillingStep.tsx:41 | the native share text names the plate between its fixed prefix and ": $12.50" |
| BillingStep.OrFallback | screens/steps/BillingStep.tsx:79-81 | `value \|\| fallback`: the value unless it is empty, the fallback otherwise |
| BillingStep.ReceiptRows | screens/steps/BillingStep.tsx:79-82 | the four on-screen rows; its meaning is carried by ReceiptRowsFallbacks |
| BillingStep.ReceiptRowsFallbacks | screens/steps/BillingStep.tsx:79-82 | the on-screen rows show plate, slot and entry time, or "ABC-1234", "A-102" and "10:30 AM" when empty, so never an empty value; the exit row shows the given time |
| BillingStep.Billing.constructor | screens/steps/BillingStep.tsx:10-11 | both flags start false |
| BillingStep.Billing.HandleGenerate | screens/steps/BillingStep.tsx:13-15 | `handleGenerate` sets generating and schedules a completion |
| BillingStep.Billing.OnTimer | screens/steps/BillingStep.tsx:15-18 | the completion clears generating and sets generated |
| BillingStep.Billing.OnPrimaryClick | screens/steps/BillingStep.tsx:112 | the primary button generates before, and hands on `{ fare }` after, as `Handle` says |
| PipelineScreen.BackStep | screens/PipelineScreen.tsx:38 | back never goes below 1, is a no-op exactly at step 1, and otherwise goes one step back |
| PipelineScreen.CompleteStep | screens/PipelineScreen.tsx:23-31 | the data is merged in; before step 3 the step after the completed one becomes current and nothing is handed up; at step 3 the step stays and the merged record is handed up; the step stays within 1..3 |
| PipelineScreen.Pipeline.constructor | screens/PipelineScreen.tsx:12-19 | the step starts at 1 with the empty record |
| PipelineScreen.Pipeline.Back | screens/PipelineScreen.tsx:38 | the step becomes `max(1, step - 1)` and the record is unchanged |
| PipelineScreen.Pipeline.HandleStepCompletion | screens/PipelineScreen.tsx:23-31 | the new step, the new record and the record handed to `onComplete` are those of `CompleteStep`; the step stays within 1..3 |
| PipelineScreen.MoveTo | screens/PipelineScreen.tsx:76-78 | a step change remounts the step's component; its meaning is carried by BackKeepsSession and AdvanceMergesAndRemounts |
| PipelineScreen.Deliver | screens/PipelineScreen.tsx:23-31 | a child's `onNext` data runs `handleStepCompletion`; its meaning is carried by StepKeepsInv and AdvanceMergesAndRemounts |
| PipelineScreen.Step | screens/PipelineScreen.tsx:38 | Back, or an event inside the mounted component; its meaning is carried by StepKeepsInv, BackKeepsSession and AdvanceMergesAndRemounts |
| PipelineScreen.Mount | screens/PipelineScreen.tsx:76-78 | each of steps 1, 2 and 3 mounts a fresh instance of its own component, and any other step mounts nothing |
| PipelineScreen.InitialInv | screens/PipelineScreen.tsx:12-19 | the wizard starts at step 1 with a fresh plate-detection component and meets its invariant |
| PipelineScreen.MountFits | screens/PipelineScreen.tsx:76-78 | a freshly mounted component belongs to its step and meets its own invariant |
| PipelineScreen.BackKeepsSession | screens/PipelineScreen.tsx:38 | back moves to `max(1, step - 1)` and keeps the record; at step 1 nothing changes (the mounted component keeps its state); otherwise the previous step's component is mounted fresh |
| PipelineScreen.StepKeepsInv | screens/PipelineScreen.tsx:23-31 | every event keeps the step in 1..3 with the matching component mounted; a record is handed up only at step 3, which stays current; that record is the current one with the fare set, and holds an accepted plate, a selectable slot, the fare and no duration |
| PipelineScreen.AdvanceMergesAndRemounts | screens/PipelineScreen.tsx:24-27 | completing step 1 or 2 merges exactly that component's data, advances by one and mounts the next component fresh; nothing is handed up before step 3 |
| PipelineScreen.RunKeepsInv | screens/PipelineScreen.tsx:23-31 | over any run the invariant holds and every record handed up is complete |
| App.Offered | App.tsx:40-58 | which screen renders the control raising each event; its meaning is carried by Transitions and StartOnlyFromWelcome |
| App.Handle | App.tsx:20-35 | the four handlers; its meaning is carried by Transitions, CompletionOnlyExit, DashboardAndRestart and RecordChangesOnlyOnCompletion |
| App.Transitions | App.tsx:20-35 | the screen changes only from welcome to pipeline by Start, from pipeline to success by completion, from success to dashboard, and from success or dashboard to welcome by Restart |
| App.StartOnlyFromWelcome | App.tsx:40-42 | Start works only on the welcome screen, leads to the pipeline and keeps the record |
| App.CompletionOnlyExit | App.tsx:44-46 | the pipeline screen is left if and only if the pipeline completes, and then the record is exactly the one handed over and success is shown |
| App.DashboardAndRestart | App.tsx:48-58 | the dashboard is reached only from success; Restart from success or the dashboard shows welcome and keeps the record |
| App.RecordChangesOnlyOnCompletion | App.tsx:24-27 | the record changes only when the pipeline completes, and then it is the handed-over record |
| App.RunRecord | App.tsx:24-27 | a run without completions keeps the record |
| App.RunConcat | App.tsx:20-35 | running two event sequences in turn is running their concatenation |
| App.RunLastCompletion | App.tsx:24-27 | after any run, the record is the data of the last completion, when that completion arrived on the pipeline screen |
| App.AppComponent.constructor | App.tsx:11-18 | the app starts on welcome with the empty record |
| App.AppComponent.HandleStart | App.tsx:20-22 | `handleStart` shows the pipeline |
| App.AppComponent.HandleCompletion | App.tsx:24-27 | `handleCompletion` stores the given record and shows success |
| App.AppComponent.HandleRestart | App.tsx:29-31 | `handleRestart` shows welcome and keeps the record |
| App.AppComponent.HandleGoToDashboard | App.tsx:33-35 | `handleGoToDashboard` shows the dashboard |
| App.SystemStep | App.tsx:40-58 | the navigation with the mounted wizard, a fresh one on Start; its meaning is carried by SystemStepKeepsInv and Reachable |
| App.SystemInitialInv | App.tsx:11-18 | the start state meets the system invariant |
| App.SystemStepKeepsInv | App.tsx:44-46 | every event keeps the system invariant; the record changes only to one the mounted wizard hands up, and then success is shown |
| App.RunKeepsSystemInv | App.tsx:40-58 | any run from a state meeting the system invariant keeps it |
| App.Reachable | App.tsx:48-58 | from the start, after any sequence of events, the record held while success or the dashboard is shown has an accepted plate, a selectable slot, the 12.50 fare and no duration |

## Left out

- Camera, canvas and FileReader capture (screens/steps/PlateDetectionStep.tsx:20-40, 57-82) are browser I/O. Only their effect is modelled: the mode change, the loaded image and the data-URL split. A camera refusal is an event.
- The call to the vision model (screens/steps/PlateDetectionStep.tsx:90-99) is a foreign network API. Its outcome is an input: a reply whose text may be missing, or a failure.
- Overlapping calls are not modelled. A call is started only when none is running, and the upload path (which is not disabled while scanning) is treated the same way. A fallback timer from a failed call may still fire during a later call; that race is modelled, as in the code.
- Real timer durations and the interval itself are not modelled. Ticks and completions are events, and a scheduled callback fires at most once, at a time of the environment's choosing.
- `Math.random` is not modelled. The two coin flips of a tick are boolean inputs, and the random QR grid (screens/steps/BillingStep.tsx:93-95) is left out.
- `toLocaleDateString` and `toLocaleTimeString` are not modelled. Their formatted strings are inputs (the receipt date, the entry and exit times).
- The Blob download, file name, `alert`, `navigator.share`, `window.open` and the share cancellation (screens/steps/BillingStep.tsx:26-35, 46-56) are side-effecting browser APIs. The texts they are given are modelled.
- `encodeURIComponent` is not modelled. The WhatsApp text is modelled before encoding.
- Float display maths are left out: the progress width (screens/PipelineScreen.tsx:21) and the occupancy percentage (screens/steps/SlotDetectorStep.tsx:78).
- The welcome, success and dashboard screens are display-only and are not modelled. Only the callbacks they call are modelled, as App events.
- Styling, class names and vite.config.ts are left out.
- The `plateNumber` prop of the slot step is passed in but never used by the component, and is left out.
- `data` objects hold only the five record keys. Extra keys a caller might spread in are not representable.
- SessionData.Merge: `if (data)` is modelled as "data present". Every `data` the steps pass is a non-null object, so no other falsy value arises.
- Strings.Trim, Strings.Utf16Length: a JavaScript string may hold lone surrogate code units, which a Dafny `string` cannot, so replies containing them are not modelled.
