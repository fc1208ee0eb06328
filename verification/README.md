# Sonara core logic in Dafny

Sonara is a web front end for screening lung health by sound. The phone plays a
pulse, records the chest's reverberation and shows the signal. It also shows
mock analysis results and has a scripted assistant named "Echo". This project
models the decision logic and the buffer loops of its components and proves
what they promise:

- **chat.dfy**: the assistant (`components/ai-chat.tsx`). The opening message
  depends on the health category and the confidence, with a threshold of 85.
  Replies follow a first-match-wins keyword table on the lower-cased input. The
  chat window is a class whose message list is appended to.
- **auth.dfy**: the authentication provider (`components/auth-provider.tsx`).
  The route guard is a pure decision that yields at most one redirect. It is
  a prefix test on the protected routes and an exact test on the public ones.
  Login, logout and the restore on mount are methods of a provider class.
- **login.dfy**: the login page (`app/login/page.tsx`). It derives the user
  record (name and avatar) from the e-mail address and signs that user in.
- **dashboard.dfy**: the dashboard page's analysis run (`app/dashboard/page.tsx`).
  The run moves through idle, calibrating, emitting, recording, analyzing and
  complete. Each timed wait is a separate step, so a stop can be placed
  between two steps. The code never checks for a stop.
- **layout.dfy**: the dashboard layout (`components/dashboard-layout.tsx`).
  - User-agent detection. The two capture regexes are modelled as matchers
    with proofs that they match exactly what the patterns describe. The
    search is the leftmost one.
  - The phone-model dialog, with its trim-guarded save.
  - The active navigation item.
- **results_panel.dfy**: the results panel (`components/results-panel.tsx`).
  The icon and gradient mappings ignore case. The panel is either a
  placeholder or a report.
- **spectrum.dfy** and **waveform.dfy**: the two canvas renderers
  (`components/fft-display.tsx`, `components/waveform-display.tsx`). Each is
  a loop that returns the bars or the path vertices it would draw. Both are
  proved against reference functions for each bar and each vertex.
- **audio.dfy**: the audio processor (`components/audio-processor.tsx`).
  - The mock generator fills two 1024-entry arrays in place.
  - The frame dispatch chooses between live and mock data.
  - The next frame is requested only while active.
  - The teardown acts only on the resources that exist.

  `Math.sin` and `Math.random` are inputs with their stated ranges. Web Audio
  objects are represented only by whether their refs are set.
- **text.dfy**, **health.dfy**, **browser.dfy** and **wrappers.dfy** hold the
  shared pieces:
  - the JavaScript string operations (`trim` as section 22.1.3.32 of ECMA-262
    defines it, case mapping, `includes`, `startsWith`);
  - the analysis-results record;
  - `localStorage` and the router's history;
  - `Option` and `Result`.

Some behaviour of the code follows from the proofs:

- `startAnalysis` has no cancellation. A stop in the middle of a run is
  followed by the remaining steps, which still reach "complete" with the mock
  results (`StopDoesNotCancel`). A stop followed by a new start lets the two
  runs interleave so that `isPlaying` and `isRecording` are both set
  (`OverlappingRunsCanPlayAndRecord`).
- Neither `stopAnalysis` nor `startAnalysis` clears `analysisResults`. A run
  started after a completed run shows the previous run's results until it
  completes itself (`RerunShowsPreviousResults`).
- The audio processor never clears its refs. Stopping twice repeats the whole
  teardown, including closing the closed context again (`StopTwice`).
- The spectrum display colours bins by fractions of the buffer, not by
  frequency. With the 1024 mock bins, everything up to about 2.7 kHz is drawn
  in the low-band colour (`DisplayBandsAreNotMockBands`). The bars span 1.25
  canvas widths, so those from 40% of the bins on start past the right edge
  (`BarsSpan`, `BarsPastRightEdge`).
- The dashboard never passes its results to the chat. The layout renders the
  assistant without `analysisResults` (components/dashboard-layout.tsx:281),
  so in the application the opening-message seeding never fires. The model
  keeps the chat's own logic, which takes the results as a parameter.
- The dashboard page sets `showAIChat` at the end of a run
  (app/dashboard/page.tsx:78), but nothing reads the flag and the page renders
  no chat. The only chat is the layout's, opened by its own button.

## Model

| member | source | states |
|---|---|---|
| Chat.GreetingWithoutResults | components/ai-chat.tsx:53-55 | With no results the opening is the generic greeting, and no results object ever gets that greeting. |
| Chat.NormalOpeningThreshold | components/ai-chat.tsx:57-87 | For "normal" in any letter case, a confidence of 85 or more gives the great-news opening and a lower one the moderate-confidence opening, each quoting the confidence. |
| Chat.WarningOpening | components/ai-chat.tsx:88-103 | "warning" in any case selects the warning opening, whatever the confidence. |
| Chat.FallbackOpening | components/ai-chat.tsx:104-106 | Three cases get the buddy introduction: a missing health, a category other than normal or warning (such as "abnormal"), and "normal" with a confidence that converts to NaN (`undefined`, a non-numeric string). |
| Chat.FirstMatchIsLowest | components/ai-chat.tsx:137-274 | A rule table answers with the reply of its lowest-numbered matching rule, or the default menu when no rule matches. |
| Chat.ReplyFollowsRules | components/ai-chat.tsx:137-274 | `generateAIResponse` is first-match-wins over the six keyword rules, in source order, on the lower-cased input. |
| Chat.ReplyIgnoresCaseAndResults | components/ai-chat.tsx:137-138 | The reply is the same for the input and its lower-cased form, for its upper-cased form under the ASCII case mapping, and for any results argument. |
| Chat.IdentityBeatsEmergency | components/ai-chat.tsx:140-154 | An input that names both Echo and "serious" in mixed case gets the introduction, not the emergency reply. |
| Chat.ChatWindow.constructor | components/ai-chat.tsx:23-27 | The window starts with no messages, an empty input and no typing indicator. |
| Chat.ChatWindow.SeedOpening | components/ai-chat.tsx:38-51 | The opening message is added only when results are present and the list is empty. In every other case the list is unchanged. |
| Chat.ChatWindow.TypeInput | components/ai-chat.tsx:378 | Typing sets the input text and nothing else. |
| Chat.ChatWindow.SendMessage | components/ai-chat.tsx:109-121 | White-space-only input changes nothing. Otherwise exactly one user message, carrying the untrimmed input, is appended at the end, the input is cleared and the typing indicator is set. |
| Chat.ChatWindow.DeliverReply | components/ai-chat.tsx:123-134 | The reply to the sent text is appended after the current messages and the typing indicator is cleared. |
| Chat.Exchange | components/ai-chat.tsx:109-134 | A non-blank question is followed in the list immediately by the reply to it. |
| Auth.RedirectFor | components/auth-provider.tsx:39-51 | There is no redirect while loading, and at most one target, which is "/login" or "/dashboard". |
| Auth.SignedOutRedirect | components/auth-provider.tsx:41-46 | A signed-out visitor is sent to "/login" exactly on paths that start with a protected route, and nowhere else. |
| Auth.SignedInRedirect | components/auth-provider.tsx:42-48 | A signed-in user is sent to "/dashboard" exactly on the three public paths, and nowhere else. |
| Auth.PrefixAndExactMatching | components/auth-provider.tsx:41-48 | "/settingsX" and "/dashboard/history" are guarded. "/login/" does not count as the login page. "/" is open to visitors. |
| Auth.PublicAndProtectedDisjoint | components/auth-provider.tsx:41-42 | No path is both public and protected. |
| Auth.RedirectSettles | components/auth-provider.tsx:39-51 | On the redirect's target path the same user is not redirected again. |
| Auth.AuthProvider.constructor | components/auth-provider.tsx:25-26 | The provider starts with no user and in the loading state. |
| Auth.AuthProvider.Restore | components/auth-provider.tsx:30-37 | A stored user is restored, and loading ends whether or not one was stored. |
| Auth.AuthProvider.EnforceRoute | components/auth-provider.tsx:39-51 | The router receives exactly the redirect the decision yields, or nothing. |
| Auth.AuthProvider.Login | components/auth-provider.tsx:53-56 | The user is set and the same record is stored. Nothing else changes. |
| Auth.AuthProvider.Logout | components/auth-provider.tsx:58-62 | The user and the stored record are cleared and "/" is pushed. |
| Auth.UseAuth | components/auth-provider.tsx:67-73 | Outside a provider the hook fails with the provider error. Inside one it returns that provider. |
| Login.NameFromEmail | app/login/page.tsx:34 | The name is a prefix of the address without "@", ending at the first "@" or at the end of the address. |
| Login.DerivedUserShape | app/login/page.tsx:31-36 | The derived record has id "1" and the address unchanged. Its name is an "@"-free prefix. Its avatar is the upper-cased first character, or empty for an empty address. |
| Login.EmailSplitsAtName | app/login/page.tsx:34 | An address is its name, then "@", then the rest. Without "@" the name is the whole address. |
| Login.NameOfLocalPart | app/login/page.tsx:34 | For any "@"-free local part and any domain, the name derived from `local@domain` is the local part. |
| Login.LoginPage.constructor | app/login/page.tsx:17-20 | The form starts empty and not loading. |
| Login.LoginPage.Submit | app/login/page.tsx:24-38 | Submitting sets the loading flag, which is never cleared. It signs in and stores the user derived from the e-mail alone, leaving the stored phone model as it was, then pushes "/dashboard". |
| Dashboard.RunTrace | app/dashboard/page.tsx:30-79 | Every intermediate page state of a run, written out step by step. |
| Dashboard.RunVisitsPhasesInOrder | app/dashboard/page.tsx:30-79 | From any page state, a run visits calibrating, emitting, recording, analyzing and complete in order. Progress rises strictly from 10 to 100. The results stay as they were until complete, which sets the mock results. At the end the page sets its `showAIChat` flag, which nothing reads. |
| Dashboard.RerunShowsPreviousResults | app/dashboard/page.tsx:30-90 | Neither a stop nor a new start clears the results. A run started after a completed run and a stop shows the previous results in every phase before its own complete step. |
| Dashboard.RunNeverPlaysAndRecords | app/dashboard/page.tsx:37-59 | From a page with neither flag set, `isPlaying` holds only after emitting and `isRecording` only after recording, so the two are never set together. |
| Dashboard.ActiveWhileEmittingOrRecording | app/dashboard/page.tsx:238 | During a run from idle, the audio processor is active exactly in the emitting and recording phases. |
| Dashboard.ResumeCompletesRun | app/dashboard/page.tsx:30-80 | A run left alone after any step finishes exactly as an uninterrupted run does. |
| Dashboard.ResumeEndsComplete | app/dashboard/page.tsx:30-80 | The remaining steps of a run take any page state to complete with the mock results and the `showAIChat` flag set. The flags and processor calls they leave are stated for each resumption point. |
| Dashboard.StopDoesNotCancel | app/dashboard/page.tsx:30-90 | A stop after any of the first four steps resets the page to idle. The remaining steps still reach complete with the mock results. A stop during calibration is even followed by starting the processor. |
| Dashboard.OverlappingRunsCanPlayAndRecord | app/dashboard/page.tsx:30-90 | Stopping during emitting and starting again lets the two runs set both flags at once. |
| Dashboard.StopResets | app/dashboard/page.tsx:82-90 | Stop sets idle, progress 0 and both flags off. It keeps the results and the `showAIChat` flag. |
| Dashboard.PhaseLabelsDistinct | app/dashboard/page.tsx:92-124 | Each phase, idle included, has its own description and its own colour. |
| Dashboard.ControlsDuringRun | app/dashboard/page.tsx:160-191 | After any step of a run, Stop replaces Start and the progress bar shows. After a stop, Start shows and the bar is hidden. |
| Dashboard.MockResultsOpenWithGreatNews | app/dashboard/page.tsx:67-74 | The mock results ("Normal", 87) would select the chat's high-confidence normal opening, though the page never passes them to a chat. |
| Dashboard.DashboardPage.constructor | app/dashboard/page.tsx:17-26 | The page starts idle, with progress 0, no flags, no results and no chat. |
| Dashboard.DashboardPage.StartAnalysis | app/dashboard/page.tsx:30-80 | An uninterrupted `startAnalysis` leaves the page in the state the whole step sequence yields. |
| Dashboard.DashboardPage.StopAnalysis | app/dashboard/page.tsx:82-90 | `stopAnalysis` leaves the page in the stopped state, and calls the processor's stop when the ref is set. |
| Layout.DigitRun | components/dashboard-layout.tsx:72-79 | The greedy `\d*` run from a position is all digits and is not followed by a digit. |
| Layout.MatchAt | components/dashboard-layout.tsx:72-79 | A match has two captures for the iPhone pattern and one for the Android pattern. |
| Layout.IPhoneOsMatchSound | components/dashboard-layout.tsx:72 | Whatever the iPhone matcher returns reads "iPhone OS ", then a digit run, then "_", then a digit run that no digit follows. |
| Layout.IPhoneOsMatchComplete | components/dashboard-layout.tsx:72 | Every such reading is what the iPhone matcher returns. |
| Layout.IPhoneOsMatchMeaning | components/dashboard-layout.tsx:72 | The iPhone matcher returns given captures if and only if the pattern describes them at that position. |
| Layout.AndroidMatchSound | components/dashboard-layout.tsx:79 | Whatever the Android matcher returns reads "Android " then `\d+\.?\d*`, taken greedily. |
| Layout.AndroidMatchComplete | components/dashboard-layout.tsx:79 | Every such reading is what the Android matcher returns. |
| Layout.AndroidMatchMeaning | components/dashboard-layout.tsx:79 | The Android matcher returns a version if and only if the pattern describes it at that position. |
| Layout.Search | components/dashboard-layout.tsx:72-79 | `match` returns a position where the pattern matches with no match before it, or reports that there is no match from the start on. |
| Layout.SearchIsLeftmost | components/dashboard-layout.tsx:72-79 | The search finds exactly the leftmost match, and fails exactly when there is none. |
| Layout.DetectionPrecedence | components/dashboard-layout.tsx:67-90 | "iPhone" anywhere decides first, with the version from the leftmost "iPhone OS X_Y". Then "Android" decides, with the version from the leftmost "Android V". "iPad" counts only without both words. Anything else is "Unknown Device". |
| Layout.DetectsIPhoneVersion | components/dashboard-layout.tsx:71-74 | "iPhone OS 17_2" is reported as "iPhone (iOS 17.2)". |
| Layout.DetectsAndroidVersion | components/dashboard-layout.tsx:78-81 | "Android 14.1.2" is reported as "Android Device (14.1)": only one "." is taken. |
| Layout.IPhoneBeatsIPad | components/dashboard-layout.tsx:71-87 | "iPad iPhone" is reported as "iPhone". |
| Layout.DetectsIPad | components/dashboard-layout.tsx:85-87 | "iPad" is reported as "iPad". |
| Layout.DetectedModelIsSavable | components/dashboard-layout.tsx:60-90 | Every detected label passes the save guard, because trimming never empties it. |
| Layout.AtMostOneActive | components/dashboard-layout.tsx:42-48 | At most one navigation item is active. A nested path activates none. |
| Layout.PhoneModelDialog.constructor | components/dashboard-layout.tsx:37-38 | The dialog starts closed with an empty model. |
| Layout.PhoneModelDialog.Mount | components/dashboard-layout.tsx:51-58 | The dialog opens exactly when the stored model is absent or empty. Otherwise the stored model is loaded and the dialog is left as it was. |
| Layout.PhoneModelDialog.TypeModel | components/dashboard-layout.tsx:254 | Typing sets the model text and leaves the dialog as it was. |
| Layout.PhoneModelDialog.Detect | components/dashboard-layout.tsx:67-90 | Detection sets the model field to the detected label and leaves the dialog open or closed as it was. |
| Layout.PhoneModelDialog.Save | components/dashboard-layout.tsx:60-65 | When the trimmed text is non-empty, the trimmed model is stored and the dialog closes. Otherwise nothing changes. This is exactly the condition that disables the button (line 270). |
| Layout.PhoneModelDialog.Dismiss | components/dashboard-layout.tsx:238 | Closing the dialog without saving (Escape or a click outside) closes it and keeps the typed text. |
| Layout.PhoneModelDialog.Reopen | components/dashboard-layout.tsx:182 | "Change", present only when a model is set (line 171), reopens the dialog and keeps the model text. |
| Layout.DetectSaveAndRemount | components/dashboard-layout.tsx:51-90 | Detect followed by save always stores the label and closes the dialog, and the next mount loads the label without opening the dialog. |
| Layout.TypeDismissAndRemount | components/dashboard-layout.tsx:51-58 | Dismissing stores nothing. Without a stored model the next mount opens the dialog again with an empty field. With one, it loads that model and stays closed. |
| ResultsPanel.ClassName | components/results-panel.tsx:52-63 | A gradient's class string starts with "from-" and its first colour. |
| ResultsPanel.MappingsIgnoreCase | components/results-panel.tsx:39-63 | The icon and the gradient are the same for a health value and its lower-cased form, and for its upper-cased form under the ASCII case mapping. |
| ResultsPanel.DefaultCase | components/results-panel.tsx:39-63 | The blue/purple gradient and the info icon are given exactly for values other than normal, warning and abnormal. The three known values have three different gradients. |
| ResultsPanel.WarningAndAbnormalDifferInColourOnly | components/results-panel.tsx:43-46 | Warning and abnormal share the triangle icon in different colours. |
| ResultsPanel.IconMatchesGradient | components/results-panel.tsx:39-63 | The icon's colour is always the gradient's first colour. |
| ResultsPanel.PlaceholderOnlyWithoutResults | components/results-panel.tsx:14-37 | The placeholder shows exactly when there are no results. Rendering fails exactly when the results lack a health value. |
| ResultsPanel.ReportIsConsistent | components/results-panel.tsx:65-156 | One gradient serves the top bar, the halo, the badge and the confidence overlay. The badge shows the health as given. The confidence is shown unclamped. The detail badges are constant. |
| ResultsPanel.RecommendationsVisibility | components/results-panel.tsx:160-171 | The alert shows exactly when the list exists and is non-empty. It lists every recommendation in order. |
| ResultsPanel.PanelAgreesWithChat | components/results-panel.tsx:39-50 | When the chat opens with a normal-result message the panel shows the emerald check mark. When it opens with the warning message the panel shows the yellow triangle. |
| Spectrum.ShadowMatchesBand | components/fft-display.tsx:41-56 | Each bar's glow colour is the top colour of its band. |
| Spectrum.BandsInOrder | components/fft-display.tsx:41-56 | Bands never go back down from left to right. For 1024 bins the bands are 0-127, 128-255 and 256 onwards. |
| Spectrum.BarHeight | components/fft-display.tsx:36 | The height is the larger of 1 and `(v + 140) * 2`. |
| Spectrum.DrawBars | components/fft-display.tsx:32-63 | The loop draws one bar for each index below half the buffer. Each bar is the reference bar for its index. |
| Spectrum.BarsStandOnBottom | components/fft-display.tsx:36-60 | Every bar is at least one pixel tall and ends on the bottom edge. |
| Spectrum.BarsDoNotOverlap | components/fft-display.tsx:32-62 | Consecutive bars are one bar width apart with a one-pixel gap. |
| Spectrum.BarsPastRightEdge | components/fft-display.tsx:32-62 | On a canvas of positive width, bar i starts at or past the right edge exactly when 5·i ≥ 2·length. |
| Spectrum.BarsSpan | components/fft-display.tsx:32-35 | For an even length the drawn bars span 1.25 canvas widths. |
| Spectrum.Draw | components/fft-display.tsx:12-94 | Nothing is drawn without a canvas or data. Otherwise the bars and the seven fixed labels are drawn. |
| Waveform.GridLines | components/waveform-display.tsx:37-53 | The grid loops draw 5 horizontal lines at height/4 steps and 9 vertical lines at width/8 steps across the canvas. |
| Waveform.GridFramesCanvas | components/waveform-display.tsx:37-53 | The outer grid lines lie on the canvas edges and the spacing is even. The middle horizontal line coincides with the centre line. |
| Waveform.PaletteIsCoherent | components/waveform-display.tsx:55-102 | The separately chosen glow and fill agree with the stroke's first colour. The recording and idle palettes share no stroke colour. |
| Waveform.SamplePlacement | components/waveform-display.tsx:79-80 | A sample is plotted at `height/2 + sample·height/4`. Zero lies on the midline and positive samples below it. Samples within ±2 stay on the canvas. |
| Waveform.TracePath | components/waveform-display.tsx:75-89 | The loop produces one vertex per sample, each the reference vertex for its index. |
| Waveform.PathRunsLeftToRight | components/waveform-display.tsx:75-89 | Only the first vertex is a move, at x = 0. The x positions rise strictly and stay left of the right edge. |
| Waveform.Draw | components/waveform-display.tsx:13-118 | Nothing is drawn without a canvas or data. Otherwise these are drawn, in the palette `isRecording` selects: the grid, with every line at its reference position; the path; the fill outline, closed along the bottom; and the centre line. |
| Audio.MockSampleBounded | components/audio-processor.tsx:25-30 | With the library ranges, a mock sample lies in [-0.45, 0.45). |
| Audio.MockMagnitudeBands | components/audio-processor.tsx:33-46 | Bins 0-23 are below 500 Hz with levels in [-60, -40). Bins 24-92 are below 2000 Hz with levels in [-80, -65). The rest have levels in [-100, -90). No level is below -100. |
| Audio.GenerateMock | components/audio-processor.tsx:19-47 | The two loops fill fresh 1024-entry arrays with exactly the reference waveform and spectrum buffers. |
| Audio.MockBuffersBounded | components/audio-processor.tsx:19-47 | Both buffers have 1024 entries. Every sample lies within ±0.45 and every level in [-100, -40). |
| Audio.MockSignalFitsDisplays | components/audio-processor.tsx:19-47 | The mock trace stays inside the middle quarter of the waveform canvas. Every mock spectrum bar is 80 to 200 pixels tall, so the one-pixel minimum never applies. |
| Audio.SampleNearMidline | components/waveform-display.tsx:79-80 | A sample within ±0.45 is plotted within 0.1125 canvas heights of the midline. |
| Audio.DisplayBandsAreNotMockBands | components/audio-processor.tsx:33-44 | The display's low band covers bins 0-127 of the mock buffer, which reach past 2.7 kHz, beyond the mock's 2 kHz band edge. |
| Audio.FrameDispatch | components/audio-processor.tsx:85-107 | Live data is used only when both the analyser and the source exist and the reads succeed. Otherwise the frame ends with the mock pair. Only a failing frequency read hands over three buffers. Every frame ends with a waveform buffer followed by a spectrum buffer. |
| Audio.TeardownOnlyWhatExists | components/audio-processor.tsx:147-167 | Each resource is torn down exactly when its ref is set, and frame id 0 counts as unset. |
| Audio.AudioProcessor.constructor | components/audio-processor.tsx:12-17 | All refs start unset, and nothing has been emitted or torn down. |
| Audio.AudioProcessor.InitializeAudio | components/audio-processor.tsx:53-83 | The context is created in all cases. The stream, analyser and source are set only when the microphone is granted, and a refusal leaves them as they were. |
| Audio.AudioProcessor.EmitSoundPulse | components/audio-processor.tsx:114-139 | Without a context nothing happens. With one an oscillator is created. |
| Audio.AudioProcessor.ProcessAudio | components/audio-processor.tsx:85-112 | One frame is handed over as the dispatch rule says. The next frame is requested only while active. |
| Audio.AudioProcessor.StartAnalysis | components/audio-processor.tsx:141-145 | Initialise, emit and process run in that order. The pulse always fires. The stream, the analyser and the source are each set exactly when a microphone was granted now or that ref was set before. The frame is dispatched on them. |
| Audio.AudioProcessor.StopAnalysis | components/audio-processor.tsx:147-167 | The teardown steps for the set refs are recorded in order, and every ref is left as it was. |
| Audio.AudioProcessor.ActivationEffect | components/audio-processor.tsx:170-174 | The effect processes a frame only when active. It changes no ref, and it leaves `isActive` as it was. |
| Audio.StopTwice | components/audio-processor.tsx:147-167 | Two stops repeat the same teardown twice. |
| Audio.StartWithoutMicrophone | components/audio-processor.tsx:141-145 | A fresh active processor started without a microphone hands over exactly one mock frame and requests the next one. |
| Text.TrimIsCore | components/dashboard-layout.tsx:61-62 | `trim` returns a slice of its input that is surrounded only by white space and neither starts nor ends with it. |
| Text.TrimEmptyIff | components/ai-chat.tsx:110 | Trimming yields the empty string exactly when the input is all white space. |
| Text.TrimIdempotent | components/dashboard-layout.tsx:62 | Trimming twice is trimming once. |
| Text.ToLowerIdempotent | components/results-panel.tsx:40 | Lower-casing twice is lower-casing once. Under the ASCII case mapping, lower-casing also forgets a previous upper-casing. |

## Left out

- Floating point: sample values, levels and canvas coordinates are `real`. `Float32Array` rounding and IEEE overflow are not modelled.
- `Math.sin` and `Math.random` are inputs (`MockInputs`) with their stated ranges. The values themselves are not computed.
- The Web Audio and `getUserMedia` calls are represented only by whether each ref is set. This covers the analyser reads, the oscillator and its gain envelope, and the context close.
- Audio.AudioProcessor.InitializeAudio: a failure to create the audio context is not modelled. The context always comes into existence, and only the microphone grant can fail.
- Audio.AudioProcessor.ProcessAudio: the re-arm test reads the processor's current `isActive`. The value the callback captured when it was created is not modelled, nor is the scheduling of `requestAnimationFrame` itself.
- Timers are ordered steps. Every `setTimeout` of the dashboard run and the chat reply is modelled this way. Interleavings are modelled only as far as a stop or a second run placed between steps.
- Dashboard.DashboardPage.StartAnalysis: the method runs the sequence without interruption. Interrupted runs are stated on the step functions (`StopDoesNotCancel`, `OverlappingRunsCanPlayAndRecord`).
- Message ids, timestamps, scrolling, minimising and the chat window's own visibility (`isVisible`, the layout's `aiChatOpen`) are left out. They make no decisions. The dashboard's `showAIChat` flag is modelled, because a run sets it.
- `localStorage` keeps the user record itself rather than its JSON text.
- Text.ToLower: case mapping covers the ASCII letters only. Full Unicode case mapping is not modelled.
- Text.ToLowerIdempotent: the clause that lower-casing forgets an upper-casing holds for the ASCII mapping only. In JavaScript `"ß".toUpperCase().toLowerCase()` is "ss".
- Chat.ReplyIgnoresCaseAndResults: the upper-case clause holds for the ASCII mapping only. In JavaScript "ſerious" gets the menu but its upper-cased form "SERIOUS" gets the emergency reply. Independence from lower-casing and from the results is exact.
- ResultsPanel.MappingsIgnoreCase: the upper-case clause holds for the ASCII mapping only. In JavaScript "warnıng" (dotless i) gets the info icon but its upper-cased form "WARNING" gets the triangle. Agreement with the lower-cased value is exact.
- Login.DerivedUserShape: the avatar is the first character upper-cased by the ASCII mapping, so it always has one character. JavaScript's `toUpperCase` can lengthen a character ("ß" becomes "SS"). `charAt(0)` takes one UTF-16 code unit, so an address starting with an astral character (an emoji) gives a lone surrogate there, while the model takes the whole character.
- Chat.FallbackOpening: a confidence is a number or a value that converts to NaN. `null` and booleans, which JavaScript compares as 0, 1 or 0 (a `null` confidence gets the moderate opening quoting "null%"), are not modelled.
- Canvas primitives, gradients as drawing objects, shadows, fonts and all JSX markup are left out. The renderers return the bars, labels, segments and vertices they would draw.
- `navigator.userAgent` is a parameter of detection.
- The settings and profile pages, the landing page and the lungs icon are not part of this model: they hold no decision logic.
