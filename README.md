# AIDADOC chat demo: a verified model of its playback logic

The demo plays a fixed, scripted chatbot conversation inside a phone frame.
A sequencer reveals the script's steps one at a time on timers. Partway
through it stops for a simulated incoming call, and resumes once the viewer
accepts the call. Three small widgets (a multiple-choice list and two star
pickers) hold their own selection state. This project models that logic in
Dafny and proves what it promises.

- `script.dfy` (module `Script`): the `Message` record as `Step`, the
  56-step `chatFlow` array as `ChatFlow` (written as ten consecutive
  sections), and `Played`, the non-call steps of a script prefix.
- `sequencer.dfy` (module `Sequencer`): the sequencing effect and
  `handleCallEnd` as pure transitions over a `State`, an invariant that
  holds of every reachable state, a full playback `Play`, and the class
  `Player`. `Player` holds the component's state in fields, and its methods
  are specified by the transitions.
- `multi_choice.dfy`, `interactive_stars.dfy`, `star_rating.dfy`: the three
  widgets. Each has pure transition functions, lemmas about runs of clicks,
  and a class whose methods are specified by those functions.
- `stars.dfy` (module `Stars`): the lit-star rule shared by both star widgets.
- `wrappers.dfy` (module `Wrappers`): `Option`, and JavaScript's `x || d`
  on a nullable number.

Time is an integer clock in milliseconds. The effect can have at most one
pending timer, because every re-run first cancels the previous one. The
timer armed by `handleCallEnd` is never cancelled, so it has a slot of its
own. `Fire` fires whichever timer is due first. On a tie the resume timer
fires first, since it was armed first. After each state change the effect
re-runs only if `currentStep` or `callEnded` changed.

Facts of the code that the model follows:
- The reveal delay is a fixed 1200 ms (500 ms for the first step).
- No widget reports a choice back to the sequencer, and no user reply is
  synthesised. The choice buttons have no click handler, and `App` passes
  no `onRate` or `onSubmit`.
- `handleCallEnd` is not idempotent: every invocation arms another 500 ms
  timer that advances the cursor. The model enables it only while
  `showCall` holds, that is while the overlay is rendered in its final
  state. The overlay's exit animation is a window in which the accept
  button may still receive a tap; that window is not modelled (see
  "## Left out").

The invariant `Sequencer.Inv` shows that the effect's blocking branch
(App.tsx:358-360) is never taken. The cursor passes the call step only
through the resume timer, and that timer is armed after `callEnded` is set.

## Model

| member | source | states |
|---|---|---|
| `Script.Played` | src/App.tsx:364-369 | a step is in the transcript of a script prefix iff it is in that prefix and is not a `call` step; never longer than the prefix |
| `Script.PlayedSnoc` | src/App.tsx:364-368 | revealing one more step appends exactly that step, unless it is a `call` step, which is never appended |
| `Script.PlayedConcat` | src/App.tsx:364-368 | the transcript of a concatenation is the concatenation of the transcripts |
| `Script.PlayedAroundCall` | src/App.tsx:351-369 | a script with a single `call` step plays as everything before it followed by everything after it |
| `Script.Assemble` | src/App.tsx:25-345 | ten sections laid out as those of `chatFlow` (call-free sections numbered on from each other around a single call step with id 28) make a 56-step script numbered 1..56 whose only call step is at index 27 |
| `Script.ChatFlowShape` | src/App.tsx:25-345 | `chatFlow` has 56 steps with ids 1..56 in order, opens with a bot message, and step i is a `call` iff i is 27 (id 28) |
| `Script.OneCallPlayed` | src/App.tsx:351-369 | a script whose only `call` step is at index k has exactly one call step, and plays as the steps before k followed by the steps after k |
| `Sequencer.Schedule` | src/App.tsx:347-373 | past the end nothing is armed; at a call step only the overlay timer is armed, at +1000 ms; right after a call step nothing is armed iff the call has not ended; in every other case a reveal of exactly the current step is armed, at +500 ms for step 0 and +1200 ms after that |
| `Sequencer.WithEffect` | src/App.tsx:347-373 | one re-run of the effect: the cleanup cancels the pending timer and the body arms the one `Schedule` states; specified by `Schedule` and `Player.RunEffect` |
| `Sequencer.Mount` | src/App.tsx:19-22 | the initial state followed by the first effect run; specified by `MountInv` and `FirstReveal` |
| `Sequencer.Fire` | src/App.tsx:351-386 | the earliest pending timer fires (the resume timer on a tie); specified by `FireCases`, `FireInv`, `FireProgress`, `RevealCadence` and `AcceptedCallStaysHidden` |
| `Sequencer.EndCall` | src/App.tsx:381-387 | `handleCallEnd`; specified by `EndCallInv`, `EndCallProgress` and `AcceptedCallStaysHidden` |
| `Sequencer.MountInv` | src/App.tsx:19-22 | the first render and the first effect run give a reachable state |
| `Sequencer.FireInv` | src/App.tsx:352-369 | every timer firing keeps the invariant: the transcript is the non-call steps before the cursor, the cursor is within 0..length, at most one effect timer is pending, and a cursor past a call step means the call has ended |
| `Sequencer.EndCallInv` | src/App.tsx:381-387 | accepting the call keeps the invariant |
| `Sequencer.FireCases` | src/App.tsx:351-369 | each firing does one of three things. It shows the overlay at a call step, leaving the cursor and transcript as they were. Or it reveals the current non-call step, appending exactly that step and advancing the cursor by one. Or it moves past an ended call without appending. The clock never goes back. |
| `Sequencer.NoDeadlock` | src/App.tsx:358-360 | before the end of the script a timer is always pending or the overlay is showing, so the hard block is never reached |
| `Sequencer.AtEnd` | src/App.tsx:348 | at the end nothing is pending, the overlay is hidden, and the transcript holds every non-call step of the script in order |
| `Sequencer.Play` | src/App.tsx:347-387 | from any reachable state the playback terminates at the end of the script with the full transcript, only extending the transcript it started with, and shows the overlay once for each call step still ahead |
| `Sequencer.PlayFromMount` | src/App.tsx:347-387 | a playback from mount reaches the end with nothing pending and no overlay, shows every non-call step in order, and shows one overlay per call step |
| `Sequencer.FirstReveal` | src/App.tsx:362-369 | when the first step is not a call, it is revealed 500 ms after mount and is then the whole transcript |
| `Sequencer.RevealCadence` | src/App.tsx:362-371 | after a reveal, the next non-call step is scheduled 1200 ms later |
| `Sequencer.AcceptedCallStaysHidden` | src/App.tsx:351-387 | accepting hides the overlay, re-arms the 1000 ms overlay timer and arms the 500 ms resume. The resume fires first, advances the cursor by one without appending, and replaces the overlay timer with the next reveal at +1200 ms (or nothing at the end), so the overlay does not come back |
| `Sequencer.OneCallPlayback` | src/App.tsx:347-387 | for a script whose only call step is at index k > 0: the first step is revealed alone 500 ms after mount, the playback ends with every step but the call in order, and the overlay appears exactly once |
| `Sequencer.ChatFlowPlayback` | src/App.tsx:25-387 | the demo opens with the bot greeting revealed at 500 ms; its whole playback ends with the 55 non-call steps of `chatFlow` in order, and the call overlay appears exactly once |
| `Sequencer.Player.constructor` | src/App.tsx:19-22 | the initial state is an empty transcript, cursor 0 and no call, followed by the first effect run; the result is reachable |
| `Sequencer.Player.RunEffect` | src/App.tsx:347-373 | the effect cancels its pending timer and arms the one `Schedule` gives, changing nothing else |
| `Sequencer.Player.Tick` | src/App.tsx:347-387 | the earliest timer fires exactly as `Fire` says, and the invariant is kept |
| `Sequencer.Player.HandleCallEnd` | src/App.tsx:381-387 | hides the overlay, sets `callEnded`, arms the 500 ms resume timer and re-runs the effect if `callEnded` changed; the invariant is kept |
| `Wrappers.NumberOr` | src/components/InteractiveStars.tsx:11 | JavaScript's or-default on a nullable number keeps a non-zero number and gives `d` for null and for 0 |
| `Stars.LitRow` | src/components/StarRating.tsx:22-38 | the row of five stars is the level clamped to 0..5 filled stars followed by empty ones |
| `Stars.LitStar` | src/components/StarRating.tsx:35 | star k of 1..5 is filled iff k is at most the level |
| `Stars.LitRowIsPrefix` | src/components/StarRating.tsx:35 | the filled stars form a prefix of the row |
| `Stars.LitCountIsLevel` | src/components/InteractiveStars.tsx:23-38 | the number of filled stars is the level clamped to 0..5 |
| `MultiChoiceWidget.Without` | src/components/MultiChoice.tsx:27 | filtering out an option keeps exactly the other elements, never lengthens the list, and leaves it unchanged when the option is absent |
| `MultiChoiceWidget.WithoutMultiset` | src/components/MultiChoice.tsx:27 | filtering keeps every other element with its multiplicity and drops every copy of the option |
| `MultiChoiceWidget.WithoutAt` | src/components/MultiChoice.tsx:27 | in a duplicate-free list, filtering out the element at index i leaves the elements before i followed by those after i, in order |
| `MultiChoiceWidget.Toggled` | src/components/MultiChoice.tsx:25-29 | a toggle flips the tapped option's membership and leaves every other option's membership alone; an absent option is appended at the end; a present one is removed, keeping the other elements with their multiplicity |
| `MultiChoiceWidget.ToggleOffKeepsOrder` | src/components/MultiChoice.tsx:25-28 | untapping a selected option of a duplicate-free selection removes just it and keeps the others in order |
| `MultiChoiceWidget.Toggle` | src/components/MultiChoice.tsx:15-31 | `handleToggle`; specified by `ToggleFlipsHighlight`, `SingleSelectFirstTapWins`, `SubmittedIsFinal` and `MultiSelectNoDuplicates` |
| `MultiChoiceWidget.Submit` | src/components/MultiChoice.tsx:33-38 | `handleSubmit`; specified by `SubmitIsFinal` |
| `MultiChoiceWidget.SubmitOffered` | src/components/MultiChoice.tsx:61 | the submit button is shown in multi-select mode with something selected and nothing submitted; used by `SubmitIsFinal` |
| `MultiChoiceWidget.Highlighted` | src/components/MultiChoice.tsx:51-56 | an option is drawn highlighted with a check mark iff it is selected; used by `ToggleFlipsHighlight` |
| `MultiChoiceWidget.ToggledKeepsNoDuplicates` | src/components/MultiChoice.tsx:25-29 | toggling keeps the selection free of duplicates |
| `MultiChoiceWidget.ToggleTwice` | src/components/MultiChoice.tsx:25-29 | toggling the same option twice restores membership, and restores the exact list when the option was absent at first |
| `MultiChoiceWidget.ToggleFlipsHighlight` | src/components/MultiChoice.tsx:51 | in multi-select mode a tap flips the tapped option's highlight and no other |
| `MultiChoiceWidget.SubmittedIsFinal` | src/components/MultiChoice.tsx:16 | once submitted, any sequence of taps changes nothing and reports nothing |
| `MultiChoiceWidget.SingleSelectFirstTapWins` | src/components/MultiChoice.tsx:18-23 | in single-select mode the first tap selects only that option and submits; over any run of taps it is the only report, with that option after 300 ms |
| `MultiChoiceWidget.MultiSelectNoDuplicates` | src/components/MultiChoice.tsx:12-29 | in multi-select mode, starting from a duplicate-free selection such as the initial empty one, any taps keep it duplicate-free and unsubmitted, and report nothing |
| `MultiChoiceWidget.SubmitIsFinal` | src/components/MultiChoice.tsx:33-38 | with an empty selection submit does nothing. Otherwise it reports exactly the selection, hides the submit button and freezes the widget. |
| `MultiChoiceWidget.MultiChoice.constructor` | src/components/MultiChoice.tsx:11-13 | `allowMultiple` defaults to true; the widget starts with nothing selected or submitted |
| `MultiChoiceWidget.MultiChoice.HandleToggle` | src/components/MultiChoice.tsx:15-31 | the new state and report are those of `Toggle` |
| `MultiChoiceWidget.MultiChoice.HandleSubmit` | src/components/MultiChoice.tsx:33-38 | the new state and report are those of `Submit` |
| `InteractiveStarsWidget.Press` | src/components/InteractiveStars.tsx:28-30 | a click on a star button; specified by `RatedIsFinal`, `FirstClickIsFinal` and `InteractiveStars.Click` |
| `InteractiveStarsWidget.Disabled` | src/components/InteractiveStars.tsx:30 | the buttons are disabled once a rating exists; used by `AutoSelectNeverRates` |
| `InteractiveStarsWidget.Level` | src/components/InteractiveStars.tsx:35 | the displayed level, `selectedRating` or 0; specified by `LitStars` |
| `InteractiveStarsWidget.InitialRating` | src/components/InteractiveStars.tsx:11 | the initial rating is present iff `autoSelect` is given and non-zero, and it is then `autoSelect` |
| `InteractiveStarsWidget.LitStars` | src/components/InteractiveStars.tsx:35 | star k is lit iff a non-zero rating is at least k; a rating of k in 0..5 lights k stars and no rating lights none |
| `InteractiveStarsWidget.RatedIsFinal` | src/components/InteractiveStars.tsx:30 | once a rating exists, any clicks change nothing and report nothing |
| `InteractiveStarsWidget.FirstClickIsFinal` | src/components/InteractiveStars.tsx:13-18 | from no rating, the first click sets the rating and is the only click reported, 300 ms later |
| `InteractiveStarsWidget.AutoSelectNeverRates` | src/components/InteractiveStars.tsx:11 | with a non-zero `autoSelect` the widget starts disabled at that level and never calls `onRate` |
| `InteractiveStarsWidget.InteractiveStars.constructor` | src/components/InteractiveStars.tsx:11 | the rating starts as `InitialRating(autoSelect)` |
| `InteractiveStarsWidget.InteractiveStars.HandleClick` | src/components/InteractiveStars.tsx:13-18 | a click sets the rating to the clicked star and reports it after 300 ms |
| `InteractiveStarsWidget.InteractiveStars.Click` | src/components/InteractiveStars.tsx:28-30 | a click on a disabled star does nothing; otherwise it is `handleClick` |
| `StarRatingWidget.Click` | src/components/StarRating.tsx:13-16 | `handleClick`; specified by `LastClickWins` |
| `StarRatingWidget.Enter` | src/components/StarRating.tsx:27 | entering a star hovers it; specified by `HoverPreview` |
| `StarRatingWidget.Leave` | src/components/StarRating.tsx:28 | leaving clears the hover; specified by `HoverPreview` |
| `StarRatingWidget.Level` | src/components/StarRating.tsx:35 | the displayed level, hover else selection else 0; specified by `HoverPreview` and `LitStars` |
| `StarRatingWidget.LastClickWins` | src/components/StarRating.tsx:13-16 | every click is reported at once and in order, and the last click is the rating |
| `StarRatingWidget.HoverPreview` | src/components/StarRating.tsx:27-28 | hovering shows the hovered star's level; leaving falls back to the rating, or to no star |
| `StarRatingWidget.LitStars` | src/components/StarRating.tsx:35 | star k is lit iff k is at most the level (hover, else rating, else 0); a rating of k with no hover lights k stars |
| `StarRatingWidget.StarRating.constructor` | src/components/StarRating.tsx:10-11 | no hover and no rating at first |
| `StarRatingWidget.StarRating.HandleClick` | src/components/StarRating.tsx:13-16 | the rating becomes the clicked star, which is also the value passed to `onRate` |
| `StarRatingWidget.StarRating.MouseEnter` | src/components/StarRating.tsx:27 | the hovered star becomes the entered one |
| `StarRatingWidget.StarRating.MouseLeave` | src/components/StarRating.tsx:28 | the hover is cleared |

## Left out

- Rendering (JSX layout, styling classes, `motion` animations) is not modelled. It is presentation only.
- The scroll-to-bottom effect (src/App.tsx:375-379) is DOM I/O.
- The link-text rendering split (src/App.tsx:427) is presentation-only string slicing.
- src/components/IncomingCall.tsx, ChatBubble.tsx and ActionButtons.tsx are not part of this model. Of them, only the overlay's accept button carries behaviour, and that behaviour is `HandleCallEnd`. The decline button has no handler.
- Real timers, React rendering and batching are abstracted. Each state setter is applied, and the effect then re-runs when a dependency changed. Timers are due times on an integer clock.
- The clock advances only when a timer fires; there is no "time passes with nothing pending" event. The viewer accepts the call at the instant the overlay appears, so timings after the call count from that instant.
- Sequencer.Play: models a viewer who accepts the call as soon as it shows. A viewer who never accepts leaves the playback waiting at the call, as the source does.
- Sequencer.EndCall: enabled only while `showCall` holds. After the first tap sets `showCall` to false, the overlay (src/App.tsx:478-480, src/components/IncomingCall.tsx:14) plays its exit animation and its accept button, still wired to `handleCallEnd`, may take a second tap. Such a tap would arm a second 500 ms resume timer; that timer would move the cursor once more, past the step with id 29 before its 1200 ms reveal fires, so that step would never be shown. Timers from repeated invocations are not modelled, so the model does not capture this double-tap path.
- Unmounting a component before its timer fires is not modelled. This covers the sequencer's cleanup on teardown and the widgets' 300 ms report timers.
- The widgets' optional callbacks (`onSubmit`, `onRate`) are modelled as returned reports carrying their delay. `App` passes none of them.
- `autoSelect` is a whole number or absent. `NaN`, which `autoSelect || null` would also turn into no rating, is not modelled.
- The `showCheckmark` field of `Message` is not modelled, because no scripted step sets it.
