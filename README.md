# SpeechFlow analysis core, modelled in Dafny

SpeechFlow is an iOS app. It analyses a speaking video and plays it back with two live read-outs: the emotion heard in the audio and whether the speaker is making eye contact. This project models the parts of the app that have algorithmic content, and proves properties of them:

- **Offline eye-contact analysis** (`eye_tracker.dfy`, `eye_geometry.dfy`). The video is sampled at times `0, s, 2s, …` below its duration, in CMTime ticks of 1/600 s. The face-landmark heuristic runs on every sampled frame. The time is collected once per face that makes eye contact. The collected list goes to the result handler when the frame at the last sampled time is processed. The heuristic (`isMakingEyeContact` / `isCentered`) rejects faces turned more than 0.4 rad. It rejects faces missing a pupil or eye region. Otherwise, for each eye, the first pupil point must lie in the inclusive band `[minY + 0.35h, minY + 0.65h]` of the eye outline, and strictly within 0.02 of the outline's mean x. Both eyes must pass.
- **Playback synchronisation and session state** (`content_view.dfy`). The `ContentView` fields are modelled as a class: the emotion timeline, the shown emotion, the eye-contact timestamps, the shown eye-contact flag, the player and the timer. Every 0.2 s the timer shows the label of the last timeline entry not after the player's time. When there is no such entry, the shown emotion stays as it was. Eye contact is shown when a stored time lies strictly within 0.1 s of the player's time. `reset` and the analysis callbacks change the fields as the app does.
- **Range clamp** (`clamp.dfy`). `CGFloat.clamped(to:)` and the cosine clamp of the live AR view.

`basics.dfy` holds `Option` and `Abs`, which the other modules share.

External frameworks are inputs to the model. The frame extractor and the Vision landmark detector are an oracle `frameAt`. It gives, per requested time, either no image or a list of faces. Each face has an optional yaw and optional landmark point lists. The audio classifier is an abstract source of `(emotion, time)` appends. The player is its current playback position, `None` when there is no player. Coordinates and seconds are `real`.

Some behaviour of the code is easy to miss, and the model keeps it as written:
- When no timeline entry is at or before the current time, the tick keeps the previously shown emotion.
- `analyzeEyeContact` samples every 0.5 s unless its caller passes another interval.
- Sampled frames are extracted and classified without any limit on how many are in flight at once, and at their full size.
- Eye-contact times form a list. A time appears once per qualifying face, so duplicates occur.
- A missing image at the last sampled time skips the completion check, so the result handler never fires.
- A duration of zero or less samples nothing, so the result handler never fires.

## Model

| member | source | states |
|---|---|---|
| `ARClamp.Clamped` | SpeechFlow/CustomARView.swift:148-150 | the result lies in the closed range; it is x itself when x is in the range, the lower bound when x is below, the upper bound when x is above |
| `ARClamp.ClampedIdempotent` | SpeechFlow/CustomARView.swift:149 | clamping an already clamped value changes nothing |
| `ARClamp.ClampedMonotone` | SpeechFlow/CustomARView.swift:149 | x <= y implies clamped(x) <= clamped(y) |
| `ARClamp.ClampedIsNearest` | SpeechFlow/CustomARView.swift:149 | the clamped value is a point of the range nearest to x |
| `ARClamp.ClampedDot` | SpeechFlow/CustomARView.swift:110 | the clamped cosine lies in [-1, 1], equals the dot product when that is already in range, and is the range clamp with range -1...1 |
| `EyeContactGeometry.MinY` | SpeechFlow/EyeTracker.swift:136-137 | the minimum is the y of some outline point and no point lies lower |
| `EyeContactGeometry.MaxY` | SpeechFlow/EyeTracker.swift:136-138 | the maximum is the y of some outline point and no point lies higher |
| `EyeContactGeometry.CenteredCharacterization` | SpeechFlow/EyeTracker.swift:130-154 | isCentered holds iff the pupil has a point, the eye has at least two, the first pupil point is strictly within 0.02 of the outline's mean x, and its y is in the inclusive band lo + 0.35(hi - lo) .. lo + 0.65(hi - lo), where lo and hi are the lowest and highest outline points |
| `EyeContactGeometry.IsCentered` | SpeechFlow/EyeTracker.swift:130-154 | a centered pupil has a point, its eye has at least two, the first pupil point is strictly within 0.02 of the mean x and lies between the outline's lowest and highest y; CenteredCharacterization gives the exact condition |
| `EyeContactGeometry.IsMakingEyeContact` | SpeechFlow/EyeTracker.swift:115-160 | a face making eye contact has landmarks and no yaw of magnitude above 0.4; EyeContactByLandmarks gives the exact condition |
| `EyeContactGeometry.SumXBounds` | SpeechFlow/EyeTracker.swift:148 | the `reduce(0, +)` of n x coordinates that all lie in [lo, hi] lies in [n lo, n hi] |
| `EyeContactGeometry.MeanXWithinOutline` | SpeechFlow/EyeTracker.swift:147-148 | the eye's horizontal centre, the sum divided by pointCount, lies between the outline's leftmost and rightmost x |
| `EyeContactGeometry.TooFewPointsNotCentered` | SpeechFlow/EyeTracker.swift:131 | a pupil with no points or an eye with fewer than two points is never centered |
| `EyeContactGeometry.TurnedFaceRejected` | SpeechFlow/EyeTracker.swift:117-120 | a yaw of magnitude above 0.4 rejects the face whatever its landmarks |
| `EyeContactGeometry.EyeContactByLandmarks` | SpeechFlow/EyeTracker.swift:115-160 | with the yaw absent or of magnitude at most 0.4 (0.4 included), the result is true iff landmarks and all four regions are present and both eyes are centered |
| `EyeContactGeometry.OneEyeOffRejects` | SpeechFlow/EyeTracker.swift:159 | one eye failing its check forces false |
| `EyeContactGeometry.CentredPupilsMakeContact` | SpeechFlow/EyeTracker.swift:115-160 | a face with both pupils at the centre of their eyes makes eye contact |
| `EyeContactGeometry.OffCentrePupilBreaksContact` | SpeechFlow/EyeTracker.swift:115-160 | the same face with one pupil 0.05 off centre does not |
| `EyeTracker.TicksOf` | SpeechFlow/EyeTracker.swift:80 | the step is the tick nearest to interval × 600, and it is not negative for a non-negative interval |
| `EyeTracker.Seconds` | SpeechFlow/EyeTracker.swift:96 | CMTimeGetSeconds of a time at timescale 600: the seconds value times 600 gives back the ticks, and it is non-negative for non-negative ticks |
| `EyeTracker.DefaultStep` | SpeechFlow/EyeTracker.swift:60 | the default interval of 0.5 s is a step of 300 ticks |
| `EyeTracker.SampleTimes` | SpeechFlow/EyeTracker.swift:76-81 | the loop produces exactly the multiples 0, s, 2s, … of the step, as many as SampleCount says |
| `EyeTracker.SampleCountIsCeiling` | SpeechFlow/EyeTracker.swift:76-81 | when the n-th multiple is the first one at or after the duration, n is the ceiling of duration × 600 / step, where step is the interval rounded to the nearest tick (for the default 0.5 s, 300 ticks, that is the ceiling of duration / 0.5); n is 0 for a duration of zero or less |
| `EyeTracker.NonPositiveStepNeverStops` | SpeechFlow/EyeTracker.swift:76-81 | with a step of zero or fewer ticks and a positive duration, every multiple of the step is still before the duration, so the loop guard never fails |
| `EyeTracker.SamplesCoverDuration` | SpeechFlow/EyeTracker.swift:78 | every sampled time is before the duration and the next multiple of the step is not |
| `EyeTracker.SamplesShape` | SpeechFlow/EyeTracker.swift:76-83 | sampled times are strictly increasing; with a positive duration the first is 0; otherwise there are none and lastRequestedTime is nil |
| `EyeTracker.LastSample` | SpeechFlow/EyeTracker.swift:83 | for a positive duration, lastRequestedTime is the largest multiple of the step that lies before the duration: it is below the duration and the next multiple is not |
| `EyeTracker.QualifyingFaces` | SpeechFlow/EyeTracker.swift:94-95 | no more faces qualify than were detected |
| `EyeTracker.EyeContactRun.constructor` | SpeechFlow/EyeTracker.swift:83-84 | a run starts with lastRequestedTime = times.last and no collected or delivered times |
| `EyeTracker.EyeContactRun.HandleFrame` | SpeechFlow/EyeTracker.swift:86-111 | without an image nothing changes; otherwise the time is appended once per face making eye contact, and the collected list is delivered iff the time equals lastRequestedTime; every collected time stays a requested time |
| `EyeTracker.AnalyzeEyeContact` | SpeechFlow/EyeTracker.swift:60-113 | a failed duration load delivers nothing; otherwise the handler receives the collected times exactly once if the frame at the last sampled time has an image, and never otherwise |
| `EyeTracker.Delivery` | SpeechFlow/EyeTracker.swift:106-110 | the result handler is invoked at most once; it is invoked iff some time was sampled and the frame at the last one has an image, and then with the collected times |
| `EyeTracker.AllHits` | SpeechFlow/EyeTracker.swift:94-96 | the times collected after all frames are processed; every one of them is the seconds value of a sampled time |
| `EyeTracker.HitsCountFaces` | SpeechFlow/EyeTracker.swift:94-96 | each sampled time occurs in the collection once per qualifying face in its frame, so several qualifying faces give duplicates |
| `EyeTracker.NoDurationNoResult` | SpeechFlow/EyeTracker.swift:78-83 | with a duration of zero or less nothing is sampled, lastRequestedTime is nil and the handler never fires |
| `EyeTracker.MissingLastFrameNoResult` | SpeechFlow/EyeTracker.swift:87 | if the frame at the last sampled time has no image, the guard returns first and the handler never fires |
| `PlaybackSync.AtOrBefore` | SpeechFlow/ContentView.swift:229 | the filter keeps exactly the timeline entries at or before the current time: every kept entry qualifies and every qualifying entry is kept |
| `PlaybackSync.AtOrBeforeKeepsOrder` | SpeechFlow/ContentView.swift:229 | the filter keeps timeline order: filtering any prefix of the timeline gives a prefix of the filtered timeline |
| `PlaybackSync.LatestAtOrBefore` | SpeechFlow/ContentView.swift:229 | a found entry is in the timeline and not after the current time |
| `PlaybackSync.LatestNoneIffAllLater` | SpeechFlow/ContentView.swift:229-231 | no entry is found iff every entry is later than the current time |
| `PlaybackSync.LatestIsLastQualifying` | SpeechFlow/ContentView.swift:229-230 | the entry found is the last one, in timeline order, that is not after the current time |
| `PlaybackSync.LatestOnSortedTimeline` | SpeechFlow/ContentView.swift:229-230 | on a timeline sorted by time, the entry found has the greatest time not after the current time |
| `PlaybackSync.SampleTimelineLookups` | SpeechFlow/ContentView.swift:229-230 | on neutral@0, happy@1, sad@3, the lookup gives neutral at 0.5, happy at 1.5 and nothing at -1 |
| `PlaybackSync.NearAny` | SpeechFlow/ContentView.swift:234 | the `contains` holds iff some stored time t has abs(t - now) < 0.1 |
| `PlaybackSync.NearAnyIgnoresOrder` | SpeechFlow/ContentView.swift:234 | the eye-contact state depends only on which times are stored, not on their order or multiplicity |
| `PlaybackSync.SampleEyeContactLookups` | SpeechFlow/ContentView.swift:234 | with times 1.0 and 2.0, eye contact shows at 1.05 and not at 1.5 |
| `PlaybackSync.ContentView.constructor` | SpeechFlow/ContentView.swift:17-31 | the initial state has empty timelines, no emotion, no eye contact, no player and no timer |
| `PlaybackSync.ContentView.Reset` | SpeechFlow/ContentView.swift:215-220 | reset empties the emotion timeline, sets the emotion to "", drops the player and stops the timer, and leaves the eye-contact times and flag unchanged |
| `PlaybackSync.ContentView.AppendEmotion` | SpeechFlow/ContentView.swift:134 | an emotion callback appends (emotion, time) at the end, keeps every earlier entry, and changes nothing else |
| `PlaybackSync.ContentView.ReceiveEyeContact` | SpeechFlow/ContentView.swift:124 | the eye-contact result replaces the stored timestamps and changes nothing else |
| `PlaybackSync.ContentView.StartPlayback` | SpeechFlow/ContentView.swift:140-142 | a new player starts at position 0 and the timer is scheduled; the timelines and shown values are unchanged |
| `PlaybackSync.ContentView.PlaybackMovesTo` | SpeechFlow/ContentView.swift:226 | the player's position, read by the tick, moves; nothing else changes |
| `PlaybackSync.ContentView.Tick` | SpeechFlow/ContentView.swift:225-235 | without a player nothing changes; otherwise the emotion becomes that of the last entry not after the current time, or stays when there is none, and eye contact is whether some time lies within 0.1 s; only those two fields may change, and the shown emotion is always "" or a label of the timeline |

## Left out

- Loading the duration, the image generator, the Vision request, the M4A export, the audio session, AVPlayer and Timer scheduling are outside frameworks. They appear as inputs: the loaded duration as `Option<real>`, frames through `frameAt`, and the player's position as `Option<real>`.
- Floating point is modelled as `real`. This covers the Double and CGFloat coordinates, the rounding of `CMTimeGetSeconds`, the order of the `reduce(0, +)` sum, and NaN in `min`/`max`.
- EyeTracker.TicksOf: states only that the step is the nearest tick. The tie rule (halves away from zero) appears in its body but not in its contract, because the framework's rounding mode is not visible here.
- EyeTracker.AnalyzeEyeContact: processes the generator callbacks one at a time in request order. The unsynchronised concurrent appends to `eyeContactTimes` and out-of-order completions are not modelled. The list handed to the result handler is taken at the completion check. The Swift closure reads the captured variable later, on the main queue.
- EyeTracker.SampleTimes, EyeTracker.AnalyzeEyeContact: require a positive step whenever the duration is positive. With an interval that rounds to zero or fewer ticks, the Swift loop never ends: `t` stays at or falls below 0, so it stays below a positive duration (`NonPositiveStepNeverStops`).
- `print` logging, SwiftUI view bodies, `LiveEyeContactView`, the photo picker (SpeechFlow/VideoPicker.swift) and the `EyeContactData` record are user interface, I/O or data with no behaviour.
- SpeechFlow/EmotionAnalyzer.swift wraps SoundAnalysis and a CoreML model that are not part of this model. Its top-1 forwarding appears only as the `(emotion, time)` appends of `ContentView.AppendEmotion`.
- The ARKit gaze projection (`detectGazePoint`), the `acos` angle test in `detectEyeContact`, the screen-size ranges and the AR session set-up are 3-D float numerics and framework calls. Only the clamps are modelled.
- The task and dispatch-queue hops, and the ordering between the eye-contact and emotion pipelines, are not modelled. Each callback is one atomic method call on the `ContentView` model.
- The commented-out earlier version of `analyzeEyeContact` (SpeechFlow/EyeTracker.swift:13-58) is dead code.
