/** Playback synchronisation and session state of the main screen
    (SpeechFlow/ContentView.swift): the emotion timeline filled by the audio
    classifier's callbacks, the eye-contact timestamps delivered by the video
    analysis, and the 0.2 s timer that, while a video plays, shows the emotion
    and the eye-contact state at the player's current time.

    The player is modelled by its current playback position (`None` when there
    is no player); the audio classifier is an abstract source of
    `(label, time)` appends. */
module PlaybackSync {

  import opened Basics

  /** One `(String, TimeInterval)` entry of `emotionTimeline`. */
  datatype EmotionEvent = EmotionEvent(emotion: string, time: real)

  /** A stored eye-contact time counts at the current time when it lies
      strictly closer than this, in seconds. */
  const EyeContactWindow: real := 0.1

  /** `emotionTimeline.filter { $0.1 <= currentTime }`, in timeline order. */
  function AtOrBefore(timeline: seq<EmotionEvent>, now: real): (r: seq<EmotionEvent>)
    ensures |r| <= |timeline|
    ensures forall e :: e in r ==> e in timeline && e.time <= now
    ensures forall e :: e in timeline && e.time <= now ==> e in r
  {
    if timeline == [] then []
    else
      var last := timeline[|timeline| - 1];
      AtOrBefore(timeline[..|timeline| - 1], now) + (if last.time <= now then [last] else [])
  }

  /** The filter keeps timeline order: filtering a prefix of the timeline gives
      a prefix of the filtered timeline. */
  lemma {:induction false} AtOrBeforeKeepsOrder(timeline: seq<EmotionEvent>, now: real, k: nat)
    requires k <= |timeline|
    ensures AtOrBefore(timeline[..k], now) <= AtOrBefore(timeline, now)
  {
    if k < |timeline| {
      var n := |timeline| - 1;
      assert timeline[..n][..k] == timeline[..k];
      AtOrBeforeKeepsOrder(timeline[..n], now, k);
    } else {
      assert timeline[..k] == timeline;
    }
  }

  /** `emotionTimeline.filter { $0.1 <= currentTime }.last` */
  function LatestAtOrBefore(timeline: seq<EmotionEvent>, now: real): (r: Option<EmotionEvent>)
    ensures r.Some? ==> r.value in timeline && r.value.time <= now
  {
    var before := AtOrBefore(timeline, now);
    if before == [] then None else Some(before[|before| - 1])
  }

  /** `eyeContactTimestamps.contains { abs($0 - currentTime) < 0.1 }`: eye
      contact is shown exactly when some stored time lies strictly within 0.1 s
      of the current time. */
  function NearAny(timestamps: seq<real>, now: real): (r: bool)
    ensures r <==> exists i :: 0 <= i < |timestamps| && Abs(timestamps[i] - now) < EyeContactWindow
  {
    timestamps != [] &&
    (Abs(timestamps[0] - now) < EyeContactWindow || NearAny(timestamps[1..], now))
  }

  // ---------------------------------------------------------------------------
  // The emotion lookup.

  /** No emotion is found exactly when every entry is later than the current time. */
  lemma {:induction false} LatestNoneIffAllLater(timeline: seq<EmotionEvent>, now: real)
    ensures LatestAtOrBefore(timeline, now).None? <==>
            forall i :: 0 <= i < |timeline| ==> timeline[i].time > now
  {
    if timeline != [] {
      var prefix := timeline[..|timeline| - 1];
      LatestNoneIffAllLater(prefix, now);
      assert forall i :: 0 <= i < |prefix| ==> prefix[i] == timeline[i];
    }
  }

  /** The emotion found is the last entry, in timeline order, whose time is not
      after the current time. */
  lemma {:induction false} LatestIsLastQualifying(timeline: seq<EmotionEvent>, now: real, i: nat)
    requires i < |timeline| && timeline[i].time <= now
    requires forall j :: i < j < |timeline| ==> timeline[j].time > now
    ensures LatestAtOrBefore(timeline, now) == Some(timeline[i])
  {
    var n := |timeline| - 1;
    var prefix := timeline[..n];
    if i < n {
      LatestIsLastQualifying(prefix, now, i);
      assert AtOrBefore(timeline, now) == AtOrBefore(prefix, now);
    }
  }

  /** On a timeline sorted by time (the order the classifier emits), the
      emotion found is that of an entry with the greatest time not after the
      current time. */
  lemma LatestOnSortedTimeline(timeline: seq<EmotionEvent>, now: real)
    requires forall i, j :: 0 <= i < j < |timeline| ==> timeline[i].time <= timeline[j].time
    requires LatestAtOrBefore(timeline, now).Some?
    ensures forall i :: 0 <= i < |timeline| && timeline[i].time <= now ==>
            timeline[i].time <= LatestAtOrBefore(timeline, now).value.time
  {
    var k := LastQualifyingIndex(timeline, now);
    LatestIsLastQualifying(timeline, now, k);
  }

  /** The index of the last entry not after the current time, when there is one. */
  lemma LastQualifyingIndex(timeline: seq<EmotionEvent>, now: real) returns (k: nat)
    requires LatestAtOrBefore(timeline, now).Some?
    ensures k < |timeline| && timeline[k].time <= now
    ensures forall j :: k < j < |timeline| ==> timeline[j].time > now
  {
    LatestNoneIffAllLater(timeline, now);
    k := |timeline| - 1;
    while timeline[k].time > now
      invariant 0 <= k < |timeline|
      invariant forall j :: k < j < |timeline| ==> timeline[j].time > now
      invariant exists i :: 0 <= i <= k && timeline[i].time <= now
      decreases k
    {
      k := k - 1;
    }
  }

  /** The timeline of three entries: neutral at 0 s, happy at 1 s, sad at 3 s. */
  const SampleTimeline: seq<EmotionEvent> :=
    [EmotionEvent("neutral", 0.0), EmotionEvent("happy", 1.0), EmotionEvent("sad", 3.0)]

  lemma SampleTimelineLookups()
    ensures LatestAtOrBefore(SampleTimeline, 0.5) == Some(EmotionEvent("neutral", 0.0))
    ensures LatestAtOrBefore(SampleTimeline, 1.5) == Some(EmotionEvent("happy", 1.0))
    ensures LatestAtOrBefore(SampleTimeline, -1.0) == None
  {
    LatestIsLastQualifying(SampleTimeline, 0.5, 0);
    LatestIsLastQualifying(SampleTimeline, 1.5, 1);
    LatestNoneIffAllLater(SampleTimeline, -1.0);
  }

  // ---------------------------------------------------------------------------
  // The eye-contact lookup.

  /** The eye-contact state depends only on which times are stored, not on
      their order or on how often each occurs. */
  lemma NearAnyIgnoresOrder(a: seq<real>, b: seq<real>, now: real)
    requires forall x :: x in a <==> x in b
    ensures NearAny(a, now) == NearAny(b, now)
  {
    if NearAny(a, now) {
      var i :| 0 <= i < |a| && Abs(a[i] - now) < EyeContactWindow;
      assert a[i] in b;
    }
    if NearAny(b, now) {
      var i :| 0 <= i < |b| && Abs(b[i] - now) < EyeContactWindow;
      assert b[i] in a;
    }
  }

  lemma SampleEyeContactLookups()
    ensures NearAny([1.0, 2.0], 1.05)
    ensures !NearAny([1.0, 2.0], 1.5)
  {
  }

  // ---------------------------------------------------------------------------
  // The state of the main screen.

  /** The `@State` fields of `ContentView` that the analysis and the playback
      timer read and write. */
  class ContentView {
    var emotionTimeline: seq<EmotionEvent>
    var currentEmotion: string
    var eyeContactTimestamps: seq<real>
    var currentEyeContact: bool
    /** The player's current playback position; `None` when there is no player. */
    var player: Option<real>
    /** Whether the repeating 0.2 s timer of `startEmotionSync` is scheduled. */
    var timerScheduled: bool

    /** The emotion shown is empty or the label of an entry of the timeline. */
    ghost predicate Valid()
      reads this
    {
      currentEmotion == "" ||
      exists i :: 0 <= i < |emotionTimeline| && emotionTimeline[i].emotion == currentEmotion
    }

    constructor ()
      ensures Valid()
      ensures emotionTimeline == [] && currentEmotion == ""
      ensures eyeContactTimestamps == [] && !currentEyeContact
      ensures player == None && !timerScheduled
    {
      emotionTimeline := [];
      currentEmotion := "";
      eyeContactTimestamps := [];
      currentEyeContact := false;
      player := None;
      timerScheduled := false;
    }

    /** `reset()`: clears the emotion timeline and the shown emotion, stops
        the timer and drops the player; the eye-contact data stay. */
    method Reset()
      requires Valid()
      modifies this
      ensures Valid()
      ensures emotionTimeline == [] && currentEmotion == ""
      ensures player == None && !timerScheduled
      ensures eyeContactTimestamps == old(eyeContactTimestamps)
      ensures currentEyeContact == old(currentEyeContact)
    {
      emotionTimeline := [];
      currentEmotion := "";
      timerScheduled := false;
      player := None;
    }

    /** The emotion callback: `emotionTimeline.append((emotion, time))`. */
    method AppendEmotion(emotion: string, time: real)
      requires Valid()
      modifies this
      ensures Valid()
      ensures emotionTimeline == old(emotionTimeline) + [EmotionEvent(emotion, time)]
      ensures currentEmotion == old(currentEmotion) && currentEyeContact == old(currentEyeContact)
      ensures eyeContactTimestamps == old(eyeContactTimestamps)
      ensures player == old(player) && timerScheduled == old(timerScheduled)
    {
      emotionTimeline := emotionTimeline + [EmotionEvent(emotion, time)];
      assert forall i :: 0 <= i < |old(emotionTimeline)| ==> emotionTimeline[i] == old(emotionTimeline)[i];
    }

    /** The eye-contact result handler: `eyeContactTimestamps = timestamps`. */
    method ReceiveEyeContact(timestamps: seq<real>)
      requires Valid()
      modifies this
      ensures Valid()
      ensures eyeContactTimestamps == timestamps
      ensures emotionTimeline == old(emotionTimeline) && currentEmotion == old(currentEmotion)
      ensures currentEyeContact == old(currentEyeContact)
      ensures player == old(player) && timerScheduled == old(timerScheduled)
    {
      eyeContactTimestamps := timestamps;
    }

    /** `player = AVPlayer(url: ...)` followed by `startEmotionSync()`: a new
        player at position 0 and the timer (re)scheduled. */
    method StartPlayback()
      requires Valid()
      modifies this
      ensures Valid()
      ensures player == Some(0.0) && timerScheduled
      ensures emotionTimeline == old(emotionTimeline) && currentEmotion == old(currentEmotion)
      ensures eyeContactTimestamps == old(eyeContactTimestamps)
      ensures currentEyeContact == old(currentEyeContact)
    {
      player := Some(0.0);
      timerScheduled := true;
    }

    /** Playback moves the player's position; nothing else changes. */
    method PlaybackMovesTo(position: real)
      requires Valid() && player.Some?
      modifies this`player
      ensures Valid()
      ensures player == Some(position)
    {
      player := Some(position);
    }

    /** One firing of the timer. Without a player nothing changes. Otherwise
        the emotion shown becomes the label of the last entry not after the
        current time (and stays as it was when there is none), and eye contact
        is shown when a stored time lies within 0.1 s of the current time. */
    method Tick()
      requires Valid() && timerScheduled
      modifies this`currentEmotion, this`currentEyeContact
      ensures Valid()
      ensures player.None? ==> currentEmotion == old(currentEmotion) && currentEyeContact == old(currentEyeContact)
      ensures player.Some? ==>
        currentEmotion == (match LatestAtOrBefore(emotionTimeline, player.value)
                           case Some(e) => e.emotion
                           case None => old(currentEmotion))
      ensures player.Some? ==> currentEyeContact == NearAny(eyeContactTimestamps, player.value)
    {
      if player.None? {
        return;
      }
      var currentTime := player.value;
      var latest := LatestAtOrBefore(emotionTimeline, currentTime);
      if latest.Some? {
        currentEmotion := latest.value.emotion;
        ghost var i :| 0 <= i < |emotionTimeline| && emotionTimeline[i] == latest.value;
      }
      currentEyeContact := NearAny(eyeContactTimestamps, currentTime);
    }
  }
}
