/** components/modals/ExerciseDemoModal.tsx: a demo video chosen from the
    activity's name by keyword, in a fixed order of priority, and a read-aloud
    toggle over the activity's instructions. Speech synthesis is a browser
    service: its calls are recorded and its end and error events arrive as
    method calls. */
module ExerciseDemo {
  import Strings
  import WellnessTypes

  const MeditationVideo: string := "https://videos.pexels.com/video-files/4496279/4496279-hd_1280_720_25fps.mp4"
  const StretchVideo: string := "https://videos.pexels.com/video-files/4056462/4056462-hd_1920_1080_25fps.mp4"
  const WalkVideo: string := "https://videos.pexels.com/video-files/8009224/8009224-hd_1920_1080_24fps.mp4"
  const DefaultVideo: string := "https://videos.pexels.com/video-files/3254013/3254013-hd_1920_1080_25fps.mp4"

  /** The lower-cased name contains one of the two words. */
  predicate Mentions(name: string, a: string, b: string)
  {
    Strings.Contains(Strings.ToLower(name), a) || Strings.Contains(Strings.ToLower(name), b)
  }

  predicate MeditationLike(name: string) { Mentions(name, "meditation", "mindful") }
  predicate StretchLike(name: string) { Mentions(name, "stretch", "yoga") }
  predicate WalkLike(name: string) { Mentions(name, "walk", "journal") }

  /** `getVideoForActivity`: always one of the four videos, and each video is
      chosen exactly when its words are in the name and no word of a
      higher-priority video is. */
  function VideoForActivity(activityName: string): (url: string)
    ensures url == MeditationVideo || url == StretchVideo || url == WalkVideo || url == DefaultVideo
    ensures url == MeditationVideo <==> MeditationLike(activityName)
    ensures url == StretchVideo <==> !MeditationLike(activityName) && StretchLike(activityName)
    ensures url == WalkVideo <==> !MeditationLike(activityName) && !StretchLike(activityName) && WalkLike(activityName)
    ensures url == DefaultVideo <==> !MeditationLike(activityName) && !StretchLike(activityName) && !WalkLike(activityName)
  {
    if MeditationLike(activityName) then MeditationVideo
    else if StretchLike(activityName) then StretchVideo
    else if WalkLike(activityName) then WalkVideo
    else DefaultVideo
  }

  /** Matching ignores case: a name and its lower-cased form get the same video. */
  lemma VideoIgnoresCase(activityName: string)
    ensures VideoForActivity(Strings.ToLower(activityName)) == VideoForActivity(activityName)
  {
    Strings.ToLowerIdempotent(activityName);
  }

  /** "Mindful Yoga" mentions a word of two videos and gets the meditation one. */
  lemma MindfulYogaIsMeditation()
    ensures StretchLike("Mindful Yoga")
    ensures VideoForActivity("Mindful Yoga") == MeditationVideo
  {
    var t := Strings.ToLower("Mindful Yoga");
    assert t[0..7] == "mindful";
    assert Strings.OccursAt(t, "mindful", 0);
    assert t[8..12] == "yoga";
    assert Strings.OccursAt(t, "yoga", 8);
  }

  /** `activity.instructions.join('. ')` */
  function Narration(instructions: seq<string>): string
  {
    Strings.Join(instructions, ". ")
  }

  /** Each further instruction is read after a ". " that follows the ones
      before it. */
  lemma NarrationAppend(instructions: seq<string>, next: string)
    requires |instructions| > 0
    ensures Narration(instructions + [next]) == Narration(instructions) + ". " + next
  {
    Strings.JoinSnoc(instructions, next, ". ");
  }

  const NoSpeechAlert: string := "Sorry, your browser doesn't support text-to-speech."

  /** The modal's speech state, and the calls it makes on the speech service. */
  class SpeechToggle {
    const activity: WellnessTypes.WellnessActivity
    const supported: bool        // `window.speechSynthesis` exists
    var isSpeaking: bool
    var spoken: seq<string>      // the text of every utterance passed to `speak`
    var cancels: nat             // calls of `cancel`
    var alerts: seq<string>

    constructor (activity: WellnessTypes.WellnessActivity, supported: bool)
      ensures this.activity == activity && this.supported == supported
      ensures !isSpeaking && spoken == [] && cancels == 0 && alerts == []
    {
      this.activity := activity;
      this.supported := supported;
      isSpeaking := false;
      spoken := [];
      cancels := 0;
      alerts := [];
    }

    /** `handleToggleSpeech`. Without speech support: only the alert. Speaking:
        cancel and stop. Silent: speak the narration and start. */
    method Toggle()
      modifies this
      ensures !supported ==> isSpeaking == old(isSpeaking) && spoken == old(spoken) && cancels == old(cancels)
                             && alerts == old(alerts) + [NoSpeechAlert]
      ensures supported ==> isSpeaking == !old(isSpeaking) && alerts == old(alerts)
      ensures supported && old(isSpeaking) ==> cancels == old(cancels) + 1 && spoken == old(spoken)
      ensures supported && !old(isSpeaking) ==>
                cancels == old(cancels) && spoken == old(spoken) + [Narration(activity.instructions)]
    {
      if !supported {
        alerts := alerts + [NoSpeechAlert];
        return;
      }
      if isSpeaking {
        cancels := cancels + 1;
        isSpeaking := false;
      } else {
        spoken := spoken + [Narration(activity.instructions)];
        isSpeaking := true;
      }
    }

    /** `utterance.onend` and `utterance.onerror` of any utterance. */
    method UtteranceFinished()
      modifies this
      ensures !isSpeaking
      ensures spoken == old(spoken) && cancels == old(cancels) && alerts == old(alerts)
    {
      isSpeaking := false;
    }

    /** The effect's teardown when the modal closes: speech is cancelled if the
        browser has it. */
    method Close()
      modifies this
      ensures cancels == old(cancels) + (if supported then 1 else 0)
      ensures isSpeaking == old(isSpeaking) && spoken == old(spoken) && alerts == old(alerts)
    {
      if supported {
        cancels := cancels + 1;
      }
    }
  }
}
