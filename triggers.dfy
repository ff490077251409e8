/**
 * Which action grants which badge, and the notification texts the
 * application writes when it happens.
 */
module Triggers {
  import opened Options

  const JoyfulViber := "Joyful Viber"
  const CuriousMind := "Curious Mind"
  const NostalgicSoul := "Nostalgic Soul"
  /** Granted after publishing a post. */
  const Explorer := "Explorer"
  /** Granted after joining a tribe. */
  const TribeMember := "Tribe Member"

  /** The echo buttons under each thought: an emotion and the emoji shown beside it. */
  const EchoButtons: seq<(string, string)> :=
    [("Joy", "\U{1F60A}"), ("Curiosity", "\U{1F914}"), ("Nostalgia", "\U{1F338}")]

  /** The emotion is offered by one of the echo buttons. */
  predicate IsEchoEmotion(emotion: string) {
    exists i :: 0 <= i < |EchoButtons| && EchoButtons[i].0 == emotion
  }

  /**
   * The reaction badge table: `badge_map.get(emotion)`. Every echo button's
   * emotion has a badge and no other emotion (Rage, Neutral, ...) has one.
   */
  function BadgeForEmotion(emotion: string): (r: Option<string>)
    ensures r.Some? <==> IsEchoEmotion(emotion)
    ensures r.Some? ==> r.value != Explorer && r.value != TribeMember
  {
    assert EchoButtons[0].0 == "Joy" && EchoButtons[1].0 == "Curiosity" && EchoButtons[2].0 == "Nostalgia";
    match emotion
    case "Joy" => Some(JoyfulViber)
    case "Curiosity" => Some(CuriousMind)
    case "Nostalgia" => Some(NostalgicSoul)
    case _ => None
  }

  /** Different reactions unlock different badges. */
  lemma BadgeForEmotionInjective(e1: string, e2: string)
    requires BadgeForEmotion(e1).Some? && BadgeForEmotion(e2).Some?
    requires e1 != e2
    ensures BadgeForEmotion(e1) != BadgeForEmotion(e2)
  {
  }

  /** The notice pushed when a badge is unlocked, naming the badge. */
  function UnlockMessage(badge: string): string {
    "\U{1F389} You unlocked a badge: " + badge + "!"
  }

  /** The notice pushed after an echo: who reacted, with which emotion and its emoji. */
  function EchoMessage(username: string, emotion: string, emoji: string): string {
    username + " echoed a thought with " + emotion + " " + emoji
  }

  /** The notice pushed after joining a tribe, naming the tribe. */
  function JoinMessage(tribeName: string): string {
    "\U{1F389} Joined tribe " + tribeName
  }
}
