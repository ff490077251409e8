/**
 * The per-session state the badge triggers touch — the notification feed and
 * the cached list of the signed-in viber's badges — and the three places that
 * award a badge after their own action succeeded: an echo, a published post
 * and a tribe join.
 */
module Session {
  import opened Options
  import opened Badges
  import opened Triggers
  import opened Feed

  /** The echo handler calls `award_badge`: the emotion has a badge and the viber exists without it. */
  predicate EchoAttemptsAward(vibers: map<int, Viber>, viberId: int, emotion: string) {
    BadgeForEmotion(emotion).Some? && viberId in vibers &&
    BadgeForEmotion(emotion).value !in vibers[viberId].badges
  }

  /** The name shown in the echo notification: the viber's, or "You" when the record is missing. */
  function DisplayName(vibers: map<int, Viber>, viberId: int): string {
    if viberId in vibers then vibers[viberId].username else "You"
  }

  class UserSession {
    /** `st.session_state.notif`, newest first. */
    var notif: seq<string>
    /** `st.session_state.viber_badges`, the cached badge list of the signed-in viber. */
    var viberBadges: seq<string>

    constructor ()
      ensures notif == [] && viberBadges == []
    {
      notif := [];
      viberBadges := [];
    }

    /** Insert a message at the head of the feed. */
    method Notify(msg: string)
      modifies this`notif
      ensures notif == Push(old(notif), msg)
    {
      notif := [msg] + notif;
    }

    /**
     * After an echo with `emotion` by `viberId` was recorded: award the
     * emotion's badge if the viber exists and lacks it; on an award refresh the
     * cached badges and announce the badge; in every case announce the echo,
     * which therefore ends up first.
     */
    method OnEchoRecorded(store: ViberStore, viberId: int, emotion: string, emoji: string)
      modifies this`notif, this`viberBadges, store`vibers
      ensures EchoAttemptsAward(old(store.vibers), viberId, emotion) ==>
        var o := Award(store.catalog, old(store.vibers), viberId, BadgeForEmotion(emotion).value);
        store.vibers == o.vibers &&
        (o.result == Ok(true) ==>
           viberBadges == store.vibers[viberId].badges &&
           notif == Push(Push(old(notif), UnlockMessage(BadgeForEmotion(emotion).value)),
                         EchoMessage(DisplayName(old(store.vibers), viberId), emotion, emoji))) &&
        (o.result != Ok(true) ==>
           viberBadges == old(viberBadges) &&
           notif == Push(old(notif), EchoMessage(DisplayName(old(store.vibers), viberId), emotion, emoji)))
      ensures !EchoAttemptsAward(old(store.vibers), viberId, emotion) ==>
        store.vibers == old(store.vibers) && viberBadges == old(viberBadges) &&
        notif == Push(old(notif), EchoMessage(DisplayName(old(store.vibers), viberId), emotion, emoji))
      ensures WellFormed(store.catalog, old(store.vibers)) ==> WellFormed(store.catalog, store.vibers)
    {
      var name := DisplayName(store.vibers, viberId);
      var badge := BadgeForEmotion(emotion);
      ghost var before := store.vibers;
      if badge.Some? {
        if viberId !in store.vibers {
          // the empty record has no "viber_id": the award call raises inside its try
        } else if badge.value !in store.vibers[viberId].badges {
          var awarded := store.AwardBadge(viberId, badge.value);
          if awarded == Ok(true) {
            viberBadges := store.vibers[viberId].badges;
            Notify(UnlockMessage(badge.value));
          }
        }
      }
      Notify(EchoMessage(name, emotion, emoji));
      if WellFormed(store.catalog, before) {
        AwardKeepsWellFormed(store.catalog, before, viberId, if badge.Some? then badge.value else "");
      }
    }

    /**
     * After `viberId` published a post: award "Explorer" unless the viber
     * already owns it; on an award refresh the cached badges and announce it;
     * when already owned just re-sync the cache. A missing viber changes nothing.
     */
    method OnPostPublished(store: ViberStore, viberId: int)
      modifies this`notif, this`viberBadges, store`vibers
      ensures viberId !in old(store.vibers) ==>
        store.vibers == old(store.vibers) && notif == old(notif) && viberBadges == old(viberBadges)
      ensures Owns(old(store.vibers), viberId, Explorer) ==>
        store.vibers == old(store.vibers) && notif == old(notif) &&
        viberBadges == old(store.vibers)[viberId].badges
      ensures viberId in old(store.vibers) && !Owns(old(store.vibers), viberId, Explorer) ==>
        var o := Award(store.catalog, old(store.vibers), viberId, Explorer);
        store.vibers == o.vibers &&
        (o.result == Ok(true) ==>
           viberBadges == store.vibers[viberId].badges && notif == Push(old(notif), UnlockMessage(Explorer))) &&
        (o.result != Ok(true) ==> viberBadges == old(viberBadges) && notif == old(notif))
      ensures WellFormed(store.catalog, old(store.vibers)) ==> WellFormed(store.catalog, store.vibers)
    {
      ghost var before := store.vibers;
      if viberId in store.vibers {
        var userBadges := store.vibers[viberId].badges;
        if Explorer !in userBadges {
          var awarded := store.AwardBadge(viberId, Explorer);
          if awarded == Ok(true) {
            viberBadges := store.vibers[viberId].badges;
            Notify(UnlockMessage(Explorer));
          }
        } else {
          viberBadges := userBadges;
        }
      }
      if WellFormed(store.catalog, before) {
        AwardKeepsWellFormed(store.catalog, before, viberId, Explorer);
      }
    }

    /**
     * After `viberId` joined a tribe: announce the join, then try to award
     * "Tribe Member", ignoring both the result and any failure. The cached
     * badges are not refreshed and the award is not announced.
     */
    method OnTribeJoined(store: ViberStore, viberId: int, tribeName: string)
      modifies this`notif, store`vibers
      ensures notif == Push(old(notif), JoinMessage(tribeName))
      ensures store.vibers == Award(store.catalog, old(store.vibers), viberId, TribeMember).vibers
      ensures WellFormed(store.catalog, old(store.vibers)) ==> WellFormed(store.catalog, store.vibers)
    {
      Notify(JoinMessage(tribeName));
      ghost var before := store.vibers;
      var _ := store.AwardBadge(viberId, TribeMember);
      if WellFormed(store.catalog, before) {
        AwardKeepsWellFormed(store.catalog, before, viberId, TribeMember);
      }
    }
  }
}
