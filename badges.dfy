/**
 * The badge-award workflow: a read-check-write over the badge catalog and the
 * vibers table. Awards are recorded only as names appended to a viber's
 * ordered badge list.
 */
module Badges {

  /** A viber record as the award workflow sees it; a missing or null badge list reads as []. */
  datatype Viber = Viber(username: string, auraColor: string, badges: seq<string>)

  /** The two exceptions `award_badge` raises. */
  datatype AwardError =
    | BadgeNotFound(badgeName: string)   // the name is not in the badges table
    | UserNotFound                       // no viber record for the id

  /** `award_badge` either returns a boolean (awarded or already owned) or raises. */
  datatype Result<T> = Ok(value: T) | Err(error: AwardError)

  /** The value returned together with the vibers table the call leaves behind. */
  datatype Outcome = Outcome(result: Result<bool>, vibers: map<int, Viber>)

  /** The viber exists and its badge list holds the name. */
  predicate Owns(vibers: map<int, Viber>, viberId: int, badgeName: string) {
    viberId in vibers && badgeName in vibers[viberId].badges
  }

  /** No name occurs twice in the list. */
  predicate NoDuplicates(s: seq<string>) {
    forall i, j :: 0 <= i < j < |s| ==> s[i] != s[j]
  }

  /**
   * The global invariant of the store: every awarded name is a catalog badge
   * and no viber holds a badge twice.
   */
  predicate WellFormed(catalog: set<string>, vibers: map<int, Viber>) {
    forall id :: id in vibers ==>
      NoDuplicates(vibers[id].badges) &&
      forall k :: 0 <= k < |vibers[id].badges| ==> vibers[id].badges[k] in catalog
  }

  /**
   * `award_badge(viber_id, badge_name)` as a function of the catalog and the
   * vibers table before the call.
   */
  function Award(catalog: set<string>, vibers: map<int, Viber>, viberId: int, badgeName: string): (o: Outcome)
    // the catalog is consulted first, then the viber record
    ensures badgeName !in catalog ==> o.result == Err(BadgeNotFound(badgeName))
    ensures badgeName in catalog && viberId !in vibers ==> o.result == Err(UserNotFound)
    ensures o.result.Ok? <==> badgeName in catalog && viberId in vibers
    // awarded exactly when the viber did not own it yet
    ensures o.result == Ok(true) <==> o.result.Ok? && !Owns(vibers, viberId, badgeName)
    // a failure or an already-owned badge writes nothing
    ensures o.result != Ok(true) ==> o.vibers == vibers
    // after any successful call the viber owns the badge
    ensures o.result.Ok? ==> Owns(o.vibers, viberId, badgeName)
    // only the badges field of that one viber is written, and only by appending
    ensures o.vibers.Keys == vibers.Keys
    ensures forall id :: id in vibers && id != viberId ==> o.vibers[id] == vibers[id]
    ensures o.result == Ok(true) ==>
      var before, after := vibers[viberId], o.vibers[viberId];
      after.username == before.username && after.auraColor == before.auraColor &&
      |after.badges| == |before.badges| + 1 &&
      after.badges[..|before.badges|] == before.badges &&
      after.badges[|before.badges|] == badgeName
  {
    if badgeName !in catalog then Outcome(Err(BadgeNotFound(badgeName)), vibers)
    else if viberId !in vibers then Outcome(Err(UserNotFound), vibers)
    else
      var current := vibers[viberId].badges;
      if badgeName in current then Outcome(Ok(false), vibers)
      else
        var updated := current + [badgeName];
        Outcome(Ok(true), vibers[viberId := vibers[viberId].(badges := updated)])
  }

  /** Awarding the same badge twice in a row: true, then false, and the second call writes nothing. */
  lemma AwardTwice(catalog: set<string>, vibers: map<int, Viber>, viberId: int, badgeName: string)
    requires badgeName in catalog && viberId in vibers
    requires badgeName !in vibers[viberId].badges
    ensures var first := Award(catalog, vibers, viberId, badgeName);
            var second := Award(catalog, first.vibers, viberId, badgeName);
            first.result == Ok(true) && second.result == Ok(false) &&
            second.vibers == first.vibers &&
            multiset(second.vibers[viberId].badges)[badgeName] == 1
  {
  }

  /** A successful call is idempotent: calling again on its result changes nothing and returns false. */
  lemma AwardIdempotent(catalog: set<string>, vibers: map<int, Viber>, viberId: int, badgeName: string)
    requires Award(catalog, vibers, viberId, badgeName).result.Ok?
    ensures var first := Award(catalog, vibers, viberId, badgeName);
            Award(catalog, first.vibers, viberId, badgeName) == Outcome(Ok(false), first.vibers)
  {
  }

  /** Awarding two new badges one after the other appends them in award order. */
  lemma AwardInOrder(catalog: set<string>, vibers: map<int, Viber>, viberId: int, b1: string, b2: string)
    requires b1 in catalog && b2 in catalog && b1 != b2 && viberId in vibers
    requires b1 !in vibers[viberId].badges && b2 !in vibers[viberId].badges
    ensures var first := Award(catalog, vibers, viberId, b1);
            var second := Award(catalog, first.vibers, viberId, b2);
            first.result == Ok(true) && second.result == Ok(true) &&
            second.vibers[viberId].badges == vibers[viberId].badges + [b1, b2]
  {
  }

  /** Every call, successful or not, keeps the store's global invariant. */
  lemma AwardKeepsWellFormed(catalog: set<string>, vibers: map<int, Viber>, viberId: int, badgeName: string)
    requires WellFormed(catalog, vibers)
    ensures WellFormed(catalog, Award(catalog, vibers, viberId, badgeName).vibers)
  {
  }

  /** The vibers table together with the badge catalog it is checked against. */
  class ViberStore {
    var catalog: set<string>
    var vibers: map<int, Viber>

    constructor (catalog: set<string>, vibers: map<int, Viber>)
      ensures this.catalog == catalog && this.vibers == vibers
    {
      this.catalog := catalog;
      this.vibers := vibers;
    }

    /**
     * Read the catalog, read the viber, and write the extended badge list back
     * when the badge is new. Returns the same result and leaves the same table
     * as `Award`.
     */
    method AwardBadge(viberId: int, badgeName: string) returns (r: Result<bool>)
      modifies this`vibers
      ensures Outcome(r, vibers) == Award(catalog, old(vibers), viberId, badgeName)
      ensures r == Ok(true) ==> vibers == old(vibers)[viberId := old(vibers)[viberId].(badges := old(vibers)[viberId].badges + [badgeName])]
      ensures r != Ok(true) ==> vibers == old(vibers)
    {
      // an unknown badge name fails before the viber is looked up
      if badgeName !in catalog {
        return Err(BadgeNotFound(badgeName));
      }
      if viberId !in vibers {
        return Err(UserNotFound);
      }
      var user := vibers[viberId];
      var current := user.badges;
      if badgeName in current {
        return Ok(false);
      }
      var updated := current + [badgeName];
      // the extended list replaces the viber's whole badge list
      vibers := vibers[viberId := user.(badges := updated)];
      return Ok(true);
    }
  }
}
