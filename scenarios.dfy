/** Consequences of running the operations one after another. */
module Scenarios {
  import opened Common
  import opened Records
  import opened Firebase
  import opened Telegram
  import opened AuthContext
  import opened ReferralSystem

  /** The same referral applied twice succeeds twice: the referrer is credited twice the bonus, while the
      second call only rewrites the referral document, so the referral ids and the referrer's statistics
      stay as the first call left them. Nothing guards against a user being referred again. */
  method RepeatReferral(db: Database, newUserId: string, code: string, snapshot: seq<string>, now1: Time, now2: Time)
    returns (first: ReferralResult, second: ReferralResult)
    requires IsQueryResult(snapshot, db.users, code) && snapshot != [] && snapshot[0] != newUserId
    modifies db
    ensures first.success && second.success
    ensures var referrerId := snapshot[0];
      && referrerId in db.users && referrerId in old(db.users)
      && StoredPoints(db.users[referrerId]) == StoredPoints(old(db.users)[referrerId]) + 2 * ReferrerBonus
      && db.referrals.Keys == old(db.referrals).Keys + {ReferralId(referrerId, newUserId)}
    ensures forall u :: u in old(db.users) && u != snapshot[0] ==> u in db.users && db.users[u] == old(db.users)[u]
    ensures var referrerId := snapshot[0];
      var once := old(db.referrals)[ReferralId(referrerId, newUserId) := Referral(referrerId, newUserId, ReferrerBonus, now1)];
      && ReferralsBy(db.referrals, referrerId) == ReferralsBy(once, referrerId)
      && AwardedSum(db.referrals, ReferralsBy(db.referrals, referrerId)) == AwardedSum(once, ReferralsBy(once, referrerId))
  {
    var referrerId := snapshot[0];
    first := ProcessReferral(db, newUserId, code, snapshot, now1, NoFault);
    CreditKeepsCodeHolders(old(db.users), referrerId, ReferrerBonus, code);
    ghost var between := db.referrals;
    second := ProcessReferral(db, newUserId, code, snapshot, now2, NoFault);
    var id := ReferralId(referrerId, newUserId);
    RepeatedReferralNotCounted(between, id, Referral(referrerId, newUserId, ReferrerBonus, now2), referrerId);
  }

  /** The referrer's statistics after a repeated referral are those after the first one. */
  lemma RepeatReferralStatsUnchanged(referrals: map<string, Referral>, referrerId: string, newUserId: string,
                                     now1: Time, now2: Time)
    ensures var id := ReferralId(referrerId, newUserId);
      var once := referrals[id := Referral(referrerId, newUserId, ReferrerBonus, now1)];
      var twice := once[id := Referral(referrerId, newUserId, ReferrerBonus, now2)];
      && ReferralsBy(twice, referrerId) == ReferralsBy(once, referrerId)
      && AwardedSum(twice, ReferralsBy(twice, referrerId)) == AwardedSum(once, ReferralsBy(once, referrerId))
  {
    var id := ReferralId(referrerId, newUserId);
    var once := referrals[id := Referral(referrerId, newUserId, ReferrerBonus, now1)];
    RepeatedReferralNotCounted(once, id, Referral(referrerId, newUserId, ReferrerBonus, now2), referrerId);
  }

  /** Sessions never assign referral codes, so every user whose first session created the document holds
      the empty code, and a referral with the empty code matches them all. */
  lemma EmptyCodeMatchesNewSessionUser(users: map<string, UserDoc>, tg: TelegramUser, now: Time)
    requires UserKey(tg) !in users
    ensures UserKey(tg) in CodeHolders(Upsert(users, tg, now), "")
  {
    FirstSessionDefaults(users, tg, now);
  }
}
