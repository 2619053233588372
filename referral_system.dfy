/** Referral crediting and the referrer's statistics. */
module ReferralSystem {
  import opened Common
  import opened Records
  import opened Firebase

  /** The points credited to the referrer, and recorded as awarded, for one referral. */
  const ReferrerBonus := 2500

  /** What `processReferral` reports; it never throws. */
  datatype ReferralResult = ReferralResult(success: bool, message: string)

  const InvalidCode := ReferralResult(false, "Invalid referral code")
  const SelfReferral := ReferralResult(false, "Self-referral is not allowed")
  const StoreError := ReferralResult(false, "An error occurred while processing the referral")
  const Processed := ReferralResult(true, "Referral processed successfully. 2500 points awarded to referrer.")

  /** The users whose stored referral code is `code`: what the code lookup matches. */
  function CodeHolders(users: map<string, UserDoc>, code: string): set<string> {
    set id | id in users && users[id].referralCode == Some(code)
  }

  /** `ids` is a result of the code lookup: each matching user exactly once, in the store's order. */
  ghost predicate IsQueryResult(ids: seq<string>, users: map<string, UserDoc>, code: string) {
    && (forall i, j :: 0 <= i < j < |ids| ==> ids[i] != ids[j])
    && (forall id :: id in ids <==> id in CodeHolders(users, code))
  }

  /** The id of the referral document for a referrer and a new user. */
  function ReferralId(referrerId: string, newUserId: string): string {
    referrerId + "_" + newUserId
  }

  /** The `users` collection after a server-side increment of one user's points: a missing points field
      counts as zero, and nothing but that one field of that one user changes. */
  function Credit(users: map<string, UserDoc>, id: string, amount: int): (r: map<string, UserDoc>)
    requires id in users
    ensures r.Keys == users.Keys
    ensures StoredPoints(r[id]) == StoredPoints(users[id]) + amount && r[id].points.Some?
    ensures r[id].(points := users[id].points) == users[id]
    ensures forall u :: u in users && u != id ==> r[u] == users[u]
  {
    users[id := users[id].(points := Some(StoredPoints(users[id]) + amount))]
  }

  /** Crediting points leaves every referral code where it was, so the code lookup answers the same. */
  lemma CreditKeepsCodeHolders(users: map<string, UserDoc>, id: string, amount: int, code: string)
    requires id in users
    ensures CodeHolders(Credit(users, id, amount), code) == CodeHolders(users, code)
  {
    var r := Credit(users, id, amount);
    forall u | u in users
      ensures r[u].referralCode == users[u].referralCode
    {
    }
  }

  /** `processReferral`. `snapshot` is the answer of the code lookup (store call 1); the referrer is its first
      document. A self-referral is refused. Then two separate writes: the referrer's points are increased
      (call 2), and the referral document is stored, replacing any with the same id (call 3). Any store
      error gives the generic failure; nothing stops a referral from being applied again. */
  method ProcessReferral(db: Database, newUserId: string, referralCode: string, snapshot: seq<string>,
                         now: Time, fault: Fault) returns (r: ReferralResult)
    requires IsQueryResult(snapshot, db.users, referralCode)
    modifies db
    ensures db.rewards == old(db.rewards)
    ensures r.success <==> !fault.Rejects(1) && snapshot != [] && snapshot[0] != newUserId
                           && !fault.Rejects(2) && !fault.Rejects(3)
    ensures fault.Rejects(1) ==>
      r == StoreError && db.users == old(db.users) && db.referrals == old(db.referrals)
    ensures !fault.Rejects(1) && snapshot == [] ==>
      r == InvalidCode && db.users == old(db.users) && db.referrals == old(db.referrals)
    ensures !fault.Rejects(1) && snapshot != [] && snapshot[0] == newUserId ==>
      r == SelfReferral && db.users == old(db.users) && db.referrals == old(db.referrals)
    ensures !fault.Rejects(1) && snapshot != [] && snapshot[0] != newUserId ==>
      var referrerId := snapshot[0];
      && referrerId in old(db.users) && old(db.users)[referrerId].referralCode == Some(referralCode)
      && (fault.Rejects(2) ==> r == StoreError && db.users == old(db.users) && db.referrals == old(db.referrals))
      && (!fault.Rejects(2) ==> db.users == Credit(old(db.users), referrerId, ReferrerBonus))
      && (fault.Rejects(3) ==> r == StoreError && db.referrals == old(db.referrals))
      && (r.success ==>
            && r == Processed
            && db.referrals == old(db.referrals)[ReferralId(referrerId, newUserId) :=
                                                   Referral(referrerId, newUserId, ReferrerBonus, now)])
  {
    if fault.Rejects(1) {
      return StoreError;
    }
    if |snapshot| == 0 {
      return InvalidCode;
    }
    var referrerId := snapshot[0];
    assert referrerId in CodeHolders(db.users, referralCode);
    if referrerId == newUserId {
      return SelfReferral;
    }
    if fault.Rejects(2) {
      return StoreError;
    }
    db.users := Credit(db.users, referrerId, ReferrerBonus);
    if fault.Rejects(3) {
      return StoreError;
    }
    db.referrals := db.referrals[ReferralId(referrerId, newUserId) := Referral(referrerId, newUserId, ReferrerBonus, now)];
    r := Processed;
  }

  // ---------------------------------------------------------------------------------------------
  // Statistics

  /** The referral documents naming `userId` as referrer: what the statistics query matches. */
  function ReferralsBy(referrals: map<string, Referral>, userId: string): set<string> {
    set id | id in referrals && referrals[id].referrerId == userId
  }

  /** The sum of `pointsAwarded` over the referral documents `ids`. */
  ghost function AwardedSum(referrals: map<string, Referral>, ids: set<string>): int
    requires ids <= referrals.Keys
    decreases ids
  {
    if ids == {} then 0
    else
      var id :| id in ids;
      referrals[id].pointsAwarded + AwardedSum(referrals, ids - {id})
  }

  /** The sum does not depend on the order of summation: any document can be taken out first. */
  lemma {:induction false} AwardedSumRemove(referrals: map<string, Referral>, ids: set<string>, id: string)
    requires ids <= referrals.Keys && id in ids
    ensures AwardedSum(referrals, ids) == referrals[id].pointsAwarded + AwardedSum(referrals, ids - {id})
    decreases ids
  {
    var x :| x in ids && AwardedSum(referrals, ids) == referrals[x].pointsAwarded + AwardedSum(referrals, ids - {x});
    if x != id {
      AwardedSumRemove(referrals, ids - {x}, id);
      AwardedSumRemove(referrals, ids - {id}, x);
      assert ids - {x} - {id} == ids - {id} - {x};
    }
  }

  /** The sum reads only the awarded points of the documents summed. */
  lemma {:induction false} AwardedSumFrame(m1: map<string, Referral>, m2: map<string, Referral>, ids: set<string>)
    requires ids <= m1.Keys && ids <= m2.Keys
    requires forall id :: id in ids ==> m1[id].pointsAwarded == m2[id].pointsAwarded
    ensures AwardedSum(m1, ids) == AwardedSum(m2, ids)
    decreases ids
  {
    if ids != {} {
      var id :| id in ids;
      AwardedSumRemove(m1, ids, id);
      AwardedSumRemove(m2, ids, id);
      AwardedSumFrame(m1, m2, ids - {id});
    }
  }

  /** When every document awards the same amount, the sum is that amount times their number. */
  lemma {:induction false} AwardedSumUniform(referrals: map<string, Referral>, ids: set<string>, amount: int)
    requires ids <= referrals.Keys
    requires forall id :: id in ids ==> referrals[id].pointsAwarded == amount
    ensures AwardedSum(referrals, ids) == amount * |ids|
    decreases ids
  {
    if ids != {} {
      var id :| id in ids;
      AwardedSumRemove(referrals, ids, id);
      AwardedSumUniform(referrals, ids - {id}, amount);
      assert |ids - {id}| == |ids| - 1;
      assert amount * |ids| == amount + amount * (|ids| - 1);
    }
  }

  /** `getReferralStats`: the number of referral documents naming the user as referrer and the sum of their
      awarded points; (0, 0) when the query fails. */
  method GetReferralStats(db: Database, userId: string, fault: Fault) returns (totalReferrals: nat, totalPoints: int)
    ensures fault.Rejects(1) ==> totalReferrals == 0 && totalPoints == 0
    ensures !fault.Rejects(1) ==> totalReferrals == |ReferralsBy(db.referrals, userId)|
    ensures !fault.Rejects(1) ==> totalPoints == AwardedSum(db.referrals, ReferralsBy(db.referrals, userId))
  {
    if fault.Rejects(1) {
      return 0, 0;
    }
    var matching := ReferralsBy(db.referrals, userId);
    totalReferrals := |matching|;
    totalPoints := 0;
    var remaining := matching;
    while remaining != {}
      invariant remaining <= matching
      invariant totalPoints + AwardedSum(db.referrals, remaining) == AwardedSum(db.referrals, matching)
      decreases remaining
    {
      var id :| id in remaining;
      AwardedSumRemove(db.referrals, remaining, id);
      totalPoints := totalPoints + db.referrals[id].pointsAwarded;
      remaining := remaining - {id};
    }
  }

  /** Every referral document awards the referrer bonus: true of every document this code writes. */
  ghost predicate AllAwardBonus(referrals: map<string, Referral>) {
    forall id :: id in referrals ==> referrals[id].pointsAwarded == ReferrerBonus
  }

  /** While every document awards the bonus, a referrer's total is the bonus times their number of referrals. */
  lemma StatsTotalIsBonusTimesCount(referrals: map<string, Referral>, userId: string)
    requires AllAwardBonus(referrals)
    ensures AwardedSum(referrals, ReferralsBy(referrals, userId)) == ReferrerBonus * |ReferralsBy(referrals, userId)|
  {
    AwardedSumUniform(referrals, ReferralsBy(referrals, userId), ReferrerBonus);
  }

  /** A referral document under a new id adds one referral and its points to its referrer's statistics and
      leaves every other user's as they were. */
  lemma NewReferralCounted(referrals: map<string, Referral>, id: string, rec: Referral, userId: string)
    requires id !in referrals
    ensures var after := referrals[id := rec];
      && (userId == rec.referrerId ==> ReferralsBy(after, userId) == ReferralsBy(referrals, userId) + {id})
      && (userId == rec.referrerId ==>
            AwardedSum(after, ReferralsBy(after, userId)) == AwardedSum(referrals, ReferralsBy(referrals, userId)) + rec.pointsAwarded)
      && (userId != rec.referrerId ==> ReferralsBy(after, userId) == ReferralsBy(referrals, userId))
      && (userId != rec.referrerId ==>
            AwardedSum(after, ReferralsBy(after, userId)) == AwardedSum(referrals, ReferralsBy(referrals, userId)))
  {
    var after := referrals[id := rec];
    var before := ReferralsBy(referrals, userId);
    if userId == rec.referrerId {
      assert ReferralsBy(after, userId) == before + {id};
      AwardedSumRemove(after, before + {id}, id);
      assert before + {id} - {id} == before;
    } else {
      assert ReferralsBy(after, userId) == before;
    }
    AwardedSumFrame(after, referrals, before);
  }

  /** Writing a referral document again under the same id, for the same referrer and award, changes no
      user's statistics: a repeated referral is credited to the referrer's points but not counted. */
  lemma RepeatedReferralNotCounted(referrals: map<string, Referral>, id: string, rec: Referral, userId: string)
    requires id in referrals && referrals[id].referrerId == rec.referrerId
    requires referrals[id].pointsAwarded == rec.pointsAwarded
    ensures var after := referrals[id := rec];
      && ReferralsBy(after, userId) == ReferralsBy(referrals, userId)
      && AwardedSum(after, ReferralsBy(after, userId)) == AwardedSum(referrals, ReferralsBy(referrals, userId))
  {
    var after := referrals[id := rec];
    assert ReferralsBy(after, userId) == ReferralsBy(referrals, userId);
    AwardedSumFrame(after, referrals, ReferralsBy(referrals, userId));
  }
}
