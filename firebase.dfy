/** The hosted store handle, the rank ladder and the two user-record writes of the email sign-up flow. */
module Firebase {
  import opened Common
  import opened Records

  /** The hosted document store (`db`). The `users` and `referrals` collections are keyed by document id;
      documents of `rewards` get generated ids and are only ever added, so that collection is kept as the
      list of its documents in the order they were added. */
  class Database {
    var users: map<string, UserDoc>
    var referrals: map<string, Referral>
    var rewards: seq<Reward>

    constructor ()
      ensures users == map[] && referrals == map[] && rewards == []
    {
      users := map[];
      referrals := map[];
      rewards := [];
    }
  }

  /** The ranks `updateUserRank` assigns, lowest first. */
  datatype Rank = Novice | Adept | Expert | Master | Legend {
    /** The label stored in the `rank` field. */
    function Name(): string {
      match this
      case Novice => "NOVICE"
      case Adept => "ADEPT"
      case Expert => "EXPERT"
      case Master => "MASTER"
      case Legend => "LEGEND"
    }

    /** Position in the order NOVICE < ADEPT < EXPERT < MASTER < LEGEND. */
    function Level(): nat {
      match this
      case Novice => 0
      case Adept => 1
      case Expert => 2
      case Master => 3
      case Legend => 4
    }
  }

  /** The fewest points that earn each rank above NOVICE; NOVICE is what every lower total gets. */
  function Threshold(r: Rank): int {
    match r
    case Novice => 0
    case Adept => 1000
    case Expert => 5000
    case Master => 10000
    case Legend => 50000
  }

  /** The rank ladder of `updateUserRank`: the highest rank whose threshold the points reach. */
  function RankFor(points: int): (r: Rank)
    ensures r == Novice || Threshold(r) <= points
    ensures forall q: Rank :: r.Level() < q.Level() ==> points < Threshold(q)
  {
    if points >= 50000 then Legend
    else if points >= 10000 then Master
    else if points >= 5000 then Expert
    else if points >= 1000 then Adept
    else Novice
  }

  /** More points never give a lower rank. */
  lemma RankMonotone(p: int, q: int)
    requires p <= q
    ensures RankFor(p).Level() <= RankFor(q).Level()
  {
  }

  /** The thresholds are inclusive. */
  lemma RankBoundaries()
    ensures RankFor(999) == Novice && RankFor(1000) == Adept
    ensures RankFor(4999) == Adept && RankFor(5000) == Expert
    ensures RankFor(9999) == Expert && RankFor(10000) == Master
    ensures RankFor(49999) == Master && RankFor(50000) == Legend
  {
  }

  /** `updateUserRank`: recompute the rank from the given points and write only the `rank` field of that
      user. Writing to a missing document fails like any other store error, and errors are swallowed. */
  method UpdateUserRank(db: Database, userId: string, points: int, fault: Fault)
    modifies db
    ensures db.referrals == old(db.referrals) && db.rewards == old(db.rewards)
    ensures userId in old(db.users) && !fault.Rejects(1) ==>
      db.users == old(db.users)[userId := old(db.users)[userId].(rank := Some(RankFor(points).Name()))]
    ensures userId !in old(db.users) || fault.Rejects(1) ==> db.users == old(db.users)
  {
    var newRank := RankFor(points).Name();
    if userId in db.users && !fault.Rejects(1) {
      db.users := db.users[userId := db.users[userId].(rank := Some(newRank))];
    }
  }

  /** The signed-in account of the email sign-up flow, as far as `createUserDocument` reads it. */
  datatype Account = Account(uid: string, email: Option<string>)

  /** The points a new email sign-up record starts with. */
  const SignUpPoints := 2500

  /** The document `createUserDocument` writes for a new account. */
  function SignUpDoc(username: string, email: Option<string>, now: Time): (d: UserDoc)
    ensures d.username == Some(username) && d.email == email
    ensures d.points == Some(SignUpPoints) && d.rank == Some(Novice.Name())
    ensures d.createdAt == Some(now) && d.emailVerified == Some(false)
    ensures d.(username := None, email := None, points := None, rank := None, createdAt := None, emailVerified := None) == NoFields
  {
    NoFields.(username := Some(username), email := email, points := Some(SignUpPoints),
              rank := Some(Novice.Name()), createdAt := Some(now), emailVerified := Some(false))
  }

  /** A new sign-up record stores NOVICE although its 2500 points are ADEPT on the ladder: the stored rank
      is stale until `updateUserRank` runs. */
  lemma SignUpRankIsStale(username: string, email: Option<string>, now: Time)
    ensures SignUpDoc(username, email, now).rank == Some(Novice.Name())
    ensures RankFor(StoredPoints(SignUpDoc(username, email, now))) == Adept
  {
  }

  /** `createUserDocument`: create-only. Without an account, or when the document already exists, nothing
      is written. The existence read is outside the error handler, so its failure rejects; a failed
      create is swallowed. */
  method CreateUserDocument(db: Database, user: Option<Account>, username: string, now: Time, fault: Fault)
    returns (c: Completion)
    modifies db
    ensures db.referrals == old(db.referrals) && db.rewards == old(db.rewards)
    ensures c == Rejected <==> user.Some? && fault.Rejects(1)
    ensures user.Some? && user.value.uid !in old(db.users) && !fault.Rejects(1) && !fault.Rejects(2) ==>
      db.users == old(db.users)[user.value.uid := SignUpDoc(username, user.value.email, now)]
    ensures user.None? || user.value.uid in old(db.users) || fault.Rejects(1) || fault.Rejects(2) ==>
      db.users == old(db.users)
  {
    if user.None? {
      return Resolved;
    }
    var uid := user.value.uid;
    if fault.Rejects(1) {
      return Rejected;
    }
    var present := uid in db.users;
    if !present && !fault.Rejects(2) {
      db.users := db.users[uid := SignUpDoc(username, user.value.email, now)];
    }
    c := Resolved;
  }

  /** Once a document exists for an account, a second call writes nothing: the create is idempotent. */
  method CreateUserDocumentTwice(db: Database, user: Account, username: string, now1: Time, now2: Time)
    modifies db
    ensures user.uid !in old(db.users) ==>
      db.users == old(db.users)[user.uid := SignUpDoc(username, user.email, now1)]
    ensures user.uid in old(db.users) ==> db.users == old(db.users)
  {
    var c1 := CreateUserDocument(db, Some(user), username, now1, NoFault);
    var c2 := CreateUserDocument(db, Some(user), username, now2, NoFault);
  }
}
