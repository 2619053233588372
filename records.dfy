/** The documents the application keeps in the hosted store. */
module Records {
  import opened Common

  /** A document of the `users` collection. The store imposes no schema, and the application writes two
      different shapes into it (the email sign-up record and the Telegram session record), so every field
      may be missing; `None` stands for a missing field and for a stored `null` alike. */
  datatype UserDoc = UserDoc(
    telegramId: Option<string>,
    username: Option<string>,
    email: Option<string>,
    points: Option<int>,
    rank: Option<string>,
    referralCode: Option<string>,
    referredBy: Option<string>,
    createdAt: Option<Time>,
    lastLogin: Option<Time>,
    completedTasks: Option<seq<string>>,
    languageCode: Option<string>,
    emailVerified: Option<bool>)

  /** The document that a write with only the given fields creates: every field missing. */
  const NoFields := UserDoc(None, None, None, None, None, None, None, None, None, None, None, None)

  /** A document of the `referrals` collection: one credited referral edge. */
  datatype Referral = Referral(referrerId: string, referredId: string, pointsAwarded: int, timestamp: Time)

  /** A document of the `rewards` collection: a ledger line written when a task is claimed. */
  datatype Reward = Reward(userId: string, taskId: string, amount: int, description: string, date: Time)

  /** The points a server-side `increment` starts from: a missing points field counts as zero. */
  function StoredPoints(d: UserDoc): int {
    d.points.GetOr(0)
  }
}
