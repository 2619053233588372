/** The session provider: the user record written at every session start, and the referral-code generator. */
module AuthContext {
  import opened Common
  import opened Records
  import opened Telegram
  import opened Firebase

  // ---------------------------------------------------------------------------------------------
  // Document keys: `telegramUser.id.toString()`

  function DigitChar(d: nat): (c: char)
    requires d < 10
    ensures '0' <= c <= '9'
  {
    ('0' as int + d) as char
  }

  /** The decimal numeral of `n`, as `Number.prototype.toString` writes a non-negative integer below 10^21
      (larger numbers are written in exponent notation, which is not modelled). */
  function DecimalString(n: nat): (s: string)
    ensures |s| >= 1
    ensures forall i :: 0 <= i < |s| ==> '0' <= s[i] <= '9'
    decreases n
  {
    if n < 10 then [DigitChar(n)] else DecimalString(n / 10) + [DigitChar(n % 10)]
  }

  /** The value of a string of decimal digits. */
  function DecimalValue(s: string): nat
    requires forall i :: 0 <= i < |s| ==> '0' <= s[i] <= '9'
  {
    if s == [] then 0 else DecimalValue(s[..|s| - 1]) * 10 + (s[|s| - 1] as int - '0' as int)
  }

  /** Reading the numeral back gives the id: the document key determines the Telegram id. */
  lemma {:induction false} DecimalRoundTrip(n: nat)
    ensures DecimalValue(DecimalString(n)) == n
    decreases n
  {
    var s := DecimalString(n);
    if n >= 10 {
      DecimalRoundTrip(n / 10);
      assert s[..|s| - 1] == DecimalString(n / 10);
    }
  }

  /** Distinct Telegram users get distinct documents. */
  lemma DistinctIdsDistinctKeys(a: nat, b: nat)
    requires a != b
    ensures DecimalString(a) != DecimalString(b)
  {
    DecimalRoundTrip(a);
    DecimalRoundTrip(b);
  }

  // ---------------------------------------------------------------------------------------------
  // The session record

  /** The record a session start builds and keeps in memory (`UserData`). `createdAt` is missing when an
      existing document has none. */
  datatype UserData = UserData(
    telegramId: string,
    username: string,
    points: int,
    rank: string,
    referralCode: string,
    referredBy: Option<string>,
    createdAt: Option<Time>,
    lastLogin: Time,
    completedTasks: seq<string>,
    languageCode: Option<string>)

  /** The rank label a session record falls back to. */
  const DefaultRank := "Beginner"

  /** The id of the document a session for `tg` reads and writes. */
  function UserKey(tg: TelegramUser): string {
    DecimalString(tg.id)
  }

  /** The record built by `createOrUpdateUser` from the stored document, if there is one. */
  function SessionRecord(stored: Option<UserDoc>, tg: TelegramUser, now: Time): (u: UserData)
    ensures u.telegramId == UserKey(tg) && u.username == tg.username && u.lastLogin == now
  {
    match stored
    case None =>
      UserData(UserKey(tg), OrElse(Some(tg.username), ""), 0, DefaultRank, "", None, Some(now), now, [], None)
    case Some(d) =>
      UserData(UserKey(tg), OrElse(Some(tg.username), ""), d.points.GetOr(0), OrElse(d.rank, DefaultRank),
               OrElse(d.referralCode, ""), OrNull(d.referredBy), d.createdAt, now,
               d.completedTasks.GetOr([]), OrNull(d.languageCode))
  }

  /** Merging a session record into a document (`setDoc` with `merge: true`): the record's fields are
      written, the others kept. A missing `createdAt` writes nothing. */
  function MergeSession(d: UserDoc, u: UserData): (r: UserDoc)
    ensures r.email == d.email && r.emailVerified == d.emailVerified
    ensures r.createdAt == (if u.createdAt.Some? then u.createdAt else d.createdAt)
  {
    d.(telegramId := Some(u.telegramId), username := Some(u.username), points := Some(u.points),
       rank := Some(u.rank), referralCode := Some(u.referralCode), referredBy := u.referredBy,
       createdAt := if u.createdAt.Some? then u.createdAt else d.createdAt, lastLogin := Some(u.lastLogin),
       completedTasks := Some(u.completedTasks), languageCode := u.languageCode)
  }

  function Lookup(users: map<string, UserDoc>, key: string): Option<UserDoc> {
    if key in users then Some(users[key]) else None
  }

  /** The `users` collection after a successful `createOrUpdateUser` for `tg` at time `now`. */
  function Upsert(users: map<string, UserDoc>, tg: TelegramUser, now: Time): map<string, UserDoc> {
    var key := UserKey(tg);
    users[key := MergeSession(Lookup(users, key).GetOr(NoFields), SessionRecord(Lookup(users, key), tg, now))]
  }

  /** A session writes one document, the user's own; every other document is left alone. */
  lemma UpsertTouchesOnlyItsDocument(users: map<string, UserDoc>, tg: TelegramUser, now: Time, other: string)
    requires other != UserKey(tg)
    ensures other in Upsert(users, tg, now) <==> other in users
    ensures other in users ==> Upsert(users, tg, now)[other] == users[other]
    ensures UserKey(tg) in Upsert(users, tg, now)
  {
  }

  /** A first session creates the document with the starting values: no points, the default rank, an empty
      referral code, nobody as referrer, no completed tasks, no language, created and last seen now. */
  lemma FirstSessionDefaults(users: map<string, UserDoc>, tg: TelegramUser, now: Time)
    requires UserKey(tg) !in users
    ensures Upsert(users, tg, now)[UserKey(tg)] ==
      UserDoc(Some(DecimalString(tg.id)), Some(tg.username), None, Some(0), Some(DefaultRank), Some(""), None,
              Some(now), Some(now), Some([]), None, None)
  {
  }

  /** For an existing document the stored values survive: each is written back unchanged unless it is
      missing or falsy, in which case it gets the default. Fields outside the session record are kept. */
  lemma LaterSessionKeepsStoredValues(users: map<string, UserDoc>, tg: TelegramUser, now: Time)
    requires UserKey(tg) in users
    ensures var d, r := users[UserKey(tg)], Upsert(users, tg, now)[UserKey(tg)];
      && r.points == Some(StoredPoints(d))
      && (d.rank.Some? && d.rank.value != "" ==> r.rank == d.rank)
      && (d.rank.None? || d.rank == Some("") ==> r.rank == Some(DefaultRank))
      && (d.referralCode.Some? ==> r.referralCode == d.referralCode)
      && (d.referralCode.None? ==> r.referralCode == Some(""))
      && (d.referredBy != Some("") ==> r.referredBy == d.referredBy)
      && (d.referredBy == Some("") ==> r.referredBy.None?)
      && r.createdAt == d.createdAt
      && (d.completedTasks.Some? ==> r.completedTasks == d.completedTasks)
      && (d.completedTasks.None? ==> r.completedTasks == Some([]))
      && (d.languageCode != Some("") ==> r.languageCode == d.languageCode)
      && (d.languageCode == Some("") ==> r.languageCode.None?)
      && r.email == d.email && r.emailVerified == d.emailVerified
      && r.lastLogin == Some(now)
      && r.telegramId == Some(DecimalString(tg.id)) && r.username == Some(tg.username)
  {
  }

  /** Two sessions in a row leave the same document as the first, except for the last-login time. */
  lemma {:induction false} UpsertTwice(users: map<string, UserDoc>, tg: TelegramUser, t1: Time, t2: Time)
    ensures var key := UserKey(tg);
      Upsert(Upsert(users, tg, t1), tg, t2) == Upsert(users, tg, t1)[key := Upsert(users, tg, t1)[key].(lastLogin := Some(t2))]
  {
    var key := UserKey(tg);
    var once := Upsert(users, tg, t1);
    var twice := Upsert(once, tg, t2);
    var d1 := once[key];
    assert Lookup(once, key) == Some(d1);
    var u2 := SessionRecord(Some(d1), tg, t2);
    assert twice[key] == MergeSession(d1, u2);
    assert MergeSession(d1, u2) == d1.(lastLogin := Some(t2));
  }

  /** The session never assigns a referral code: a user who had none keeps the empty one. */
  lemma SessionNeverAssignsReferralCode(users: map<string, UserDoc>, tg: TelegramUser, now: Time)
    requires UserKey(tg) !in users || users[UserKey(tg)].referralCode.None? || users[UserKey(tg)].referralCode == Some("")
    ensures Upsert(users, tg, now)[UserKey(tg)].referralCode == Some("")
  {
  }

  // ---------------------------------------------------------------------------------------------
  // Referral codes (defined, never called)

  function UpperChar(c: char): char {
    if 'a' <= c <= 'z' then (c as int - 32) as char else c
  }

  function UpperCase(s: string): (r: string)
    ensures |r| == |s|
    ensures forall i :: 0 <= i < |s| ==> r[i] == UpperChar(s[i])
  {
    seq(|s|, i requires 0 <= i < |s| => UpperChar(s[i]))
  }

  function Min(a: int, b: int): int {
    if a <= b then a else b
  }

  /** `generateReferralCode`: "REF" followed by the first six characters of the id, upper-cased. */
  function GenerateReferralCode(telegramId: string): (code: string)
    ensures |code| == 3 + Min(6, |telegramId|) && |code| <= 9
    ensures code[..3] == "REF"
    ensures forall i :: 0 <= i < |code| - 3 ==> code[3 + i] == UpperChar(telegramId[i])
  {
    "REF" + UpperCase(telegramId[..Min(6, |telegramId|)])
  }

  /** Ids that agree on their first six characters get the same code. */
  lemma SharedPrefixSameCode(a: string, b: string)
    requires |a| >= 6 && |b| >= 6 && a[..6] == b[..6]
    ensures GenerateReferralCode(a) == GenerateReferralCode(b)
  {
  }

  /** The generator is not injective: the documents of two different Telegram users share a code. */
  lemma ReferralCodeNotInjective()
    ensures "1234567" != "1234568"
    ensures GenerateReferralCode("1234567") == GenerateReferralCode("1234568")
  {
    assert "1234567"[6] != "1234568"[6];
    SharedPrefixSameCode("1234567", "1234568");
  }

  // ---------------------------------------------------------------------------------------------
  // The provider's state

  const NoTelegramData := "Telegram Web App data not available"
  const InitFailed := "Failed to initialize authentication"

  /** The state the authentication provider keeps and shares with the screens. */
  class AuthProvider {
    var user: Option<TelegramUser>
    var userData: Option<UserData>
    var loading: bool
    var error: Option<string>

    constructor ()
      ensures user.None? && userData.None? && loading && error.None?
    {
      user, userData, loading, error := None, None, true, None;
    }

    /** `createOrUpdateUser`: read the user's document (store call 1), build the session record, merge it
        into the document (call 2), then keep it in memory. A failed call rejects and changes nothing. */
    method CreateOrUpdateUser(db: Database, tg: TelegramUser, now: Time, fault: Fault) returns (c: Completion)
      modifies db, this`userData
      ensures db.referrals == old(db.referrals) && db.rewards == old(db.rewards)
      ensures c == Resolved <==> !fault.Rejects(1) && !fault.Rejects(2)
      ensures c == Resolved ==> db.users == Upsert(old(db.users), tg, now)
      ensures c == Resolved ==> userData == Some(SessionRecord(Lookup(old(db.users), UserKey(tg)), tg, now))
      ensures c == Rejected ==> db.users == old(db.users) && userData == old(userData)
    {
      var key := DecimalString(tg.id);
      if fault.Rejects(1) {
        return Rejected;
      }
      var stored := if key in db.users then Some(db.users[key]) else None;
      var record := SessionRecord(stored, tg, now);
      if fault.Rejects(2) {
        return Rejected;
      }
      db.users := db.users[key := MergeSession(stored.GetOr(NoFields), record)];
      userData := Some(record);
      c := Resolved;
    }

    /** `refreshUserData`: rerun the upsert for the current user; without one, do nothing. */
    method RefreshUserData(db: Database, now: Time, fault: Fault) returns (c: Completion)
      modifies db, this`userData
      ensures user.None? ==> c == Resolved && db.users == old(db.users) && userData == old(userData)
      ensures user.Some? ==> (c == Resolved <==> !fault.Rejects(1) && !fault.Rejects(2))
      ensures user.Some? && c == Resolved ==> db.users == Upsert(old(db.users), user.value, now)
      ensures user.Some? && c == Resolved ==>
        userData == Some(SessionRecord(Lookup(old(db.users), UserKey(user.value)), user.value, now))
      ensures c == Rejected ==> db.users == old(db.users) && userData == old(userData)
      ensures db.referrals == old(db.referrals) && db.rewards == old(db.rewards)
    {
      if user.None? {
        return Resolved;
      }
      c := CreateOrUpdateUser(db, user.value, now, fault);
    }

    /** The session start: resolve the Telegram identity; with one, remember it and upsert its record
        (a failure sets the generic error); without one, set the "not available" error and write nothing.
        Either way loading ends. */
    method InitAuth(db: Database, env: Environment, isDevelopment: bool, now: Time, fault: Fault)
      modifies db, this
      ensures !loading
      ensures db.referrals == old(db.referrals) && db.rewards == old(db.rewards)
      ensures GetTelegramUser(env, isDevelopment).None? ==>
        && db.users == old(db.users) && error == Some(NoTelegramData)
        && user == old(user) && userData == old(userData)
      ensures GetTelegramUser(env, isDevelopment).Some? ==> user == GetTelegramUser(env, isDevelopment)
      ensures GetTelegramUser(env, isDevelopment).Some? && !fault.Rejects(1) && !fault.Rejects(2) ==>
        && db.users == Upsert(old(db.users), user.value, now)
        && userData == Some(SessionRecord(Lookup(old(db.users), UserKey(user.value)), user.value, now))
        && error == old(error)
      ensures GetTelegramUser(env, isDevelopment).Some? && (fault.Rejects(1) || fault.Rejects(2)) ==>
        db.users == old(db.users) && userData == old(userData) && error == Some(InitFailed)
    {
      var telegramUser := GetTelegramUser(env, isDevelopment);
      if telegramUser.Some? {
        user := telegramUser;
        var c := CreateOrUpdateUser(db, telegramUser.value, now, fault);
        if c == Rejected {
          error := Some(InitFailed);
        }
      } else {
        error := Some(NoTelegramData);
      }
      loading := false;
    }
  }
}
