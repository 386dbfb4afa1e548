/** The record store of the bot: the `users` and `profiles` tables and the
    admin allow-list, held in memory. Each store method performs the one SQL
    statement (or the short sequence of statements) its original runs; the
    pure functions below state what that statement does to the tables. */
module Db {
  import opened Options

  /** Column default of `users.coins` (db.py:30). */
  const DefaultCoins := 100
  /** Coins paid to a referrer when a referred user is created (db.py:107). */
  const ReferralBonus := 50
  /** `LIMIT 20` of the candidate search (db.py:157). */
  const SearchLimit := 20
  /** Length of `str(uuid.uuid4())[:8]` (db.py:88). */
  const CodeLength := 8

  /** A row of `users`; the `created_at` timestamp is not modelled. */
  datatype User = User(
    name: string,
    coins: int,
    isPremium: bool,
    isBanned: bool,
    referralCode: string,
    referredBy: Option<string>)

  /** A row of `profiles`; every column is nullable. */
  datatype Profile = Profile(
    gender: Option<string>,
    age: Option<int>,
    bio: Option<string>,
    photoId: Option<string>,
    location: Option<string>)

  /** The row `INSERT INTO profiles (user_id)` creates: every column NULL. */
  const BlankProfile := Profile(None, None, None, None, None)

  /** The row `INSERT INTO users (user_id, name, referral_code, referred_by)`
      creates, the other columns taking their defaults. */
  function NewUser(name: string, code: string, referredBy: Option<string>): User {
    User(name, DefaultCoins, false, false, code, referredBy)
  }

  /** The profile columns that `update_profile` is called with. */
  datatype Column = GenderColumn | AgeColumn | BioColumn | PhotoIdColumn | LocationColumn

  /** A value stored in a profile column. */
  datatype Cell = TextCell(text: string) | IntCell(number: int)

  /** One `update_profile(user_id, field, value)` call: the column and its value. */
  datatype ProfileChange =
    | SetGender(gender: string)
    | SetAge(age: int)
    | SetBio(bio: string)
    | SetPhotoId(photoId: string)
    | SetLocation(location: string)
  {
    function Column(): Column {
      match this
      case SetGender(_) => GenderColumn
      case SetAge(_) => AgeColumn
      case SetBio(_) => BioColumn
      case SetPhotoId(_) => PhotoIdColumn
      case SetLocation(_) => LocationColumn
    }

    function Value(): Cell {
      match this
      case SetGender(g) => TextCell(g)
      case SetAge(a) => IntCell(a)
      case SetBio(b) => TextCell(b)
      case SetPhotoId(p) => TextCell(p)
      case SetLocation(l) => TextCell(l)
    }
  }

  /** The value of one column of a profile row; `None` is SQL NULL. */
  function Get(p: Profile, column: Column): Option<Cell> {
    match column
    case GenderColumn => if p.gender.Some? then Some(TextCell(p.gender.value)) else None
    case AgeColumn => if p.age.Some? then Some(IntCell(p.age.value)) else None
    case BioColumn => if p.bio.Some? then Some(TextCell(p.bio.value)) else None
    case PhotoIdColumn => if p.photoId.Some? then Some(TextCell(p.photoId.value)) else None
    case LocationColumn => if p.location.Some? then Some(TextCell(p.location.value)) else None
  }

  /** `UPDATE profiles SET <column> = <value>` on one row: the named column
      holds the new value and every other column keeps its old one. */
  function Apply(p: Profile, change: ProfileChange): (q: Profile)
    ensures Get(q, change.Column()) == Some(change.Value())
    ensures forall column :: column != change.Column() ==> Get(q, column) == Get(p, column)
  {
    match change
    case SetGender(g) => p.(gender := Some(g))
    case SetAge(a) => p.(age := Some(a))
    case SetBio(b) => p.(bio := Some(b))
    case SetPhotoId(f) => p.(photoId := Some(f))
    case SetLocation(l) => p.(location := Some(l))
  }

  /** The `profiles` table after `update_profile(id, ...)`; no row, no change. */
  function ProfileUpdated(profiles: map<int, Profile>, id: int, change: ProfileChange): map<int, Profile> {
    if id in profiles then profiles[id := Apply(profiles[id], change)] else profiles
  }

  predicate IsHexDigit(c: char) {
    '0' <= c <= '9' || 'a' <= c <= 'f'
  }

  /** The shape of `str(uuid.uuid4())[:8]`: eight lower-case hexadecimal digits. */
  predicate IsReferralCode(code: string) {
    |code| == CodeLength && forall i :: 0 <= i < |code| ==> IsHexDigit(code[i])
  }

  /** The `UNIQUE` constraint on `users.referral_code`. */
  predicate CodesUnique(users: map<int, User>) {
    forall a, b :: a in users && b in users && a != b ==> users[a].referralCode != users[b].referralCode
  }

  predicate CodeInUse(users: map<int, User>, code: string) {
    exists u :: u in users && users[u].referralCode == code
  }

  /** `SELECT user_id FROM users WHERE referral_code = $1`: the one user holding a code, if any. */
  function CodeOwner(users: map<int, User>, code: string): (r: Option<int>)
    requires CodesUnique(users)
    ensures r.Some? <==> CodeInUse(users, code)
    ensures r.Some? ==> r.value in users && users[r.value].referralCode == code
  {
    if CodeInUse(users, code) then
      var u :| u in users && users[u].referralCode == code;
      Some(u)
    else None
  }

  /** The user `create_user` pays the referral bonus to: the code must be
      non-empty (`if referral_code:`), held by a user, and that user's id must
      be non-zero (`if referrer_id:`). */
  function Referrer(users: map<int, User>, referralCode: Option<string>): (r: Option<int>)
    requires CodesUnique(users)
    ensures r.Some? ==> r.value in users && r.value != 0 && referralCode == Some(users[r.value].referralCode)
    ensures r.None? && referralCode.Some? && referralCode.value != "" ==>
              forall u :: u in users && u != 0 ==> users[u].referralCode != referralCode.value
  {
    if referralCode.Some? && referralCode.value != "" then
      match CodeOwner(users, referralCode.value)
      case Some(u) => if u != 0 then Some(u) else None
      case None => None
    else None
  }

  /** `UPDATE users SET coins = coins + amount WHERE user_id = id`. */
  function CoinsAdded(users: map<int, User>, id: int, amount: int): (r: map<int, User>)
    ensures r.Keys == users.Keys
  {
    if id in users then users[id := users[id].(coins := users[id].coins + amount)] else users
  }

  /** `UPDATE users SET is_premium = status WHERE user_id = id`. */
  function WithPremium(users: map<int, User>, id: int, status: bool): (r: map<int, User>)
    ensures r.Keys == users.Keys
  {
    if id in users then users[id := users[id].(isPremium := status)] else users
  }

  /** `UPDATE users SET is_banned = status WHERE user_id = id`. */
  function WithBanned(users: map<int, User>, id: int, status: bool): (r: map<int, User>)
    ensures r.Keys == users.Keys
  {
    if id in users then users[id := users[id].(isBanned := status)] else users
  }

  /** The `users` table after `create_user` inserted a new user: the new row,
      and the referrer (looked up among the users that existed before) paid. */
  function Inserted(users: map<int, User>, id: int, name: string, referralCode: Option<string>, code: string): (r: map<int, User>)
    requires CodesUnique(users)
    ensures r.Keys == users.Keys + {id}
  {
    var referrer := Referrer(users, referralCode);
    var added := users[id := NewUser(name, code, referralCode)];
    if referrer.Some? then CoinsAdded(added, referrer.value, ReferralBonus) else added
  }

  /** The users whose `referred_by` is `code`. */
  function ReferredBy(users: map<int, User>, code: string): set<int> {
    set u | u in users && users[u].referredBy == Some(code)
  }

  /** The parameters of `search_users`. */
  datatype Query = Query(searcher: int, gender: string, minAge: int, maxAge: int)

  /** The `WHERE` clause of `search_users`; a NULL gender or age never matches. */
  predicate Matches(users: map<int, User>, profiles: map<int, Profile>, q: Query, id: int) {
    && id in users && id in profiles
    && profiles[id].gender == Some(q.gender)
    && profiles[id].age.Some? && q.minAge <= profiles[id].age.value <= q.maxAge
    && id != q.searcher
    && !users[id].isBanned
  }

  function MatchingIds(users: map<int, User>, profiles: map<int, Profile>, q: Query): set<int> {
    set id | id in users && Matches(users, profiles, q, id)
  }

  predicate NoDuplicates(s: seq<int>) {
    forall i, j :: 0 <= i < j < |s| ==> s[i] != s[j]
  }

  /** What `search_users` may return: at most twenty distinct matching ids,
      as many as there are matches up to twenty, so all of them when there
      are no more than twenty. */
  ghost predicate SearchResult(users: map<int, User>, profiles: map<int, Profile>, q: Query, ids: seq<int>) {
    && |ids| <= SearchLimit && NoDuplicates(ids)
    && (forall x :: x in ids ==> Matches(users, profiles, q, x))
    && |ids| == Min(SearchLimit, |MatchingIds(users, profiles, q)|)
    && (|MatchingIds(users, profiles, q)| <= SearchLimit ==>
          forall x :: Matches(users, profiles, q, x) ==> x in ids)
  }

  /** The matching ids, in the order `order` lists them. */
  function Filter(users: map<int, User>, profiles: map<int, Profile>, q: Query, order: seq<int>): (r: seq<int>)
    ensures forall x :: x in r <==> x in order && Matches(users, profiles, q, x)
    ensures NoDuplicates(order) ==> NoDuplicates(r)
    decreases |order|
  {
    if order == [] then []
    else
      var rest := Filter(users, profiles, q, order[1..]);
      if Matches(users, profiles, q, order[0]) then [order[0]] + rest else rest
  }

  /** A list without repetitions has as many elements as its set. */
  lemma {:induction false} DistinctCount(s: seq<int>)
    requires NoDuplicates(s)
    ensures |set x | x in s| == |s|
  {
    if s != [] {
      DistinctCount(s[1..]);
      var tail := set x | x in s[1..];
      assert (set x | x in s) == {s[0]} + tail;
      assert s[0] !in tail;
    }
  }

  function Min(a: int, b: int): int {
    if a <= b then a else b
  }

  /** `ids` lists every user of the table exactly once. */
  ghost predicate Lists(users: map<int, User>, ids: seq<int>) {
    NoDuplicates(ids) && forall u :: u in ids <==> u in users
  }

  /** The sum of the balances of the users listed in `ids`. */
  function SumCoins(users: map<int, User>, ids: seq<int>): int
    requires forall u :: u in ids ==> u in users
    decreases |ids|
  {
    if ids == [] then 0
    else
      var first := ids[0];
      assert first in ids;
      users[first].coins + SumCoins(users, ids[1..])
  }

  lemma {:induction false} SumCoinsAgree(a: map<int, User>, b: map<int, User>, ids: seq<int>)
    requires forall u :: u in ids ==> u in a && u in b && a[u].coins == b[u].coins
    ensures SumCoins(a, ids) == SumCoins(b, ids)
    decreases |ids|
  {
    if ids != [] {
      var first := ids[0];
      assert first in ids;
      assert a[first].coins == b[first].coins;
      SumCoinsAgree(a, b, ids[1..]);
    }
  }

  lemma {:induction false} SumCoinsAdded(users: map<int, User>, id: int, amount: int, ids: seq<int>)
    requires NoDuplicates(ids) && forall u :: u in ids ==> u in users
    ensures SumCoins(CoinsAdded(users, id, amount), ids) == SumCoins(users, ids) + (if id in ids then amount else 0)
    decreases |ids|
  {
    if ids != [] {
      assert NoDuplicates(ids[1..]);
      assert ids[0] !in ids[1..];
      assert id in ids <==> id == ids[0] || id in ids[1..];
      SumCoinsAdded(users, id, amount, ids[1..]);
    }
  }

  /** The ledger: adding `amount` to one existing balance raises the total
      over all users by exactly `amount`; for a missing user it changes nothing. */
  lemma AddCoinsLedger(users: map<int, User>, id: int, amount: int, order: seq<int>)
    requires Lists(users, order)
    ensures Lists(CoinsAdded(users, id, amount), order)
    ensures SumCoins(CoinsAdded(users, id, amount), order) == SumCoins(users, order) + (if id in users then amount else 0)
  {
    SumCoinsAdded(users, id, amount, order);
  }

  /** Adding the amount and then its negation restores every balance. */
  lemma AddCoinsInverse(users: map<int, User>, id: int, amount: int)
    ensures CoinsAdded(CoinsAdded(users, id, amount), id, -amount) == users
  {
    if id in users {
      var u := users[id];
      assert u.(coins := u.coins + amount).(coins := u.coins + amount - amount) == u;
    }
  }

  /** `add_coins` changes exactly one balance, by exactly `amount`, and nothing else. */
  lemma AddCoinsChangesOneBalance(users: map<int, User>, id: int, amount: int)
    ensures CoinsAdded(users, id, amount).Keys == users.Keys
    ensures forall u :: u in users && u != id ==> CoinsAdded(users, id, amount)[u] == users[u]
    ensures id in users ==> CoinsAdded(users, id, amount)[id].coins == users[id].coins + amount
    ensures id in users ==> CoinsAdded(users, id, amount)[id].(coins := users[id].coins) == users[id]
  {
  }

  /** The premium setter changes one flag of one user and is idempotent. */
  lemma PremiumSetterChangesOneFlag(users: map<int, User>, id: int, status: bool)
    ensures WithPremium(users, id, status).Keys == users.Keys
    ensures forall u :: u in users && u != id ==> WithPremium(users, id, status)[u] == users[u]
    ensures id in users ==> WithPremium(users, id, status)[id] == users[id].(isPremium := status)
    ensures WithPremium(WithPremium(users, id, status), id, status) == WithPremium(users, id, status)
  {
  }

  /** The ban setter changes one flag of one user and is idempotent. */
  lemma BanSetterChangesOneFlag(users: map<int, User>, id: int, status: bool)
    ensures WithBanned(users, id, status).Keys == users.Keys
    ensures forall u :: u in users && u != id ==> WithBanned(users, id, status)[u] == users[u]
    ensures id in users ==> WithBanned(users, id, status)[id] == users[id].(isBanned := status)
    ensures WithBanned(WithBanned(users, id, status), id, status) == WithBanned(users, id, status)
  {
  }

  /** A created user starts with the table defaults, the given code and referrer
      code, and every earlier user keeps their row except the referrer, who
      gains exactly the bonus. */
  lemma CreatedUserRow(users: map<int, User>, id: int, name: string, referralCode: Option<string>, code: string)
    requires CodesUnique(users) && id !in users
    ensures Inserted(users, id, name, referralCode, code).Keys == users.Keys + {id}
    ensures Inserted(users, id, name, referralCode, code)[id] ==
              User(name, DefaultCoins, false, false, code, referralCode)
    ensures forall u :: u in users ==>
              Inserted(users, id, name, referralCode, code)[u] ==
                if Referrer(users, referralCode) == Some(u)
                then users[u].(coins := users[u].coins + ReferralBonus)
                else users[u]
  {
  }

  /** Adding one row to a table adds it to the referral set of its own
      `referred_by` and to no other set. */
  lemma {:induction false} ReferredByAddedRow(before: map<int, User>, after: map<int, User>, id: int, c: string)
    requires id !in before && after.Keys == before.Keys + {id}
    requires forall u :: u in before ==> after[u].referredBy == before[u].referredBy
    ensures ReferredBy(after, c) == ReferredBy(before, c) + (if after[id].referredBy == Some(c) then {id} else {})
    ensures |ReferredBy(after, c)| == |ReferredBy(before, c)| + (if after[id].referredBy == Some(c) then 1 else 0)
  {
    var extra: set<int> := if after[id].referredBy == Some(c) then {id} else {};
    forall u
      ensures u in ReferredBy(after, c) <==> u in ReferredBy(before, c) + extra
    {
      if u in before {
        assert after[u].referredBy == before[u].referredBy;
      }
    }
    assert ReferredBy(after, c) == ReferredBy(before, c) + extra;
    assert id !in ReferredBy(before, c);
  }

  /** The referral relation gains exactly the new user, and only under the code it was created with. */
  lemma ReferralCountAfterCreate(users: map<int, User>, id: int, name: string, referralCode: Option<string>, code: string, c: string)
    requires CodesUnique(users) && id !in users
    ensures ReferredBy(Inserted(users, id, name, referralCode, code), c) ==
              ReferredBy(users, c) + (if referralCode == Some(c) then {id} else {})
    ensures |ReferredBy(Inserted(users, id, name, referralCode, code), c)| ==
              |ReferredBy(users, c)| + (if referralCode == Some(c) then 1 else 0)
  {
    var after := Inserted(users, id, name, referralCode, code);
    CreatedUserRow(users, id, name, referralCode, code);
    ReferredByAddedRow(users, after, id, c);
  }

  /** The ledger: creating a user adds the default balance, plus the bonus
      when a referrer is paid; no other coins appear or vanish. The new user
      heads the listing of the grown table. */
  lemma CreateLedger(users: map<int, User>, id: int, name: string, referralCode: Option<string>, code: string, order: seq<int>)
    requires CodesUnique(users) && id !in users && Lists(users, order)
    ensures Lists(Inserted(users, id, name, referralCode, code), [id] + order)
    ensures SumCoins(Inserted(users, id, name, referralCode, code), [id] + order) ==
              SumCoins(users, order) + DefaultCoins + (if Referrer(users, referralCode).Some? then ReferralBonus else 0)
  {
    var added := users[id := NewUser(name, code, referralCode)];
    var grown := [id] + order;
    assert grown[1..] == order;
    assert NoDuplicates(grown);
    SumCoinsAgree(added, users, order);
    assert SumCoins(added, grown) == DefaultCoins + SumCoins(users, order);
    var referrer := Referrer(users, referralCode);
    if referrer.Some? {
      SumCoinsAdded(added, referrer.value, ReferralBonus, grown);
    }
  }

  /** What `create_user` reports. */
  datatype Creation =
    | AlreadyExists  // the early `return` when the id is taken
    | Created
    | CodeTaken      // the fresh code collides: the UNIQUE constraint rolls the transaction back

  /** A joined `users`/`profiles` row, as `get_user_profile` returns it. */
  datatype ProfileRow = ProfileRow(name: string, coins: int, isPremium: bool, profile: Profile)

  class Store {
    var users: map<int, User>
    var profiles: map<int, Profile>
    /** `ADMIN_USER_IDS`, read from the environment once. */
    const admins: set<int>

    /** The table constraints: each user has its profile row (the foreign
        key plus `create_user` inserting both), referral codes are unique
        and have the generated shape. */
    ghost predicate Valid()
      reads this
    {
      && profiles.Keys == users.Keys
      && CodesUnique(users)
      && forall u :: u in users ==> IsReferralCode(users[u].referralCode)
    }

    /** `init_db` on a fresh database: both tables exist and are empty. */
    constructor (admins: set<int>)
      ensures Valid()
      ensures users == map[] && profiles == map[] && this.admins == admins
    {
      users := map[];
      profiles := map[];
      this.admins := admins;
    }

    method UserExists(id: int) returns (b: bool)
      ensures b <==> id in users
    {
      b := id in users;
    }

    /** A missing user counts as not banned (`banned if banned is not None else False`). */
    method IsBanned(id: int) returns (b: bool)
      ensures b <==> id in users && users[id].isBanned
      ensures id !in users ==> !b
    {
      b := if id in users then users[id].isBanned else false;
    }

    /** `create_user`: a no-op for an existing id; otherwise the user and a
        blank profile are inserted under the fresh `code`, and the holder of
        `referralCode`, if any, is paid the bonus. */
    method CreateUser(id: int, name: string, referralCode: Option<string>, code: string) returns (result: Creation)
      requires Valid() && IsReferralCode(code)
      modifies this
      ensures Valid()
      ensures old(id in users) ==> result == AlreadyExists && users == old(users) && profiles == old(profiles)
      ensures !old(id in users) && old(CodeInUse(users, code)) ==>
                result == CodeTaken && users == old(users) && profiles == old(profiles)
      ensures !old(id in users) && !old(CodeInUse(users, code)) ==>
                && result == Created
                && users == Inserted(old(users), id, name, referralCode, code)
                && profiles == old(profiles)[id := BlankProfile]
    {
      if id in users {
        return AlreadyExists;
      }
      if CodeInUse(users, code) {
        return CodeTaken;
      }
      ghost var before := users;
      // The lookup inside the transaction can also find the row just
      // inserted, but add_coins runs on its own connection, which cannot see
      // that uncommitted row; looking among the earlier users pays the same.
      var referrer := Referrer(users, referralCode);
      users := users[id := NewUser(name, code, referralCode)];
      profiles := profiles[id := BlankProfile];
      assert CodesUnique(users);
      if referrer.Some? {
        AddCoins(referrer.value, ReferralBonus);
      }
      result := Created;
    }

    /** `update_profile`: one column of one profile row. */
    method UpdateProfile(id: int, change: ProfileChange)
      requires Valid()
      modifies this
      ensures Valid()
      ensures users == old(users)
      ensures profiles == ProfileUpdated(old(profiles), id, change)
    {
      if id in profiles {
        profiles := profiles[id := Apply(profiles[id], change)];
      }
    }

    /** `get_user_profile`: the joined row, or `None` when there is none. */
    method GetUserProfile(id: int) returns (row: Option<ProfileRow>)
      ensures row.Some? <==> id in users && id in profiles
      ensures row.Some? ==> row.value == ProfileRow(users[id].name, users[id].coins, users[id].isPremium, profiles[id])
    {
      if id in users && id in profiles {
        row := Some(ProfileRow(users[id].name, users[id].coins, users[id].isPremium, profiles[id]));
      } else {
        row := None;
      }
    }

    /** `search_users`. `ORDER BY RANDOM()` is the parameter `order`, any
        listing of all user ids without repetition; the result is the first
        twenty matches in that order. */
    method SearchUsers(searcher: int, gender: string, minAge: int, maxAge: int, order: seq<int>) returns (ids: seq<int>)
      requires Lists(users, order)
      ensures SearchResult(users, profiles, Query(searcher, gender, minAge, maxAge), ids)
    {
      var q := Query(searcher, gender, minAge, maxAge);
      var all := Filter(users, profiles, q, order);
      DistinctCount(all);
      assert (set x | x in all) == MatchingIds(users, profiles, q);
      if |all| <= SearchLimit {
        ids := all;
      } else {
        ids := all[..SearchLimit];
        assert forall x :: x in ids ==> x in all;
      }
    }

    /** `get_referral_code`: `None` for a missing user. */
    method GetReferralCode(id: int) returns (code: Option<string>)
      ensures code.Some? <==> id in users
      ensures code.Some? ==> code.value == users[id].referralCode
    {
      code := if id in users then Some(users[id].referralCode) else None;
    }

    /** `get_referral_count`: how many users were created with this user's code. */
    method GetReferralCount(id: int) returns (n: nat)
      ensures id !in users || users[id].referralCode == "" ==> n == 0
      ensures id in users && users[id].referralCode != "" ==> n == |ReferredBy(users, users[id].referralCode)|
    {
      var code := GetReferralCode(id);
      if code.None? || code.value == "" {
        return 0;
      }
      n := |ReferredBy(users, code.value)|;
    }

    /** `add_coins`: an unchecked addition; negative amounts are accepted. */
    method AddCoins(id: int, amount: int)
      requires Valid()
      modifies this
      ensures Valid()
      ensures users == CoinsAdded(old(users), id, amount)
      ensures profiles == old(profiles)
    {
      if id in users {
        users := users[id := users[id].(coins := users[id].coins + amount)];
      }
    }

    /** `set_premium_status`. */
    method SetPremiumStatus(id: int, status: bool)
      requires Valid()
      modifies this
      ensures Valid()
      ensures users == WithPremium(old(users), id, status)
      ensures profiles == old(profiles)
    {
      if id in users {
        users := users[id := users[id].(isPremium := status)];
      }
    }

    /** `set_ban_status`. */
    method SetBanStatus(id: int, status: bool)
      requires Valid()
      modifies this
      ensures Valid()
      ensures users == WithBanned(old(users), id, status)
      ensures profiles == old(profiles)
    {
      if id in users {
        users := users[id := users[id].(isBanned := status)];
      }
    }

    /** `is_admin`: membership in the allow-list. */
    method IsAdmin(id: int) returns (b: bool)
      ensures b <==> id in admins
    {
      b := id in admins;
    }
  }
}
