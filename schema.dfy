/**
 * The five authentication tables of the relational store: their row shapes,
 * their primary-key, unique and foreign-key constraints, the queries the
 * services run against them, and an in-memory store that holds them.
 */
module Schema {
  import opened Wrappers
  import opened Hashing

  type UserId = string
  type Token = string
  /** A timestamp in milliseconds since the epoch. */
  type Time = int

  const HOUR_MS: int := 3600000
  const DAY_MS: int := 24 * HOUR_MS

  /** A row of `users` (the columns the authentication core reads or writes). */
  datatype User = User(
    id: UserId,
    email: string,
    password: PasswordHash,
    isVerified: bool,
    createdAt: Time,
    updatedAt: Time,
    lastLoginAt: Option<Time>,
    lastLoginIp: Option<string>)

  /**
   * A row of one of the three token tables. Each table holds rows of its own
   * kind only; the refresh-token table also records the session's origin.
   */
  datatype TokenRow =
    | VerificationToken(userId: UserId, token: Token, expiresAt: Time, createdAt: Time)
    | PasswordResetToken(userId: UserId, token: Token, expiresAt: Time, createdAt: Time)
    | RefreshToken(userId: UserId, token: Token, expiresAt: Time, createdAt: Time,
                   ipAddress: string, userAgent: string)

  /** A token table, indexed by its unique `token` column. */
  type TokenTable = map<Token, TokenRow>

  /** A row of `login_history`. */
  datatype LoginRecord = LoginRecord(
    userId: UserId,
    ipAddress: string,
    userAgent: string,
    loginAt: Time,
    wasNotified: bool)

  // ---------------------------------------------------------------- users

  /** The columns one `update(users).set(...)` statement writes, besides `updatedAt`. */
  datatype UserUpdate =
    | MarkVerified
    | RecordLogin(ipAddress: string)
    | SetPassword(hash: PasswordHash)

  /** `users.id` is the primary key and `users.email` is unique. */
  ghost predicate UsersUnique(users: seq<User>)
  {
    forall i, j :: 0 <= i < j < |users| ==> users[i].id != users[j].id && users[i].email != users[j].email
  }

  function UserIds(users: seq<User>): set<UserId>
  {
    set u | u in users :: u.id
  }

  /** `select().from(users).where(eq(users.email, email)).limit(1)` */
  function FindUserByEmail(users: seq<User>, email: string): (r: Option<User>)
    ensures r.Some? ==> r.value in users && r.value.email == email
    ensures r.None? <==> forall u :: u in users ==> u.email != email
  {
    if users == [] then None
    else if users[0].email == email then Some(users[0])
    else FindUserByEmail(users[1..], email)
  }

  /** `select().from(users).where(eq(users.id, id)).limit(1)` */
  function FindUserById(users: seq<User>, id: UserId): (r: Option<User>)
    ensures r.Some? ==> r.value in users && r.value.id == id
    ensures r.None? <==> id !in UserIds(users)
  {
    if users == [] then None
    else if users[0].id == id then Some(users[0])
    else FindUserById(users[1..], id)
  }

  /** The row `u` after the `set(...)` clause `change` ran at time `now`. */
  function Apply(u: User, change: UserUpdate, now: Time): (r: User)
    ensures r.id == u.id && r.email == u.email && r.createdAt == u.createdAt && r.updatedAt == now
    ensures r.isVerified == (u.isVerified || change.MarkVerified?)
    ensures r.password == if change.SetPassword? then change.hash else u.password
    ensures r.lastLoginAt == if change.RecordLogin? then Some(now) else u.lastLoginAt
    ensures r.lastLoginIp == if change.RecordLogin? then Some(change.ipAddress) else u.lastLoginIp
  {
    match change
    case MarkVerified => u.(isVerified := true, updatedAt := now)
    case RecordLogin(ip) => u.(lastLoginAt := Some(now), lastLoginIp := Some(ip), updatedAt := now)
    case SetPassword(hash) => u.(password := hash, updatedAt := now)
  }

  /** `update(users).set(change).where(eq(users.id, id))`: every other row is untouched. */
  function UpdateUser(users: seq<User>, id: UserId, change: UserUpdate, now: Time): (r: seq<User>)
    ensures |r| == |users|
    ensures forall i :: 0 <= i < |users| ==>
      r[i] == if users[i].id == id then Apply(users[i], change, now) else users[i]
  {
    if users == [] then []
    else
      [if users[0].id == id then Apply(users[0], change, now) else users[0]]
      + UpdateUser(users[1..], id, change, now)
  }

  /** An update never changes a key, so the key constraints and the set of ids survive it. */
  lemma UpdateUserKeepsKeys(users: seq<User>, id: UserId, change: UserUpdate, now: Time)
    ensures UserIds(UpdateUser(users, id, change, now)) == UserIds(users)
    ensures UsersUnique(users) ==> UsersUnique(UpdateUser(users, id, change, now))
  {
    var r := UpdateUser(users, id, change, now);
    assert forall i :: 0 <= i < |r| ==> r[i].id == users[i].id && r[i].email == users[i].email;
    forall x | x in UserIds(users) ensures x in UserIds(r) {
      var i :| 0 <= i < |users| && users[i].id == x;
      assert r[i].id == x;
    }
    forall x | x in UserIds(r) ensures x in UserIds(users) {
      var i :| 0 <= i < |r| && r[i].id == x;
      assert users[i].id == x;
    }
    if UsersUnique(users) {
      forall i, j | 0 <= i < j < |r| ensures r[i].id != r[j].id && r[i].email != r[j].email {
        assert users[i].id != users[j].id && users[i].email != users[j].email;
      }
    }
  }

  /** Inserting a user with a fresh id and an unused email keeps the key constraints. */
  lemma InsertUserKeepsKeys(users: seq<User>, u: User)
    requires UsersUnique(users)
    requires u.id !in UserIds(users) && FindUserByEmail(users, u.email).None?
    ensures UsersUnique(users + [u])
    ensures UserIds(users + [u]) == UserIds(users) + {u.id}
  {
    var r := users + [u];
    forall i, j | 0 <= i < j < |r| ensures r[i].id != r[j].id && r[i].email != r[j].email {
      assert r[i] == users[i] && r[i] in users;
      if j < |users| {
        assert r[j] == users[j];
      }
    }
    forall x | x in UserIds(r) ensures x in UserIds(users) + {u.id} {
      var v :| v in r && v.id == x;
      if v != u {
        assert v in users;
      }
    }
    forall x | x in UserIds(users) + {u.id} ensures x in UserIds(r) {
      if x != u.id {
        var v :| v in users && v.id == x;
        assert v in r;
      } else {
        assert u in r;
      }
    }
  }

  /** On a table with unique emails, a lookup by email finds exactly the row that has it. */
  lemma {:induction false} FindUserByEmailExact(users: seq<User>, u: User)
    requires UsersUnique(users) && u in users
    ensures FindUserByEmail(users, u.email) == Some(u)
  {
    var k :| 0 <= k < |users| && users[k] == u;
    if k > 0 {
      assert users[0].email != users[k].email;
      assert users[1..][k - 1] == u;
      FindUserByEmailExact(users[1..], u);
    }
  }

  /** On a table with unique ids, the row found by id is the one row carrying that id. */
  lemma FindUserByIdExact(users: seq<User>, u: User)
    requires UsersUnique(users) && u in users
    ensures FindUserById(users, u.id) == Some(u)
  {
    var v := FindUserById(users, u.id).value;
    var i :| 0 <= i < |users| && users[i] == u;
    var j :| 0 <= j < |users| && users[j] == v;
    if i < j {
      assert users[i].id != users[j].id;
    } else if j < i {
      assert users[j].id != users[i].id;
    }
  }

  /** A lookup by email after an update finds the same row, updated if it was the target. */
  lemma {:induction false} FindUserByEmailAfterUpdate(users: seq<User>, id: UserId, change: UserUpdate, now: Time, email: string)
    ensures FindUserByEmail(UpdateUser(users, id, change, now), email) ==
      match FindUserByEmail(users, email)
      case None => None
      case Some(u) => Some(if u.id == id then Apply(u, change, now) else u)
  {
    if users != [] {
      var r := UpdateUser(users, id, change, now);
      assert r[1..] == UpdateUser(users[1..], id, change, now);
      FindUserByEmailAfterUpdate(users[1..], id, change, now, email);
    }
  }

  /**
   * The rows of `s` that satisfy `keep`, in their original order: every kept
   * row appears as often as it did in `s`, and no other row appears.
   */
  function Filter<T(!new)>(s: seq<T>, keep: T -> bool): (r: seq<T>)
    ensures |r| <= |s|
    ensures forall x :: x in r <==> x in s && keep(x)
    ensures forall x :: multiset(r)[x] == if keep(x) then multiset(s)[x] else 0
  {
    if s == [] then []
    else
      assert s == [s[0]] + s[1..];
      if keep(s[0]) then [s[0]] + Filter(s[1..], keep)
      else Filter(s[1..], keep)
  }

  /** Deleting rows from `users` keeps its key constraints. */
  lemma {:induction false} FilterKeepsUsersUnique(users: seq<User>, keep: User -> bool)
    requires UsersUnique(users)
    ensures UsersUnique(Filter(users, keep))
  {
    if users != [] {
      var rest := Filter(users[1..], keep);
      assert UsersUnique(users[1..]) by {
        forall i, j | 0 <= i < j < |users| - 1
          ensures users[1..][i].id != users[1..][j].id && users[1..][i].email != users[1..][j].email
        {
          assert users[1..][i] == users[i + 1] && users[1..][j] == users[j + 1];
        }
      }
      FilterKeepsUsersUnique(users[1..], keep);
      if keep(users[0]) {
        var r := [users[0]] + rest;
        forall i, j | 0 <= i < j < |r| ensures r[i].id != r[j].id && r[i].email != r[j].email {
          if i == 0 {
            assert r[j] in users[1..];
            var k :| 0 <= k < |users| - 1 && users[1..][k] == r[j];
            assert users[k + 1] == r[j];
          } else {
            assert r[i] == rest[i - 1] && r[j] == rest[j - 1];
          }
        }
      }
    }
  }

  // ---------------------------------------------------------------- token tables

  /** Every row is filed under its own token: the `token` column is unique. */
  ghost predicate Keyed(table: TokenTable)
  {
    forall t :: t in table ==> table[t].token == t
  }

  /** No user has two rows in the table. */
  ghost predicate OneTokenPerUser(table: TokenTable)
  {
    forall t1, t2 :: t1 in table && t2 in table && table[t1].userId == table[t2].userId ==> t1 == t2
  }

  /** Every row's `userId` names an existing user (the foreign key to `users.id`). */
  ghost predicate References(table: TokenTable, users: seq<User>)
  {
    forall t :: t in table ==> table[t].userId in UserIds(users)
  }

  /** `where(and(eq(table.token, token), gt(table.expiresAt, now))).limit(1)` */
  function FindLive(table: TokenTable, token: Token, now: Time): (r: Option<TokenRow>)
    ensures r.Some? ==> token in table && r.value == table[token] && r.value.expiresAt > now
    ensures r.None? <==> token !in table || table[token].expiresAt <= now
  {
    if token in table && table[token].expiresAt > now then Some(table[token]) else None
  }

  /**
   * The indexed lookup answers the query over the rows: it finds a row exactly
   * when some row carries the token and expires strictly after `now`, and then
   * it finds that row.
   */
  lemma FindLiveIsQuery(table: TokenTable, token: Token, now: Time)
    requires Keyed(table)
    ensures FindLive(table, token, now).Some? <==>
      exists row :: row in table.Values && row.token == token && row.expiresAt > now
    ensures FindLive(table, token, now).Some? ==>
      var row := FindLive(table, token, now).value;
      row in table.Values && row.token == token && row.expiresAt > now
  {
    if exists row :: row in table.Values && row.token == token && row.expiresAt > now {
      var row :| row in table.Values && row.token == token && row.expiresAt > now;
      var t :| t in table && table[t] == row;
      assert t == token;
    }
  }

  /** `delete(table).where(eq(table.userId, id))` */
  function WithoutUser(table: TokenTable, id: UserId): (r: TokenTable)
    ensures forall t :: t in r <==> t in table && table[t].userId != id
    ensures forall t :: t in r ==> r[t] == table[t]
  {
    map t | t in table && table[t].userId != id :: table[t]
  }

  /** The `where` of a cascade on `users`: rows of users other than `id`. */
  function OtherUser(id: UserId): User -> bool
  {
    (u: User) => u.id != id
  }

  /** The `where` of a cascade on `login_history`: records of users other than `id`. */
  function OfOtherUser(id: UserId): LoginRecord -> bool
  {
    (r: LoginRecord) => r.userId != id
  }

  // ---------------------------------------------------------------- the store

  /** The in-memory store: one field per table. */
  class Database {
    var users: seq<User>
    var emailVerificationTokens: TokenTable
    var passwordResetTokens: TokenTable
    var refreshTokens: TokenTable
    var loginHistory: seq<LoginRecord>

    /**
     * The key constraints: user ids and emails unique, and each token table
     * indexed by its unique token and holding its own kind of row. The last
     * conjunct, at most one password-reset token per user, is not declared by
     * the table; it holds because `forgotPassword` deletes the user's reset
     * tokens before inserting a new one, and every operation preserves it.
     */
    ghost predicate Valid()
      reads this
    {
      && UsersUnique(users)
      && Keyed(emailVerificationTokens)
      && (forall t :: t in emailVerificationTokens ==> emailVerificationTokens[t].VerificationToken?)
      && Keyed(passwordResetTokens)
      && (forall t :: t in passwordResetTokens ==> passwordResetTokens[t].PasswordResetToken?)
      && OneTokenPerUser(passwordResetTokens)
      && Keyed(refreshTokens)
      && (forall t :: t in refreshTokens ==> refreshTokens[t].RefreshToken?)
    }

    /** The foreign keys: every token row and every login record references an existing user. */
    ghost predicate ReferencesIntact()
      reads this
    {
      && References(emailVerificationTokens, users)
      && References(passwordResetTokens, users)
      && References(refreshTokens, users)
      && (forall r :: r in loginHistory ==> r.userId in UserIds(users))
    }

    constructor ()
      ensures Valid() && ReferencesIntact()
      ensures users == [] && loginHistory == []
      ensures emailVerificationTokens == map[] && passwordResetTokens == map[] && refreshTokens == map[]
    {
      users := [];
      emailVerificationTokens := map[];
      passwordResetTokens := map[];
      refreshTokens := map[];
      loginHistory := [];
    }

    // One method per write statement the services issue; each touches one table.

    /** `insert(users).values(u)`: the id is fresh and the email unused. */
    method InsertUser(u: User)
      requires Valid()
      requires u.id !in UserIds(users) && FindUserByEmail(users, u.email).None?
      modifies this`users
      ensures Valid()
      ensures old(ReferencesIntact()) ==> ReferencesIntact()
      ensures users == old(users) + [u]
      ensures UserIds(users) == UserIds(old(users)) + {u.id}
    {
      InsertUserKeepsKeys(users, u);
      users := users + [u];
    }

    /** `update(users).set(change).where(eq(users.id, id))` */
    method UpdateUserRow(id: UserId, change: UserUpdate, now: Time)
      requires Valid()
      modifies this`users
      ensures Valid()
      ensures old(ReferencesIntact()) ==> ReferencesIntact()
      ensures users == UpdateUser(old(users), id, change, now)
      ensures UserIds(users) == UserIds(old(users))
    {
      UpdateUserKeepsKeys(users, id, change, now);
      users := UpdateUser(users, id, change, now);
    }

    /** `insert(emailVerificationTokens).values(row)` */
    method InsertVerificationToken(row: TokenRow)
      requires Valid()
      requires row.VerificationToken? && row.token !in emailVerificationTokens
      requires row.userId in UserIds(users)
      modifies this`emailVerificationTokens
      ensures Valid()
      ensures old(ReferencesIntact()) ==> ReferencesIntact()
      ensures emailVerificationTokens == old(emailVerificationTokens)[row.token := row]
    {
      emailVerificationTokens := emailVerificationTokens[row.token := row];
    }

    /** `delete(emailVerificationTokens).where(eq(token, token))` */
    method DeleteVerificationToken(token: Token)
      requires Valid()
      modifies this`emailVerificationTokens
      ensures Valid()
      ensures old(ReferencesIntact()) ==> ReferencesIntact()
      ensures emailVerificationTokens == old(emailVerificationTokens) - {token}
    {
      emailVerificationTokens := emailVerificationTokens - {token};
    }

    /** `insert(passwordResetTokens).values(row)`, for a user who has no reset token left. */
    method InsertResetToken(row: TokenRow)
      requires Valid()
      requires row.PasswordResetToken? && row.token !in passwordResetTokens
      requires row.userId in UserIds(users)
      requires forall t :: t in passwordResetTokens ==> passwordResetTokens[t].userId != row.userId
      modifies this`passwordResetTokens
      ensures Valid()
      ensures old(ReferencesIntact()) ==> ReferencesIntact()
      ensures passwordResetTokens == old(passwordResetTokens)[row.token := row]
    {
      passwordResetTokens := passwordResetTokens[row.token := row];
    }

    /** `delete(passwordResetTokens).where(eq(token, token))` */
    method DeleteResetToken(token: Token)
      requires Valid()
      modifies this`passwordResetTokens
      ensures Valid()
      ensures old(ReferencesIntact()) ==> ReferencesIntact()
      ensures passwordResetTokens == old(passwordResetTokens) - {token}
    {
      passwordResetTokens := passwordResetTokens - {token};
    }

    /** `delete(passwordResetTokens).where(eq(userId, id))` */
    method DeleteResetTokensOf(id: UserId)
      requires Valid()
      modifies this`passwordResetTokens
      ensures Valid()
      ensures old(ReferencesIntact()) ==> ReferencesIntact()
      ensures passwordResetTokens == WithoutUser(old(passwordResetTokens), id)
    {
      passwordResetTokens := WithoutUser(passwordResetTokens, id);
    }

    /** `insert(refreshTokens).values(row)` */
    method InsertRefreshToken(row: TokenRow)
      requires Valid()
      requires row.RefreshToken? && row.token !in refreshTokens
      requires row.userId in UserIds(users)
      modifies this`refreshTokens
      ensures Valid()
      ensures old(ReferencesIntact()) ==> ReferencesIntact()
      ensures refreshTokens == old(refreshTokens)[row.token := row]
    {
      refreshTokens := refreshTokens[row.token := row];
    }

    /** `delete(refreshTokens).where(eq(token, token))` */
    method DeleteRefreshToken(token: Token)
      requires Valid()
      modifies this`refreshTokens
      ensures Valid()
      ensures old(ReferencesIntact()) ==> ReferencesIntact()
      ensures refreshTokens == old(refreshTokens) - {token}
    {
      refreshTokens := refreshTokens - {token};
    }

    /** `delete(refreshTokens).where(eq(userId, id))`: revokes every session of one user. */
    method DeleteRefreshTokensOf(id: UserId)
      requires Valid()
      modifies this`refreshTokens
      ensures Valid()
      ensures old(ReferencesIntact()) ==> ReferencesIntact()
      ensures refreshTokens == WithoutUser(old(refreshTokens), id)
    {
      refreshTokens := WithoutUser(refreshTokens, id);
    }

    /** `insert(loginHistory).values(record)` */
    method InsertLoginRecord(record: LoginRecord)
      requires Valid()
      requires record.userId in UserIds(users)
      modifies this`loginHistory
      ensures Valid()
      ensures old(ReferencesIntact()) ==> ReferencesIntact()
      ensures loginHistory == old(loginHistory) + [record]
    {
      loginHistory := loginHistory + [record];
    }

    /**
     * Deleting a user row; `onDelete: 'cascade'` deletes every token row and
     * login record that references it, so no dangling reference is left.
     */
    method DeleteUser(id: UserId)
      requires Valid()
      modifies this
      ensures Valid()
      ensures old(ReferencesIntact()) ==> ReferencesIntact()
      ensures id !in UserIds(users)
      ensures users == Filter(old(users), OtherUser(id))
      ensures forall u :: u in users <==> u in old(users) && u.id != id
      ensures emailVerificationTokens == WithoutUser(old(emailVerificationTokens), id)
      ensures passwordResetTokens == WithoutUser(old(passwordResetTokens), id)
      ensures refreshTokens == WithoutUser(old(refreshTokens), id)
      ensures loginHistory == Filter(old(loginHistory), OfOtherUser(id))
      ensures forall r :: multiset(loginHistory)[r] == if r.userId != id then multiset(old(loginHistory))[r] else 0
    {
      ghost var before := users;
      FilterKeepsUsersUnique(users, OtherUser(id));
      users := Filter(users, OtherUser(id));
      emailVerificationTokens := WithoutUser(emailVerificationTokens, id);
      passwordResetTokens := WithoutUser(passwordResetTokens, id);
      refreshTokens := WithoutUser(refreshTokens, id);
      loginHistory := Filter(loginHistory, OfOtherUser(id));
      assert forall x :: x in UserIds(before) && x != id ==> x in UserIds(users) by {
        forall x | x in UserIds(before) && x != id ensures x in UserIds(users) {
          var u :| u in before && u.id == x;
          assert u in users;
        }
      }
    }
  }
}
