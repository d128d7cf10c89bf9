/** The profile store: one table `user_profiles` whose primary key is
    `user_id`. The SQL engine is replaced by a map from `user_id` to the row,
    and the driver by a class that owns that map. */
module Dbi {
  import opened Wrappers

  /** A row of `user_profiles`, as the driver hands it out. */
  datatype UserProfile = UserProfile(userId: string, name: string, school: string, interviewStatus: string)

  /** The table's rows, keyed by their primary key. */
  type Table = map<string, UserProfile>

  /** The error SQLite raises when an INSERT repeats an existing primary key. */
  datatype DbError = IntegrityError

  /** Every row is stored under its own `user_id`. */
  ghost predicate WellKeyed(t: Table) {
    forall k :: k in t ==> t[k].userId == k
  }

  /** `SELECT * FROM user_profiles WHERE user_id = ?`, first row or `None`. */
  function Get(t: Table, userId: string): (r: Option<UserProfile>)
    ensures r.Some? <==> userId in t
    ensures r.Some? ==> r.value == t[userId]
  {
    if userId in t then Some(t[userId]) else None
  }

  /** `INSERT INTO user_profiles ...`: the new table and the record handed
      back, or the primary-key violation. */
  function Insert(t: Table, userId: string, name: string, school: string, interviewStatus: string)
    : (r: Result<(Table, UserProfile), DbError>)
    ensures r.Ok? <==> userId !in t
    ensures r.Err? ==> r.error == IntegrityError
    ensures r.Ok? ==> r.value.0.Keys == t.Keys + {userId} && r.value.0[userId] == r.value.1
    ensures r.Ok? ==> r.value.1 == UserProfile(userId, name, school, interviewStatus)
  {
    if userId in t then Err(IntegrityError)
    else
      var row := UserProfile(userId, name, school, interviewStatus);
      Ok((t[userId := row], row))
  }

  /** An insert succeeds exactly when the key is new; the record it returns
      carries the arguments, and reading the key back gives that record. */
  lemma InsertThenGet(t: Table, userId: string, name: string, school: string, interviewStatus: string)
    ensures Insert(t, userId, name, school, interviewStatus).Ok? <==> userId !in t
    ensures Insert(t, userId, name, school, interviewStatus).Ok? ==>
      var (t', row) := Insert(t, userId, name, school, interviewStatus).value;
      && row == UserProfile(userId, name, school, interviewStatus)
      && Get(t', userId) == Some(row)
  {
  }

  /** A failed insert leaves the table as it was. */
  lemma InsertConflictKeepsTable(t: Table, userId: string, name: string, school: string, interviewStatus: string)
    requires userId in t
    ensures Insert(t, userId, name, school, interviewStatus) == Err(IntegrityError)
  {
  }

  /** A successful insert touches no other key: every other read gives what
      it gave before, absent keys included. */
  lemma InsertKeepsOtherKeys(t: Table, userId: string, name: string, school: string, interviewStatus: string, other: string)
    requires other != userId
    ensures Insert(t, userId, name, school, interviewStatus).Ok? ==>
      Get(Insert(t, userId, name, school, interviewStatus).value.0, other) == Get(t, other)
    ensures Insert(t, userId, name, school, interviewStatus).Ok? ==>
      |Insert(t, userId, name, school, interviewStatus).value.0| == |t| + 1
  {
  }

  /** Insertion keeps every row under its own key. */
  lemma InsertKeepsWellKeyed(t: Table, userId: string, name: string, school: string, interviewStatus: string)
    requires WellKeyed(t)
    ensures Insert(t, userId, name, school, interviewStatus).Ok? ==>
      WellKeyed(Insert(t, userId, name, school, interviewStatus).value.0)
  {
  }

  /** The driver over one database file. */
  class DatabaseDriver {
    /** The rows of `user_profiles`. */
    var table: Table

    ghost predicate Valid()
      reads this
    {
      WellKeyed(table)
    }

    /** Opening a database runs `CREATE TABLE IF NOT EXISTS`, so the rows
        already in the file are kept as they are. */
    constructor (existing: Table)
      requires WellKeyed(existing)
      ensures Valid()
      ensures table == existing
    {
      table := existing;
    }

    /** Inserts a row and returns it as a record; a repeated `user_id` raises
        the integrity error and the table is unchanged. */
    method CreateUserProfile(userId: string, name: string, school: string, interviewStatus: string)
      returns (r: Result<UserProfile, DbError>)
      requires Valid()
      modifies this
      ensures Valid()
      ensures r.Ok? <==> userId !in old(table)
      ensures r.Ok? ==> r.value == UserProfile(userId, name, school, interviewStatus)
      ensures r.Ok? ==> table == old(table)[userId := r.value]
      ensures r.Err? ==> r.error == IntegrityError && table == old(table)
      ensures match Insert(old(table), userId, name, school, interviewStatus)
        case Ok((t', row)) => r == Ok(row) && table == t'
        case Err(e) => r == Err(e) && table == old(table)
    {
      if userId in table {
        return Err(IntegrityError);
      }
      var row := UserProfile(userId, name, school, interviewStatus);
      table := table[userId := row];
      r := Ok(row);
    }

    /** Reads the row stored under `userId`, or `None`; never writes. */
    method GetUserProfile(userId: string) returns (p: Option<UserProfile>)
      requires Valid()
      ensures p == Get(table, userId)
      ensures p.None? <==> userId !in table
      ensures p.Some? ==> p.value == table[userId] && p.value.userId == userId
    {
      if userId in table {
        var row := table[userId];
        p := Some(UserProfile(row.userId, row.name, row.school, row.interviewStatus));
      } else {
        p := None;
      }
    }
  }
}
