/** `ensureAccountForUser`: find the user's account row, or insert a default one.
    The `accounts` table is a sequence of rows on a class; the database's answers that
    the code cannot predict (a select error, how the insert replies) are parameters. */
module Accounts {
  import opened Base
  import ConvertKit

  /** A row of `accounts`; ids are handed out by the table. */
  datatype Account = Account(
    id: nat, userId: string, name: Option<string>, apiKey: Option<string>, tagLabel: Option<string>)

  /** How the insert's `.select().single()` replies: with the stored row, with an
      error (nothing stored), or with neither. */
  datatype InsertReply = Inserted | InsertFailed(message: string) | NothingReturned

  /** The promise's outcome: the account, or the message of what was thrown. */
  datatype AccountResult = Success(account: Account) | Thrown(message: string)

  const FailedToCreate: string := "Failed to create account for user"

  /** The row a new user receives: named "New Account", tagged "source-howdy", no API key. */
  function DefaultAccount(id: nat, userId: string): (a: Account)
    ensures a.id == id && a.userId == userId && a.apiKey.None?
    ensures a.name == Some("New Account") && a.tagLabel == Some(ConvertKit.DefaultTagName)
  {
    Account(id, userId, Some("New Account"), None, Some(ConvertKit.DefaultTagName))
  }

  /** The position of the first row of `userId` (`.eq("user_id", userId).limit(1)`
      read in table order), or `|rows|` when the user has none. */
  function FirstIndexFor(rows: seq<Account>, userId: string): (i: nat)
    ensures i <= |rows|
    ensures forall j :: 0 <= j < i ==> rows[j].userId != userId
    ensures i < |rows| ==> rows[i].userId == userId
  {
    if rows == [] then 0
    else if rows[0].userId == userId then 0
    else 1 + FirstIndexFor(rows[1..], userId)
  }

  /** The first row of `userId`, if the user has one. */
  function FirstRowFor(rows: seq<Account>, userId: string): (r: Option<Account>)
    ensures r.Some? <==> exists j :: 0 <= j < |rows| && rows[j].userId == userId
    ensures r.Some? ==> r.value in rows && r.value.userId == userId
  {
    var i := FirstIndexFor(rows, userId);
    if i < |rows| then Some(rows[i]) else None
  }

  /** Appending a row changes no user's first row except that of a user who had none,
      whose first row becomes the appended one. */
  lemma {:induction false} FirstRowAfterAppend(rows: seq<Account>, a: Account, userId: string)
    ensures FirstRowFor(rows + [a], userId) ==
      if FirstRowFor(rows, userId).Some? then FirstRowFor(rows, userId)
      else if a.userId == userId then Some(a)
      else None
  {
    if rows != [] && rows[0].userId != userId {
      FirstRowAfterAppend(rows[1..], a, userId);
      assert (rows + [a])[1..] == rows[1..] + [a];
    }
  }

  class AccountsTable {
    var rows: seq<Account>
    var lastId: nat

    /** Row ids are distinct and none exceeds the last id handed out. */
    ghost predicate Valid()
      reads this
    {
      && (forall i :: 0 <= i < |rows| ==> rows[i].id <= lastId)
      && (forall i, j :: 0 <= i < j < |rows| ==> rows[i].id != rows[j].id)
    }

    constructor()
      ensures rows == [] && lastId == 0 && Valid()
    {
      rows, lastId := [], 0;
    }

    /** `ensureAccountForUser(userId)`. A select error is thrown before anything is
        inserted; an existing row is returned as it is; otherwise one default row is
        inserted and returned, unless the insert fails or returns nothing, in which case
        the call throws and the table is as it was. On success the result is the user's
        first row afterwards, and no other user's first row changes. */
    method EnsureAccountForUser(userId: string, selectError: Option<string>, insertReply: InsertReply)
      returns (r: AccountResult)
      requires Valid()
      modifies this
      ensures Valid()
      ensures selectError.Some? ==>
        r == Thrown(selectError.value) && rows == old(rows) && lastId == old(lastId)
      ensures selectError.None? && FirstRowFor(old(rows), userId).Some? ==>
        r == Success(FirstRowFor(old(rows), userId).value) && rows == old(rows) && lastId == old(lastId)
      ensures selectError.None? && FirstRowFor(old(rows), userId).None? && insertReply.Inserted? ==>
        && lastId == old(lastId) + 1
        && rows == old(rows) + [DefaultAccount(lastId, userId)]
        && r == Success(DefaultAccount(lastId, userId))
      ensures selectError.None? && FirstRowFor(old(rows), userId).None? && insertReply.InsertFailed? ==>
        r == Thrown(insertReply.message) && rows == old(rows) && lastId == old(lastId)
      ensures selectError.None? && FirstRowFor(old(rows), userId).None? && insertReply.NothingReturned? ==>
        r == Thrown(FailedToCreate) && rows == old(rows) && lastId == old(lastId)
      ensures r.Success? ==> FirstRowFor(rows, userId) == Some(r.account)
      ensures old(rows) <= rows && |rows| <= |old(rows)| + 1
      ensures forall u :: u != userId ==> FirstRowFor(rows, u) == FirstRowFor(old(rows), u)
    {
      if selectError.Some? {
        return Thrown(selectError.value);
      }
      var found := FirstRowFor(rows, userId);
      if found.Some? {
        return Success(found.value);
      }
      match insertReply {
        case InsertFailed(message) =>
          r := Thrown(message);
        case NothingReturned =>
          r := Thrown(FailedToCreate);
        case Inserted =>
          ghost var before := rows;
          var created := DefaultAccount(lastId + 1, userId);
          rows := rows + [created];
          lastId := lastId + 1;
          FirstRowAfterAppend(before, created, userId);
          forall u | u != userId
            ensures FirstRowFor(rows, u) == FirstRowFor(before, u)
          {
            FirstRowAfterAppend(before, created, u);
          }
          r := Success(created);
      }
    }

    /** Two calls in sequence for the same user, the second without a select error,
        return the same account, and the second inserts nothing. */
    method EnsureAccountTwice(userId: string, selectError: Option<string>, insertReply: InsertReply,
                              secondInsertReply: InsertReply)
      returns (first: AccountResult, second: AccountResult)
      requires Valid()
      modifies this
      ensures Valid()
      ensures first.Success? ==> second == first
      ensures first.Success? ==> old(rows) <= rows && |rows| <= |old(rows)| + 1
    {
      first := EnsureAccountForUser(userId, selectError, insertReply);
      second := EnsureAccountForUser(userId, None, secondInsertReply);
    }
  }
}
