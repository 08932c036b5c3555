/**
 * The bot's two tables as the handlers see them, and the /start and /stats
 * commands over them.
 */
module Start {
  import opened Wrappers

  /** A row of `users`; a new row starts with no conversions. */
  datatype User = User(telegramId: int, username: Option<string>, firstName: Option<string>, totalConversions: nat)

  /** A row of `conversion_logs`. */
  datatype ConversionLog = ConversionLog(
    telegramId: int,
    originalFilename: string,
    originalSizeMb: real,
    convertedSizeMb: real,
    durationSeconds: real
  )

  /** What /start replies with (the greeting text itself is left out). */
  datatype Reply = Greeting

  /** The number /stats reports: the user's counter, or 0 when the user has no row. */
  function ConversionCount(users: map<int, User>, telegramId: int): nat {
    if telegramId in users then users[telegramId].totalConversions else 0
  }

  /** `user.total_conversions += 1` when the row exists, nothing otherwise. */
  function CountConversion(users: map<int, User>, telegramId: int): (r: map<int, User>)
    ensures r.Keys == users.Keys
  {
    if telegramId in users
    then users[telegramId := users[telegramId].(totalConversions := users[telegramId].totalConversions + 1)]
    else users
  }

  /** One more conversion raises the user's count by one when they have a row, leaves it at 0
      when they have none, and leaves every other user's count as it was. */
  lemma CountConversionEffect(users: map<int, User>, telegramId: int, other: int)
    ensures ConversionCount(CountConversion(users, telegramId), telegramId)
         == ConversionCount(users, telegramId) + (if telegramId in users then 1 else 0)
    ensures other != telegramId ==>
              ConversionCount(CountConversion(users, telegramId), other) == ConversionCount(users, other)
  {
  }

  /** The `users` and `conversion_logs` tables of one session. `users` is keyed by
      `telegram_id`, which the schema declares unique. */
  class Database {
    var users: map<int, User>
    var logs: seq<ConversionLog>

    /** Each row is filed under its own `telegram_id`. */
    ghost predicate Valid()
      reads this
    {
      forall id :: id in users ==> users[id].telegramId == id
    }

    constructor ()
      ensures Valid() && users == map[] && logs == []
    {
      users := map[];
      logs := [];
    }

    /** `cmd_start`: get or create the sender's row, then greet. */
    method CmdStart(telegramId: int, username: Option<string>, firstName: Option<string>)
      returns (reply: Reply)
      requires Valid()
      modifies this
      ensures Valid() && logs == old(logs) && reply == Greeting
      ensures telegramId in old(users) ==> users == old(users)
      ensures telegramId !in old(users) ==>
                users == old(users)[telegramId := User(telegramId, username, firstName, 0)]
    {
      if telegramId !in users {
        users := users[telegramId := User(telegramId, username, firstName, 0)];
      }
      reply := Greeting;
    }

    /** After a conversion: add the log row, then count it for the user if their row exists. */
    method RecordConversion(log: ConversionLog)
      requires Valid()
      modifies this
      ensures Valid()
      ensures logs == old(logs) + [log]
      ensures users == CountConversion(old(users), log.telegramId)
    {
      logs := logs + [log];
      if log.telegramId in users {
        var user := users[log.telegramId];
        users := users[log.telegramId := user.(totalConversions := user.totalConversions + 1)];
      }
    }

    /** `cmd_stats`: the sender's conversion count; nothing is changed. */
    method CmdStats(telegramId: int) returns (count: nat)
      ensures count == ConversionCount(users, telegramId)
    {
      count := 0;
      if telegramId in users {
        count := users[telegramId].totalConversions;
      }
    }
  }

  /** After /start the sender has exactly one row, and /stats reports one more after each
      recorded conversion. */
  method StartThenCount(db: Database, telegramId: int, username: Option<string>, firstName: Option<string>,
                        log: ConversionLog)
    returns (before: nat, after: nat)
    requires log.telegramId == telegramId
    requires db.Valid()
    modifies db
    ensures db.Valid() && telegramId in db.users && db.users[telegramId].telegramId == telegramId
    ensures after == before + 1
  {
    var _ := db.CmdStart(telegramId, username, firstName);
    before := db.CmdStats(telegramId);
    db.RecordConversion(log);
    after := db.CmdStats(telegramId);
  }
}
