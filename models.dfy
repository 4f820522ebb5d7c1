/**
 * The records the chat relay stores and passes around (clients, stored
 * messages, mutes, unmute requests, the incoming chat message), the error
 * codes its services throw, and the database tables as sequences of records.
 *
 * Time is one abstract clock counting seconds since 0001-01-01, so that the
 * value 0 is C#'s `default(DateTime)`. A `null` string is modelled as "" where
 * the code treats null and empty alike.
 */
module Models {
  import opened Wrappers

  type Time = nat

  const Minute: int := 60
  const Hour: int := 3600
  const Day: int := 86400

  /** `default(DateTime)`: what an unset `Expires` holds. */
  const DefaultTime: Time := 0
  /** `DateTime.MaxValue` (9999-12-31 23:59:59) in whole seconds; a later date throws. */
  const MaxTime: Time := 315537897599

  /** A registered client application (tenant); `apiKey` is its token. */
  datatype Client = Client(id: int, name: string, apiKey: string, webHook: string, webhookAuth: string)

  /** A row of the `Messages` table. */
  datatype DbMessage = DbMessage(clientId: int, content: string, sender: string, timestamp: Time)

  /**
   * A row of the `Mute` table. `canceled` is the CANCELED bit of the
   * `MuteStatus` flags, the only bit the services read or set.
   */
  datatype Mute = Mute(
    id: nat,
    uuid: string,
    muter: string,
    message: string,
    reason: string,
    timestamp: Time,
    expires: Time,
    canceled: bool,
    clientId: int,
    unMuteClientId: int,
    unMuter: string)

  /** An unmute request. */
  datatype UnMute = UnMute(uuid: string, unMuter: string, reason: string)

  /**
   * The codes of the exceptions the services throw: the `ApiException` slugs,
   * the argument exception of an empty mute uuid, and the exception of a date
   * past `DateTime.MaxValue`.
   */
  datatype ErrorCode =
    | InvalidToken
    | InvalidUuid
    | TokenMismatch
    | MessageSpam
    | UserMuted
    | Rule2
    | BadWords
    | LinkFound
    | AuthFound
    | IllegalScript
    | InvalidMute
    | TooManyMutes
    | NoMuteFound
    | ClientExists
    | ArgumentNullOrEmpty
    | DateOutOfRange

  /** LINQ `Where` over a table: the rows satisfying `p`, in their order. */
  function Where<T(!new)>(rows: seq<T>, p: T -> bool): (r: seq<T>)
    ensures forall x :: x in r <==> x in rows && p(x)
    ensures |r| <= |rows|
  {
    if rows == [] then []
    else
      var init, last := rows[..|rows| - 1], rows[|rows| - 1];
      assert rows == init + [last];
      Where(init, p) + (if p(last) then [last] else [])
  }

  /** The incoming chat message, whose fields the services update in place. */
  class ChatMessage {
    var uuid: string
    /** Display name of the sender; "" stands for null. */
    var name: string
    var message: string
    /** Name of the client that sent it; `None` stands for null. */
    var clientName: Option<string>

    constructor (uuid: string, name: string, message: string, clientName: Option<string>)
      ensures this.uuid == uuid && this.name == name && this.message == message
      ensures this.clientName == clientName
    {
      this.uuid := uuid;
      this.name := name;
      this.message := message;
      this.clientName := clientName;
    }
  }

  /** The database: the `Messages`, `Mute` and `Clients` tables in insertion order. */
  class Db {
    var messages: seq<DbMessage>
    var mutes: seq<Mute>
    var clients: seq<Client>

    /** The database assigns each mute row its position as identity. */
    ghost predicate Valid()
      reads this
    {
      forall i :: 0 <= i < |mutes| ==> mutes[i].id == i
    }

    constructor ()
      ensures Valid()
      ensures messages == [] && mutes == [] && clients == []
    {
      messages, mutes, clients := [], [], [];
    }
  }
}
