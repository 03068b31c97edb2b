/**
  The services that write the tables of `Channels`: alert channel management
  (internal/alertchannel) and Telegram linking (internal/telegramlink), statement by statement.
 */
module ChannelServices {
  import opened Common
  import opened Text
  import opened Channels

  class Store {
    var channels: map<Id, Channel>
    var tokens: map<string, LinkToken>

    constructor ()
      ensures Contents() == START.db
    {
      channels, tokens := map[], map[];
    }

    function Contents(): Db
      reads this
    {
      Db(channels, tokens)
    }
  }

  class AlertChannelService {
    const db: Store
    const validUrl: string -> bool

    constructor (db: Store, validUrl: string -> bool)
      ensures this.db == db && this.validUrl == validUrl
    {
      this.db, this.validUrl := db, validUrl;
    }

    /** Inserts the normalised channel, or reports why not and changes nothing. */
    method Create(uuid: Id, user: Id, kind: string, address: string, enabled: bool)
      returns (r: Result<Id, ChannelError>)
      requires uuid !in db.channels
      modifies db
      ensures
        var n := NormalizeAndValidate(validUrl, kind, address);
        if n.Err? then db.Contents() == old(db.Contents()) && r == Err(n.error)
        else
          && Allowed(validUrl, old(db.Contents()), Op.Create(uuid, user, n.value.0, n.value.1, enabled))
          && (db.Contents(), r) == InsertChannel(old(db.Contents()), uuid, Channel(user, n.value.0, n.value.1, enabled))
      ensures
        var a := TrimSpace(address);
        var t := if Names(kind, "telegram") then "telegram" else "webhook";
        var taken := exists id :: id in old(db.channels) && SameKey(old(db.channels)[id], user, t, a);
        && (r.Ok? <==> Accepted(validUrl, kind, a) && !taken)
        && (r == Err(Duplicate) <==> Accepted(validUrl, kind, a) && taken)
        && (r == Err(InvalidType) <==> !Names(kind, "telegram") && !Names(kind, "webhook"))
        && (r == Err(InvalidAddress) <==>
              (Names(kind, "telegram") || Names(kind, "webhook")) && !Accepted(validUrl, kind, a))
        && (r.Ok? ==> r.value == uuid && db.channels == old(db.channels)[uuid := Channel(user, t, a, enabled)])
        && (r.Err? ==> db.channels == old(db.channels))
        && db.tokens == old(db.tokens)
    {
      NormalizeExact(validUrl, kind, address);
      var n := NormalizeAndValidate(validUrl, kind, address);
      if n.Err? {
        return Err(n.error);
      }
      NormalizationIsIdempotent(validUrl, kind, address);
      var (kind', address') := n.value;
      if Taken(db.channels, user, kind', address', None) {
        return Err(Duplicate);
      }
      db.channels := db.channels[uuid := Channel(user, kind', address', enabled)];
      return Ok(uuid);
    }

    /** The first half of an update: read the channel, lay the given fields over it, normalise. */
    method Prepare(id: Id, user: Id, kind: Option<string>, address: Option<string>, enabled: Option<bool>)
      returns (r: Result<Channel, ChannelError>)
      ensures
        if kind == None && address == None && enabled == None then r == Err(EmptyUpdate)
        else if !Owns(db.Contents(), id, user) then r == Err(NotFound)
        else
          var current := db.channels[id];
          var n := NormalizeAndValidate(validUrl, OrElse(kind, current.kind), OrElse(address, current.address));
          && (n.Err? ==> r == Err(n.error))
          && (n.Ok? ==> r == Ok(Channel(user, n.value.0, n.value.1, OrElse(enabled, current.enabled))))
      ensures r.Ok? ==> Normal(validUrl, r.value.kind, r.value.address)
    {
      if kind == None && address == None && enabled == None {
        return Err(EmptyUpdate);
      }
      if id !in db.channels || db.channels[id].user != user {
        return Err(NotFound);
      }
      var channel := db.channels[id];
      var kind', address', enabled' := channel.kind, channel.address, channel.enabled;
      if kind.Some? {
        kind' := kind.value;
      }
      if address.Some? {
        address' := address.value;
      }
      if enabled.Some? {
        enabled' := enabled.value;
      }
      var n := NormalizeAndValidate(validUrl, kind', address');
      if n.Err? {
        return Err(n.error);
      }
      NormalizationIsIdempotent(validUrl, kind', address');
      return Ok(Channel(user, n.value.0, n.value.1, enabled'));
    }

    /**
      The second half: one guarded statement, on whatever the row has become by then. It touches no other
      row, and never makes two rows of the same user, type and address.
     */
    method Write(id: Id, c: Channel) returns (r: Result<Id, ChannelError>)
      modifies db
      ensures (db.Contents(), r) == UpdateChannel(old(db.Contents()), id, c.user, c.kind, c.address, c.enabled)
      ensures r == Err(NotFound) <==> !Owns(old(db.Contents()), id, c.user)
      ensures r == Err(Duplicate) <==>
                && Owns(old(db.Contents()), id, c.user)
                && exists other :: other in old(db.channels) && other != id
                                   && SameKey(old(db.channels)[other], c.user, c.kind, c.address)
      ensures r.Ok? ==> id in db.channels && db.channels[id] == c
      ensures db.channels - {id} == old(db.channels) - {id} && db.tokens == old(db.tokens)
      ensures r.Err? ==> db.channels == old(db.channels)
      ensures NoTwins(old(db.Contents())) ==> NoTwins(db.Contents())
    {
      if id !in db.channels || db.channels[id].user != c.user {
        return Err(NotFound);
      }
      if Taken(db.channels, c.user, c.kind, c.address, Some(id)) {
        return Err(Duplicate);
      }
      db.channels := db.channels[id := c];
      return Ok(id);
    }

    /** Removes an owned channel and nothing else; its user can then add the same address again. */
    method Delete(id: Id, user: Id) returns (r: Result<Id, ChannelError>)
      modifies db
      ensures (db.Contents(), r) == DeleteChannel(old(db.Contents()), id, user)
      ensures r.Ok? <==> Owns(old(db.Contents()), id, user)
      ensures db.channels - {id} == old(db.channels) - {id} && db.tokens == old(db.tokens)
      ensures r.Ok? ==> id !in db.channels
      ensures r.Ok? && NoTwins(old(db.Contents())) ==>
                var gone := old(db.channels)[id];
                !Taken(db.channels, gone.user, gone.kind, gone.address, None)
    {
      if id !in db.channels || db.channels[id].user != user {
        return Err(NotFound);
      }
      db.channels := db.channels - {id};
      return Ok(id);
    }
  }

  datatype Fault = NoFault | AtConsume | AtUpsert | AtCommit

  class TelegramLinkService {
    const db: Store
    const hash: string -> string

    constructor (db: Store, hash: string -> string)
      ensures this.db == db && this.hash == hash
    {
      this.db, this.hash := db, hash;
    }

    /** The transaction: mark the token used, then upsert the channel, or neither. */
    method ConsumeLinkToken(tokenHash: string, chat: string, now: Time, uuid: Id, fault: Fault)
      returns (r: Result<Id, ChannelError>)
      requires uuid !in db.channels
      modifies db
      ensures fault == NoFault ==> (db.Contents(), r) == ConsumeToken(old(db.Contents()), tokenHash, chat, now, uuid)
      ensures r.Ok? ==> (db.Contents(), r) == ConsumeToken(old(db.Contents()), tokenHash, chat, now, uuid)
      ensures r.Err? ==> db.Contents() == old(db.Contents())
      ensures r == Err(InvalidLinkToken) ==> !Consumable(old(db.Contents()), tokenHash, now)
    {
      var channels, tokens := db.channels, db.tokens;
      if fault.AtConsume? {
        return Err(StatementFailed);
      }
      if !(tokenHash in db.tokens && db.tokens[tokenHash].usedAt == None && db.tokens[tokenHash].expiresAt > now) {
        return Err(InvalidLinkToken);
      }
      var user := db.tokens[tokenHash].user;
      db.tokens := db.tokens[tokenHash := db.tokens[tokenHash].(usedAt := Some(now))];
      if !fault.AtUpsert? {
        db.channels := UpsertChat(db.channels, uuid, user, chat);
      }
      if !fault.NoFault? {
        db.channels, db.tokens := channels, tokens;
        return Err(StatementFailed);
      }
      return Ok(user);
    }

    /** Links a chat to the creator of a token, exactly if the trimmed token is consumable and the chat id not blank. */
    method LinkChat(rawToken: string, chatId: string, now: Time, uuid: Id, fault: Fault)
      returns (r: Result<(), ChannelError>)
      requires uuid !in db.channels
      modifies db
      ensures r.Err? ==> db.Contents() == old(db.Contents())
      ensures TrimSpace(rawToken) == "" ==> r == Err(InvalidLinkToken)
      ensures TrimSpace(rawToken) != "" && TrimSpace(chatId) == "" ==> r == Err(InvalidChatId)
      ensures r.Ok? ==>
                var op := Consume(hash(TrimSpace(rawToken)), TrimSpace(chatId), now, uuid);
                && Consumable(old(db.Contents()), op.hash, now)
                && Trimmed(op.chat) && op.chat != ""
                && db.Contents() == Step(old(db.Contents()), op)
      ensures fault == NoFault && TrimSpace(rawToken) != "" && TrimSpace(chatId) != "" ==>
                (r.Ok? <==> Consumable(old(db.Contents()), hash(TrimSpace(rawToken)), now))
    {
      var token, chat := TrimSpace(rawToken), TrimSpace(chatId);
      if token == "" {
        return Err(InvalidLinkToken);
      }
      if chat == "" {
        return Err(InvalidChatId);
      }
      TrimSpaceExact(chatId);
      var consumed := ConsumeLinkToken(hash(token), chat, now, uuid, fault);
      if consumed.Err? {
        return Err(consumed.error);
      }
      return Ok(());
    }
  }
}
