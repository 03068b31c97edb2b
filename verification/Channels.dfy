/**
  Alert channels and one-time Telegram link tokens: the two tables, their committed statements, and
  what every run of them keeps. `validUrl` stands for the check of webhook addresses
  (`url.ParseRequestURI` succeeds with a host and the scheme http or https).
 */
module Channels {
  import opened Common
  import opened Text

  const TELEGRAM: string := "telegram"
  const WEBHOOK: string := "webhook"

  datatype Channel = Channel(user: Id, kind: string, address: string, enabled: bool)

  datatype LinkToken = LinkToken(user: Id, expiresAt: Time, usedAt: Option<Time>)

  /** Tokens are found by the hash of their secret, which is unique. */
  datatype Db = Db(channels: map<Id, Channel>, tokens: map<string, LinkToken>)

  datatype ChannelError =
    | InvalidType | InvalidAddress | EmptyUpdate | NotFound | Duplicate
    | InvalidLinkToken | InvalidChatId | StatementFailed

  // ---------------------------------------------------------------------------------------------
  // Normalisation
  // ---------------------------------------------------------------------------------------------

  function NormalizeAndValidate(validUrl: string -> bool, kind: string, address: string)
    : Result<(string, string), ChannelError>
  {
    var kind' := ToLower(TrimSpace(kind));
    var address' := TrimSpace(address);
    if kind' == TELEGRAM then
      if address' == "" then Err(InvalidAddress) else Ok((kind', address'))
    else if kind' == WEBHOOK then
      if validUrl(address') then Ok((kind', address')) else Err(InvalidAddress)
    else Err(InvalidType)
  }

  /** Trimmed, `kind` is the word `word` in whatever case. */
  ghost predicate Names(kind: string, word: string) {
    var k := TrimSpace(kind);
    |k| == |word| && forall i :: 0 <= i < |k| ==> Spells(k[i], word[i])
  }

  ghost predicate Accepted(validUrl: string -> bool, kind: string, address: string) {
    || (Names(kind, "telegram") && address != "")
    || (Names(kind, "webhook") && validUrl(address))
  }

  /** What normalisation makes of every input: the address is judged if the type is one of two, in any case. */
  lemma NormalizeExact(validUrl: string -> bool, kind: string, address: string)
    ensures
      var r, a := NormalizeAndValidate(validUrl, kind, address), TrimSpace(address);
      && (r.Ok? <==> Accepted(validUrl, kind, a))
      && (r.Ok? ==> r.value == (if Names(kind, "telegram") then "telegram" else "webhook", a))
      && (r == Err(InvalidType) <==> !Names(kind, "telegram") && !Names(kind, "webhook"))
      && (r == Err(InvalidAddress) <==>
            (Names(kind, "telegram") || Names(kind, "webhook")) && !Accepted(validUrl, kind, a))
  {
    ToLowerExact(TrimSpace(kind), "telegram");
    ToLowerExact(TrimSpace(kind), "webhook");
  }

  /** A stored type and address that normalisation accepts and leaves alone. */
  predicate Normal(validUrl: string -> bool, kind: string, address: string) {
    NormalizeAndValidate(validUrl, kind, address) == Ok((kind, address))
  }

  lemma TypesAreNormal()
    ensures ToLower(TrimSpace(TELEGRAM)) == TELEGRAM
    ensures ToLower(TrimSpace(WEBHOOK)) == WEBHOOK
  {
    TrimSpaceExact(TELEGRAM);
    TrimSpaceExact(WEBHOOK);
    ToLowerFixes(TELEGRAM);
    ToLowerFixes(WEBHOOK);
  }

  /** Said directly: one of two types, a trimmed address, and what the type demands of it. */
  ghost predicate WellFormed(validUrl: string -> bool, kind: string, address: string) {
    && (kind == TELEGRAM || kind == WEBHOOK)
    && Trimmed(address)
    && (kind == TELEGRAM ==> address != "")
    && (kind == WEBHOOK ==> validUrl(address))
  }

  lemma NormalExact(validUrl: string -> bool, kind: string, address: string)
    ensures Normal(validUrl, kind, address) <==> WellFormed(validUrl, kind, address)
  {
    TypesAreNormal();
    TrimSpaceExact(address);
    var kind', address' := ToLower(TrimSpace(kind)), TrimSpace(address);
    if kind == TELEGRAM || kind == WEBHOOK {
      assert kind' == kind;
    }
  }

  /** What normalisation returns is normal: it is idempotent. */
  lemma NormalizationIsIdempotent(validUrl: string -> bool, kind: string, address: string)
    ensures
      var r := NormalizeAndValidate(validUrl, kind, address);
      r.Ok? ==> Normal(validUrl, r.value.0, r.value.1)
  {
    var r := NormalizeAndValidate(validUrl, kind, address);
    if r.Ok? {
      TrimSpaceExact(address);
      NormalExact(validUrl, r.value.0, r.value.1);
    }
  }

  // ---------------------------------------------------------------------------------------------
  // Committed statements
  // ---------------------------------------------------------------------------------------------

  predicate SameKey(c: Channel, user: Id, kind: string, address: string) {
    c.user == user && c.kind == kind && c.address == address
  }

  /** Would the unique index on user, type and address reject such a row, other than the row `except`? */
  predicate Taken(channels: map<Id, Channel>, user: Id, kind: string, address: string, except: Option<Id>) {
    exists id :: id in channels && Some(id) != except && SameKey(channels[id], user, kind, address)
  }

  predicate Owns(db: Db, id: Id, user: Id) {
    id in db.channels && db.channels[id].user == user
  }

  function InsertChannel(db: Db, uuid: Id, c: Channel): (Db, Result<Id, ChannelError>) {
    if Taken(db.channels, c.user, c.kind, c.address, None) then (db, Err(Duplicate))
    else (db.(channels := db.channels[uuid := c]), Ok(uuid))
  }

  function UpdateChannel(db: Db, id: Id, user: Id, kind: string, address: string, enabled: bool)
    : (Db, Result<Id, ChannelError>)
  {
    if !Owns(db, id, user) then (db, Err(NotFound))
    else if Taken(db.channels, user, kind, address, Some(id)) then (db, Err(Duplicate))
    else (db.(channels := db.channels[id := Channel(user, kind, address, enabled)]), Ok(id))
  }

  function DeleteChannel(db: Db, id: Id, user: Id): (Db, Result<Id, ChannelError>) {
    if Owns(db, id, user) then (db.(channels := db.channels - {id}), Ok(id)) else (db, Err(NotFound))
  }

  function InsertToken(db: Db, user: Id, hash: string, expiresAt: Time): Db {
    if hash in db.tokens then db else db.(tokens := db.tokens[hash := LinkToken(user, expiresAt, None)])
  }

  /** The where clause of the consuming update. */
  predicate Consumable(db: Db, hash: string, now: Time) {
    hash in db.tokens && db.tokens[hash].usedAt == None && db.tokens[hash].expiresAt > now
  }

  /** `insert ... on conflict do update set enabled = true`. */
  function UpsertChat(channels: map<Id, Channel>, uuid: Id, user: Id, chat: string): map<Id, Channel> {
    if Taken(channels, user, TELEGRAM, chat, None) then
      map id | id in channels ::
        if SameKey(channels[id], user, TELEGRAM, chat) then channels[id].(enabled := true) else channels[id]
    else channels[uuid := Channel(user, TELEGRAM, chat, true)]
  }

  function ConsumeToken(db: Db, hash: string, chat: string, now: Time, uuid: Id): (Db, Result<Id, ChannelError>) {
    if !Consumable(db, hash, now) then (db, Err(InvalidLinkToken))
    else
      var t := db.tokens[hash];
      (Db(UpsertChat(db.channels, uuid, t.user, chat), db.tokens[hash := t.(usedAt := Some(now))]), Ok(t.user))
  }

  // ---------------------------------------------------------------------------------------------
  // Runs
  // ---------------------------------------------------------------------------------------------

  datatype Op =
    | Create(uuid: Id, user: Id, kind: string, address: string, enabled: bool)
    | Update(id: Id, user: Id, kind: string, address: string, enabled: bool)
    | Delete(id: Id, user: Id)
    | NewToken(user: Id, hash: string, expiresAt: Time)
    | Consume(hash: string, chat: string, now: Time, uuid: Id)

  /**
    What the services let through: normalised types and addresses, trimmed chat ids. An `Update` may
    come from a read of the channel at any earlier time, other changes in between notwithstanding.
   */
  predicate Allowed(validUrl: string -> bool, db: Db, op: Op) {
    match op
    case Create(uuid, _, kind, address, _) => uuid !in db.channels && Normal(validUrl, kind, address)
    case Update(_, _, kind, address, _) => Normal(validUrl, kind, address)
    case Consume(_, chat, _, uuid) => uuid !in db.channels && Trimmed(chat) && chat != ""
    case _ => true
  }

  function Step(db: Db, op: Op): Db {
    match op
    case Create(uuid, user, kind, address, enabled) => InsertChannel(db, uuid, Channel(user, kind, address, enabled)).0
    case Update(id, user, kind, address, enabled) => UpdateChannel(db, id, user, kind, address, enabled).0
    case Delete(id, user) => DeleteChannel(db, id, user).0
    case NewToken(user, hash, expiresAt) => InsertToken(db, user, hash, expiresAt)
    case Consume(hash, chat, now, uuid) => ConsumeToken(db, hash, chat, now, uuid).0
  }

  /** One successful consumption. */
  datatype Link = Link(hash: string, user: Id, chat: string, at: Time)

  datatype World = World(db: Db, links: seq<Link>)

  const START: World := World(Db(map[], map[]), [])

  function Next(w: World, op: Op): World {
    World(
      Step(w.db, op),
      if op.Consume? && Consumable(w.db, op.hash, op.now) then
        w.links + [Link(op.hash, w.db.tokens[op.hash].user, op.chat, op.now)]
      else w.links)
  }

  ghost function Exec(w: World, ops: seq<Op>): World
    decreases ops
  {
    if ops == [] then w else Exec(Next(w, ops[0]), ops[1..])
  }

  ghost predicate ValidRun(validUrl: string -> bool, db: Db, ops: seq<Op>)
    decreases ops
  {
    ops == [] || (Allowed(validUrl, db, ops[0]) && ValidRun(validUrl, Step(db, ops[0]), ops[1..]))
  }

  // ---------------------------------------------------------------------------------------------
  // Invariants
  // ---------------------------------------------------------------------------------------------

  ghost predicate AllNormal(validUrl: string -> bool, db: Db) {
    forall id :: id in db.channels ==> WellFormed(validUrl, db.channels[id].kind, db.channels[id].address)
  }

  ghost predicate NoTwins(db: Db) {
    forall a, b :: a in db.channels && b in db.channels && a != b ==>
      !SameKey(db.channels[a], db.channels[b].user, db.channels[b].kind, db.channels[b].address)
  }

  /** The used tokens are exactly those of the links, each linked once, before it expired, by its creator. */
  ghost predicate LinksRecorded(w: World) {
    && (forall i :: 0 <= i < |w.links| ==>
          && w.links[i].hash in w.db.tokens
          && w.db.tokens[w.links[i].hash].usedAt == Some(w.links[i].at)
          && w.links[i].at < w.db.tokens[w.links[i].hash].expiresAt
          && w.links[i].user == w.db.tokens[w.links[i].hash].user)
    && (forall i, j :: 0 <= i < j < |w.links| ==> w.links[i].hash != w.links[j].hash)
    && (forall hash :: hash in w.db.tokens && w.db.tokens[hash].usedAt.Some? ==>
          exists i :: 0 <= i < |w.links| && w.links[i].hash == hash)
  }

  lemma WellFormedInput(validUrl: string -> bool, db: Db, op: Op)
    requires Allowed(validUrl, db, op)
    ensures op.Create? || op.Update? ==> WellFormed(validUrl, op.kind, op.address)
    ensures op.Consume? ==> WellFormed(validUrl, TELEGRAM, op.chat)
  {
    if op.Create? || op.Update? {
      NormalExact(validUrl, op.kind, op.address);
    }
  }

  lemma StoresInput(validUrl: string -> bool, db: Db, op: Op)
    requires AllNormal(validUrl, db)
    requires op.Create? || op.Update? ==> WellFormed(validUrl, op.kind, op.address)
    requires op.Consume? ==> WellFormed(validUrl, TELEGRAM, op.chat)
    ensures AllNormal(validUrl, Step(db, op))
  {
  }

  lemma AllNormalKept(validUrl: string -> bool, db: Db, op: Op)
    requires AllNormal(validUrl, db) && Allowed(validUrl, db, op)
    ensures AllNormal(validUrl, Step(db, op))
  {
    WellFormedInput(validUrl, db, op);
    StoresInput(validUrl, db, op);
  }

  lemma NoTwinsKept(db: Db, op: Op)
    requires NoTwins(db)
    ensures NoTwins(Step(db, op))
  {
  }

  lemma LinksRecordedAfterConsume(w: World, op: Op)
    requires LinksRecorded(w) && op.Consume? && Consumable(w.db, op.hash, op.now)
    ensures LinksRecorded(Next(w, op))
  {
    var w' := Next(w, op);
    assert w'.links == w.links + [Link(op.hash, w.db.tokens[op.hash].user, op.chat, op.now)];
    assert w'.db.tokens == w.db.tokens[op.hash := w.db.tokens[op.hash].(usedAt := Some(op.now))];
    assert forall i :: 0 <= i < |w.links| ==> w'.links[i] == w.links[i] && w.links[i].hash != op.hash;
    forall hash | hash in w'.db.tokens && w'.db.tokens[hash].usedAt.Some?
      ensures exists i :: 0 <= i < |w'.links| && w'.links[i].hash == hash
    {
      if hash == op.hash {
        assert w'.links[|w.links|].hash == hash;
      } else {
        var i :| 0 <= i < |w.links| && w.links[i].hash == hash;
        assert w'.links[i].hash == hash;
      }
    }
  }

  /** A step that consumes no token changes no token; it may issue one, which is unused. */
  lemma OtherStepsKeepTokens(w: World, op: Op)
    requires !(op.Consume? && Consumable(w.db, op.hash, op.now))
    ensures Next(w, op).links == w.links
    ensures forall hash :: hash in w.db.tokens ==>
              hash in Step(w.db, op).tokens && Step(w.db, op).tokens[hash] == w.db.tokens[hash]
    ensures forall hash :: hash in Step(w.db, op).tokens && hash !in w.db.tokens ==>
              Step(w.db, op).tokens[hash].usedAt == None
  {
  }

  lemma LinksRecordedKept(w: World, op: Op)
    requires LinksRecorded(w)
    ensures LinksRecorded(Next(w, op))
  {
    if op.Consume? && Consumable(w.db, op.hash, op.now) {
      LinksRecordedAfterConsume(w, op);
    } else {
      OtherStepsKeepTokens(w, op);
      var w' := World(Step(w.db, op), w.links);
      assert Next(w, op) == w';
      forall hash | hash in w'.db.tokens && w'.db.tokens[hash].usedAt.Some?
        ensures exists i :: 0 <= i < |w'.links| && w'.links[i].hash == hash
      {
        assert hash in w.db.tokens;
      }
    }
  }

  lemma {:induction false} InvThroughout(validUrl: string -> bool, w: World, ops: seq<Op>)
    requires AllNormal(validUrl, w.db) && NoTwins(w.db) && LinksRecorded(w) && ValidRun(validUrl, w.db, ops)
    ensures
      var w' := Exec(w, ops);
      AllNormal(validUrl, w'.db) && NoTwins(w'.db) && LinksRecorded(w')
    decreases ops
  {
    if ops != [] {
      AllNormalKept(validUrl, w.db, ops[0]);
      NoTwinsKept(w.db, ops[0]);
      LinksRecordedKept(w, ops[0]);
      InvThroughout(validUrl, Next(w, ops[0]), ops[1..]);
    }
  }

  // ---------------------------------------------------------------------------------------------
  // Main results
  // ---------------------------------------------------------------------------------------------

  /** After any run every stored channel is normalised, and no two rows share user, type and address. */
  lemma ChannelTableInvariant(validUrl: string -> bool, ops: seq<Op>)
    requires ValidRun(validUrl, START.db, ops)
    ensures
      var db := Exec(START, ops).db;
      && (forall id :: id in db.channels ==> Normal(validUrl, db.channels[id].kind, db.channels[id].address))
      && (forall a, b :: a in db.channels && b in db.channels && a != b ==>
            !SameKey(db.channels[a], db.channels[b].user, db.channels[b].kind, db.channels[b].address))
  {
    InvThroughout(validUrl, START, ops);
    var db := Exec(START, ops).db;
    forall id | id in db.channels ensures Normal(validUrl, db.channels[id].kind, db.channels[id].address) {
      NormalExact(validUrl, db.channels[id].kind, db.channels[id].address);
    }
  }

  /** Over any run a link token is consumed at most once, before it expires, and a used token was consumed. */
  lemma TokensAreOneTime(validUrl: string -> bool, ops: seq<Op>)
    requires ValidRun(validUrl, START.db, ops)
    ensures LinksRecorded(Exec(START, ops))
  {
    InvThroughout(validUrl, START, ops);
  }

  /**
    Consuming a token succeeds iff it is unused and not expired. Then, in the same commit, the creator
    has an enabled channel for the chat, and nothing but that channel and the token changes. Otherwise
    neither table changes.
   */
  lemma ConsumptionLinksChat(db: Db, hash: string, chat: string, now: Time, uuid: Id)
    requires NoTwins(db) && uuid !in db.channels
    ensures
      var (db', r) := ConsumeToken(db, hash, chat, now, uuid);
      && (r.Ok? <==> hash in db.tokens && db.tokens[hash].usedAt == None && now < db.tokens[hash].expiresAt)
      && (r.Err? ==> db' == db)
      && (r.Ok? ==>
            && r.value == db.tokens[hash].user
            && db'.tokens == db.tokens[hash := db.tokens[hash].(usedAt := Some(now))]
            && exists id ::
                 && id in db'.channels && (id in db.channels || id == uuid)
                 && db'.channels[id] == Channel(db.tokens[hash].user, "telegram", chat, true)
                 && db'.channels - {id} == db.channels - {id})
  {
    var (db', r) := ConsumeToken(db, hash, chat, now, uuid);
    if r.Ok? {
      var user := db.tokens[hash].user;
      if Taken(db.channels, user, TELEGRAM, chat, None) {
        var id :| id in db.channels && SameKey(db.channels[id], user, TELEGRAM, chat);
        assert db'.channels - {id} == db.channels - {id};
      } else {
        assert db'.channels - {uuid} == db.channels - {uuid};
      }
    }
  }

  /**
    A token that is issued can be consumed at any time before it expires, once, and links its creator. Its hash
    is not that of another token: such a hash is refused, and nothing changes.
   */
  lemma NewTokenIsGood(db: Db, user: Id, hash: string, expiresAt: Time, chat: string, now: Time, uuid: Id)
    ensures hash in db.tokens ==> InsertToken(db, user, hash, expiresAt) == db
    ensures hash !in db.tokens ==>
              var db' := InsertToken(db, user, hash, expiresAt);
              && db'.channels == db.channels && hash in db'.tokens && db'.tokens - {hash} == db.tokens
              && ConsumeToken(db', hash, chat, now, uuid).1 ==
                 (if now < expiresAt then Ok(user) else Err(InvalidLinkToken))
              && forall later, other ::
                   now < expiresAt ==>
                     ConsumeToken(ConsumeToken(db', hash, chat, now, uuid).0, hash, other, later, uuid).1
                     == Err(InvalidLinkToken)
  {
  }

  /** A chat is linked: a token is issued and consumed in time. */
  lemma ChatIsLinked(
      validUrl: string -> bool, user: Id, hash: string, expiresAt: Time, chat: string, now: Time, uuid: Id)
    requires Trimmed(chat) && chat != "" && now < expiresAt
    ensures
      var run := [NewToken(user, hash, expiresAt), Consume(hash, chat, now, uuid)];
      && ValidRun(validUrl, START.db, run)
      && Exec(START, run).db.channels == map[uuid := Channel(user, "telegram", chat, true)]
      && Exec(START, run).links == [Link(hash, user, chat, now)]
  {
    var issue, consume := NewToken(user, hash, expiresAt), Consume(hash, chat, now, uuid);
    var w1 := Next(START, issue);
    assert [issue, consume][1..] == [consume] && [consume][1..] == [];
    assert Exec(START, [issue, consume]) == Exec(w1, [consume]) == Exec(Next(w1, consume), []);
    assert Next(w1, consume).links == [] + [Link(hash, user, chat, now)];
  }
}
