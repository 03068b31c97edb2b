/**
  The Telegram bot (internal/telegramlink/bot.go): its polling loop, and how it reads a /start
  command. A poll is an oracle that fails or returns a batch of update ids.
 */
module Bot {
  import opened Common
  import opened Text

  // ---------------------------------------------------------------------------------------------
  // Polling
  // ---------------------------------------------------------------------------------------------

  datatype Poll = Failed | Batch(ids: seq<int>)

  /** The loop over one batch: the offset moves past every update that is not behind it. */
  function OffsetAfterBatch(offset: int, ids: seq<int>): int
    decreases ids
  {
    if ids == [] then offset
    else OffsetAfterBatch(if ids[0] >= offset then WrapInt64(ids[0] + 1) else offset, ids[1..])
  }

  function IdsOf(poll: Poll): seq<int> {
    if poll.Batch? then poll.ids else []
  }

  function OffsetAfter(offset: int, polls: seq<Poll>): int
    decreases polls
  {
    if polls == [] then offset else OffsetAfter(OffsetAfterBatch(offset, IdsOf(polls[0])), polls[1..])
  }

  /** The updates handled, in order, over a run of polls. */
  function Handled(polls: seq<Poll>): seq<int> {
    if polls == [] then []
    else IdsOf(polls[0]) + Handled(polls[1..])
  }

  class Bot {
    var offset: int
    var handled: seq<int>

    constructor ()
      ensures handled == []
    {
      offset, handled := 0, [];
    }

    /** `handleUpdate`; its effects are those of `TelegramLinkService.LinkChat` and a reply. */
    method HandleUpdate(id: int)
      modifies this`handled
      ensures handled == old(handled) + [id]
    {
      handled := handled + [id];
    }

    /** The loop over the updates of one successful poll. */
    method HandleBatch(ids: seq<int>)
      modifies this
      ensures offset == OffsetAfterBatch(old(offset), ids)
      ensures handled == old(handled) + ids
    {
      var i := 0;
      while i < |ids|
        invariant 0 <= i <= |ids|
        invariant OffsetAfterBatch(offset, ids[i..]) == OffsetAfterBatch(old(offset), ids)
        invariant handled == old(handled) + ids[..i]
      {
        assert ids[i..][1..] == ids[i + 1..];
        if ids[i] >= offset {
          offset := WrapInt64(ids[i] + 1);
        }
        HandleUpdate(ids[i]);
        i := i + 1;
      }
    }

    /** Polls until the context is cancelled, after `polls`. */
    method Run(polls: seq<Poll>)
      modifies this
      ensures offset == OffsetAfter(0, polls)
      ensures handled == old(handled) + Handled(polls)
    {
      offset := 0;
      var k := 0;
      while k < |polls|
        invariant 0 <= k <= |polls|
        invariant OffsetAfter(offset, polls[k..]) == OffsetAfter(0, polls)
        invariant handled + Handled(polls[k..]) == old(handled) + Handled(polls)
      {
        assert polls[k..][1..] == polls[k + 1..];
        assert Handled(polls[k..]) == IdsOf(polls[k]) + Handled(polls[k + 1..]);
        assert handled + Handled(polls[k..]) == (handled + IdsOf(polls[k])) + Handled(polls[k + 1..]);
        if polls[k].Batch? {
          HandleBatch(polls[k].ids);
        }
        k := k + 1;
      }
    }
  }

  /**
    What the server promises: of the updates it knows, distinct ones at or above the requested
    offset, leaving out none that is smaller than one it returns. (Offset 0, which the bot does not
    send, asks for all.) Ids are positive and leave room for an offset behind them.
   */
  ghost predicate HonestBatch(known: set<int>, offset: int, ids: seq<int>) {
    && Distinct(ids)
    && (forall i :: 0 <= i < |ids| ==> ids[i] in known && offset <= ids[i])
    && (forall u, i :: u in known && 0 <= i < |ids| && offset <= u <= ids[i] ==> u in ids)
    && (forall u :: u in known ==> 0 < u < MAX_INT64)
  }

  /** `known[k]` are the updates that exist at the `k`-th poll; later ones are not behind the offset by then. */
  ghost predicate HonestRun(offset: int, polls: seq<Poll>, known: seq<set<int>>)
    requires |known| == |polls|
    decreases polls
  {
    polls == [] ||
      var offset' := OffsetAfterBatch(offset, IdsOf(polls[0]));
      && (polls[0].Batch? ==> HonestBatch(known[0], offset, polls[0].ids))
      && (|known| > 1 ==> known[0] <= known[1] && forall u :: u in known[1] && u !in known[0] ==> u >= offset')
      && HonestRun(offset', polls[1..], known[1..])
  }

  lemma {:induction false} BatchMovesPastMaximum(offset: int, ids: seq<int>)
    requires forall i :: 0 <= i < |ids| ==> ids[i] < MAX_INT64 && -MAX_INT64 <= ids[i]
    ensures OffsetAfterBatch(offset, ids) >= offset
    ensures forall i :: 0 <= i < |ids| ==> ids[i] < OffsetAfterBatch(offset, ids)
    ensures OffsetAfterBatch(offset, ids) == offset || (OffsetAfterBatch(offset, ids) - 1) in ids
    decreases ids
  {
    if ids != [] {
      BatchMovesPastMaximum(if ids[0] >= offset then WrapInt64(ids[0] + 1) else offset, ids[1..]);
    }
  }

  /** An honest batch consists of exactly the known updates between the old and the new offset. */
  lemma HonestBatchCovers(known: set<int>, offset: int, ids: seq<int>)
    requires HonestBatch(known, offset, ids)
    ensures OffsetAfterBatch(offset, ids) >= offset
    ensures forall u :: u in ids <==> u in known && offset <= u < OffsetAfterBatch(offset, ids)
  {
    BatchMovesPastMaximum(offset, ids);
    var offset' := OffsetAfterBatch(offset, ids);
    forall u | u in known && offset <= u < offset' ensures u in ids {
      var i :| 0 <= i < |ids| && ids[i] == offset' - 1;
    }
  }

  lemma DistinctConcat(a: seq<int>, b: seq<int>)
    requires Distinct(a) && Distinct(b) && forall u :: u in a ==> u !in b
    ensures Distinct(a + b)
  {
    forall i, j | 0 <= i < j < |a + b| ensures (a + b)[i] != (a + b)[j] {
      if i < |a| {
        assert a[i] in a;
        assert |a| <= j ==> b[j - |a|] in b;
      }
    }
  }

  lemma FirstPollCovers(offset: int, polls: seq<Poll>, known: seq<set<int>>)
    requires |known| == |polls| > 0 && HonestRun(offset, polls, known)
    ensures
      var offset' := OffsetAfterBatch(offset, IdsOf(polls[0]));
      && offset' >= offset && Distinct(IdsOf(polls[0]))
      && forall u :: u in IdsOf(polls[0]) <==> u in known[0] && offset <= u < offset'
  {
    if polls[0].Batch? {
      HonestBatchCovers(known[0], offset, polls[0].ids);
    }
  }

  /** Whatever is behind the offset was known when the offset passed it. */
  lemma {:induction false} NothingArrivesBehind(offset: int, polls: seq<Poll>, known: seq<set<int>>)
    requires |known| == |polls| > 0 && HonestRun(offset, polls, known)
    ensures known[0] <= known[|known| - 1]
    ensures forall u :: u in known[|known| - 1] && u < OffsetAfterBatch(offset, IdsOf(polls[0])) ==> u in known[0]
    decreases polls
  {
    if |polls| > 1 {
      var offset' := OffsetAfterBatch(offset, IdsOf(polls[0]));
      NothingArrivesBehind(offset', polls[1..], known[1..]);
      FirstPollCovers(offset', polls[1..], known[1..]);
    }
  }

  lemma LastPoll(offset: int, polls: seq<Poll>)
    requires |polls| == 1
    ensures Handled(polls) == IdsOf(polls[0])
    ensures OffsetAfter(offset, polls) == OffsetAfterBatch(offset, IdsOf(polls[0]))
  {
    assert polls[1..] == [];
    assert IdsOf(polls[0]) + [] == IdsOf(polls[0]);
  }

  /**
    Against an honest server, with failed polls anywhere in between, the offset never goes back, no
    update is handled twice, and the updates handled are exactly the known ones the offset has passed.
   */
  lemma {:induction false} EveryUpdateOnce(offset: int, polls: seq<Poll>, known: seq<set<int>>)
    requires |known| == |polls| > 0 && HonestRun(offset, polls, known)
    ensures OffsetAfter(offset, polls) >= offset
    ensures Distinct(Handled(polls))
    ensures forall u :: u in Handled(polls) <==> u in known[|known| - 1] && offset <= u < OffsetAfter(offset, polls)
    decreases polls
  {
    var ids, offset' := IdsOf(polls[0]), OffsetAfterBatch(offset, IdsOf(polls[0]));
    FirstPollCovers(offset, polls, known);
    NothingArrivesBehind(offset, polls, known);
    if |polls| == 1 {
      LastPoll(offset, polls);
    } else {
      EveryUpdateOnce(offset', polls[1..], known[1..]);
      DistinctConcat(ids, Handled(polls[1..]));
    }
  }

  // ---------------------------------------------------------------------------------------------
  // Reading /start
  // ---------------------------------------------------------------------------------------------

  function FirstWord(s: string): string {
    if s == "" || IsSpace(s[0]) then "" else [s[0]] + FirstWord(s[1..])
  }

  lemma {:induction false} FirstWordOfPair(word: string, rest: string)
    requires forall i :: 0 <= i < |word| ==> !IsSpace(word[i])
    requires rest != "" ==> IsSpace(rest[0])
    ensures FirstWord(word + rest) == word
  {
    if word != "" {
      assert (word + rest)[1..] == word[1..] + rest;
      FirstWordOfPair(word[1..], rest);
    }
  }

  lemma {:induction false} TrimLeftShortens(s: string)
    ensures |TrimLeft(s)| <= |s|
  {
    if s != "" && IsSpace(s[0]) {
      TrimLeftShortens(s[1..]);
    }
  }

  lemma {:induction false} FirstWordIsPrefix(s: string)
    ensures FirstWord(s) <= s
    ensures s != "" && !IsSpace(s[0]) ==> FirstWord(s) != ""
  {
    if s != "" && !IsSpace(s[0]) {
      FirstWordIsPrefix(s[1..]);
    }
  }

  /** `strings.Fields`. */
  function Fields(s: string): seq<string>
    decreases |s|
  {
    TrimLeftShortens(s);
    TrimLeftStarts(s);
    FirstWordIsPrefix(TrimLeft(s));
    var t := TrimLeft(s);
    if t == "" then [] else [FirstWord(t)] + Fields(t[|FirstWord(t)|..])
  }

  const START: string := "/start"
  const START_AT: string := "/start@"

  /** The token of a /start command, or "" if it has none; and whether the text is such a command. */
  function StartToken(text: string): (string, bool) {
    var fields := Fields(TrimSpace(text));
    if fields == [] then ("", false)
    else if fields[0] != START && !(START_AT <= fields[0]) then ("", false)
    else if |fields| < 2 then ("", true)
    else (fields[1], true)
  }

  ghost predicate IsWord(s: string) {
    s != "" && forall i :: 0 <= i < |s| ==> !IsSpace(s[i])
  }

  lemma FieldsHead(word: string, rest: string)
    requires IsWord(word) && (rest != "" ==> IsSpace(rest[0]))
    ensures Fields(word + rest) == [word] + Fields(rest)
  {
    FirstWordOfPair(word, rest);
    assert TrimLeft(word + rest) == word + rest;
    assert (word + rest)[|word|..] == rest;
  }

  lemma {:induction false} TrimLeftSkips(left: string, s: string)
    requires Blank(left)
    ensures TrimLeft(left + s) == TrimLeft(s)
  {
    if left == "" {
      assert left + s == s;
    } else {
      assert (left + s)[1..] == left[1..] + s;
      TrimLeftSkips(left[1..], s);
    }
  }

  lemma FieldsSkip(left: string, s: string)
    requires Blank(left)
    ensures Fields(left + s) == Fields(s)
  {
    TrimLeftSkips(left, s);
  }

  lemma FieldsOfBlank(s: string)
    requires Blank(s)
    ensures Fields(s) == []
  {
    FieldsSkip(s, "");
    assert s + "" == s;
  }

  lemma {:induction false} FirstWordIgnores(t: string, right: string)
    requires Blank(right)
    ensures FirstWord(t + right) == FirstWord(t)
  {
    if t == "" {
      assert t + right == right;
    } else if !IsSpace(t[0]) {
      assert (t + right)[1..] == t[1..] + right;
      FirstWordIgnores(t[1..], right);
    }
  }

  lemma {:induction false} TrimLeftIgnores(s: string, right: string)
    requires TrimLeft(s) != ""
    ensures TrimLeft(s + right) == TrimLeft(s) + right
  {
    if s != "" && IsSpace(s[0]) {
      assert (s + right)[1..] == s[1..] + right;
      TrimLeftIgnores(s[1..], right);
    }
  }

  /** White space at the end makes no field. */
  lemma {:induction false} FieldsIgnore(s: string, right: string)
    requires Blank(right)
    ensures Fields(s + right) == Fields(s)
    decreases |s|
  {
    var t := TrimLeft(s);
    if t == "" {
      var left := TrimLeftSplits(s);
      assert s == left + "" == left;
      FieldsSkip(s, right);
      FieldsOfBlank(right);
    } else {
      TrimLeftShortens(s);
      TrimLeftStarts(s);
      FirstWordIsPrefix(t);
      TrimLeftIgnores(s, right);
      FirstWordIgnores(t, right);
      var n := |FirstWord(t)|;
      assert (t + right)[n..] == t[n..] + right;
      FieldsIgnore(t[n..], right);
    }
  }

  lemma FieldsOfTrimmed(s: string)
    ensures Fields(TrimSpace(s)) == Fields(s)
  {
    var left, right := TrimSpaceSplits(s);
    assert s == left + (TrimSpace(s) + right);
    FieldsSkip(left, TrimSpace(s) + right);
    FieldsIgnore(TrimSpace(s), right);
  }

  /** "/start", or "/start@" followed by the name of a bot. */
  ghost predicate IsCommand(word: string) {
    word == "/start" || "/start@" <= word
  }

  /** A text without words, or whose first word is another one, is no command. */
  lemma NotACommand(left: string, word: string, rest: string)
    requires Blank(left)
    requires word == rest == "" || (IsWord(word) && (rest != "" ==> IsSpace(rest[0])) && !IsCommand(word))
    ensures StartToken(left + word + rest) == ("", false)
  {
    var text := left + word + rest;
    FieldsOfTrimmed(text);
    assert text == left + (word + rest);
    FieldsSkip(left, word + rest);
    if word == "" {
      FieldsOfBlank("");
    } else {
      FieldsHead(word, rest);
    }
  }

  /** A command alone has no token. */
  lemma BareCommand(left: string, command: string, right: string)
    requires Blank(left) && Blank(right) && IsWord(command) && IsCommand(command)
    ensures StartToken(left + command + right) == ("", true)
  {
    var text := left + command + right;
    FieldsOfTrimmed(text);
    assert text == left + (command + right);
    FieldsSkip(left, command + right);
    FieldsHead(command, right);
    FieldsOfBlank(right);
  }

  /** The token of a command is its second word; whatever follows is ignored. */
  lemma CommandWithToken(left: string, command: string, gap: string, token: string, rest: string)
    requires Blank(left) && IsWord(command) && IsCommand(command)
    requires gap != "" && Blank(gap) && IsWord(token) && (rest != "" ==> IsSpace(rest[0]))
    ensures StartToken(left + command + gap + token + rest) == (token, true)
  {
    var text := left + command + gap + token + rest;
    FieldsOfTrimmed(text);
    assert text == left + (command + (gap + (token + rest)));
    FieldsSkip(left, command + (gap + (token + rest)));
    FieldsHead(command, gap + (token + rest));
    FieldsSkip(gap, token + rest);
    FieldsHead(token, rest);
  }

  /**
    Opening a deep link sends "/start", with the bot's name in a group, a space and the token: the
    bot reads back exactly the token the link was made with.
   */
  lemma LinkTokenRoundTrip(command: string, token: string)
    requires IsWord(command) && IsWord(token)
    requires command == START || START_AT <= command
    ensures StartToken(command + " " + token) == (token, true)
    ensures TrimSpace(token) == token
  {
    CommandWithToken("", command, " ", token, "");
    assert "" + command + " " + token + "" == command + " " + token;
    TrimSpaceExact(token);
  }
}
