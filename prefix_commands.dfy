/**
 * The bot process's command recogniser. Slash-command interactions and chat
 * messages that start with the prefix `!` are turned into a `(user, command)`
 * log call; chat messages also go on to the command dispatcher unless they come
 * from a bot or the recogniser raised.
 */
module PrefixCommands {
  import opened Wrappers
  import opened Records

  /** The command prefix of the bot. */
  const Prefix: string := "!"

  /**
   * Python's notion of whitespace (`str.isspace`, which `str.split()` with no
   * argument splits on): the ASCII controls 9-13 and 28-31, the space, and the
   * Unicode separators U+0085, U+00A0, U+1680, U+2000-U+200A, U+2028, U+2029,
   * U+202F, U+205F and U+3000.
   */
  predicate IsSpace(c: char)
  {
    var n := c as int;
    (9 <= n <= 13) || (28 <= n <= 32) || n == 0x85 || n == 0xA0 || n == 0x1680 ||
    (0x2000 <= n <= 0x200A) || n == 0x2028 || n == 0x2029 || n == 0x202F ||
    n == 0x205F || n == 0x3000
  }

  predicate AllSpace(s: string)
  {
    forall i :: 0 <= i < |s| ==> IsSpace(s[i])
  }

  predicate NoSpace(s: string)
  {
    forall i :: 0 <= i < |s| ==> !IsSpace(s[i])
  }

  /** The first index at or after `i` that does not hold whitespace, or `|s|`. */
  function SkipSpace(s: string, i: nat): (j: nat)
    requires i <= |s|
    ensures i <= j <= |s|
    ensures forall k :: i <= k < j ==> IsSpace(s[k])
    ensures j < |s| ==> !IsSpace(s[j])
    decreases |s| - i
  {
    if i < |s| && IsSpace(s[i]) then SkipSpace(s, i + 1) else i
  }

  /** The first index at or after `i` that holds whitespace, or `|s|`. */
  function SkipWord(s: string, i: nat): (j: nat)
    requires i <= |s|
    ensures i <= j <= |s|
    ensures forall k :: i <= k < j ==> !IsSpace(s[k])
    ensures j < |s| ==> IsSpace(s[j])
    decreases |s| - i
  {
    if i < |s| && !IsSpace(s[i]) then SkipWord(s, i + 1) else i
  }

  /** The words of `s[i..]`, scanning as CPython does: skip whitespace, take a word, repeat. */
  function SplitFrom(s: string, i: nat): seq<string>
    requires i <= |s|
    decreases |s| - i
  {
    var b := SkipSpace(s, i);
    if b == |s| then []
    else
      var e := SkipWord(s, b);
      [s[b..e]] + SplitFrom(s, e)
  }

  /**
   * Python's `s.split()`: the maximal whitespace-free runs of `s`, in order.
   * Runs of whitespace count as one separator, and leading or trailing
   * whitespace yields no empty word.
   */
  function Split(s: string): seq<string>
  {
    SplitFrom(s, 0)
  }

  /** A word of `split()`: non-empty and free of whitespace. */
  predicate IsWord(w: string)
  {
    w != [] && NoSpace(w)
  }

  /** `split()` finds no word exactly when the text is all whitespace. */
  lemma SplitEmpty(s: string)
    ensures Split(s) == [] <==> AllSpace(s)
  {
  }

  lemma {:induction false} SplitFromWords(s: string, i: nat)
    requires i <= |s|
    ensures forall k :: 0 <= k < |SplitFrom(s, i)| ==> IsWord(SplitFrom(s, i)[k])
    decreases |s| - i
  {
    var b := SkipSpace(s, i);
    if b < |s| {
      var e := SkipWord(s, b);
      var w := s[b..e];
      assert IsWord(w) by {
        assert w[0] == s[b];
        forall k | 0 <= k < |w| ensures !IsSpace(w[k]) { assert w[k] == s[b + k]; }
      }
      SplitFromWords(s, e);
      var tail := SplitFrom(s, e);
      var words := SplitFrom(s, i);
      assert words == [w] + tail;
      forall k | 0 <= k < |words|
        ensures IsWord(words[k])
      {
        if k > 0 {
          assert words[k] == tail[k - 1];
        }
      }
    }
  }

  /** Every word `split()` returns is non-empty and holds no whitespace. */
  lemma SplitWords(s: string)
    ensures forall k :: 0 <= k < |Split(s)| ==> IsWord(Split(s)[k])
  {
    SplitFromWords(s, 0);
  }

  /** The words of a list laid end to end. */
  function Concat(words: seq<string>): string
  {
    if words == [] then [] else words[0] + Concat(words[1..])
  }

  /** `s` with every whitespace character deleted. */
  function RemoveSpace(s: string): string
  {
    if s == [] then []
    else if IsSpace(s[0]) then RemoveSpace(s[1..])
    else [s[0]] + RemoveSpace(s[1..])
  }

  /** A stretch of whitespace holds no text. */
  lemma {:induction false} RemoveSpaceSkip(s: string, i: nat, j: nat)
    requires i <= j <= |s|
    requires forall k :: i <= k < j ==> IsSpace(s[k])
    ensures RemoveSpace(s[i..]) == RemoveSpace(s[j..])
    decreases j - i
  {
    if i < j {
      assert s[i..][1..] == s[i + 1..];
      RemoveSpaceSkip(s, i + 1, j);
    }
  }

  /** A whitespace-free stretch is kept whole. */
  lemma {:induction false} RemoveSpaceKeep(s: string, i: nat, j: nat)
    requires i <= j <= |s|
    requires forall k :: i <= k < j ==> !IsSpace(s[k])
    ensures RemoveSpace(s[i..]) == s[i..j] + RemoveSpace(s[j..])
    decreases j - i
  {
    if i < j {
      assert s[i..][1..] == s[i + 1..];
      RemoveSpaceKeep(s, i + 1, j);
      assert s[i..j] == [s[i]] + s[i + 1..j];
    } else {
      assert s[i..j] == [];
    }
  }

  lemma {:induction false} SplitFromKeepsText(s: string, i: nat)
    requires i <= |s|
    ensures Concat(SplitFrom(s, i)) == RemoveSpace(s[i..])
    decreases |s| - i
  {
    var b := SkipSpace(s, i);
    RemoveSpaceSkip(s, i, b);
    if b == |s| {
      assert s[b..] == [];
    } else {
      var e := SkipWord(s, b);
      RemoveSpaceKeep(s, b, e);
      SplitFromKeepsText(s, e);
      var words := [s[b..e]] + SplitFrom(s, e);
      assert words[0] == s[b..e] && words[1..] == SplitFrom(s, e);
    }
  }

  /**
   * `split()` loses only whitespace: laid end to end, its words are the
   * non-whitespace characters of `s`, in order.
   */
  lemma SplitKeepsText(s: string)
    ensures Concat(Split(s)) == RemoveSpace(s)
  {
    SplitFromKeepsText(s, 0);
    assert s[0..] == s;
  }

  /**
   * Reference definition of "the first word of `s` is `w`, starting at `i`":
   * only whitespace before `i`, then the non-empty whitespace-free `w`, then the
   * end of `s` or a whitespace character.
   */
  predicate FirstWordAt(s: string, i: nat, w: string)
  {
    i + |w| <= |s| &&
    (forall k :: 0 <= k < i ==> IsSpace(s[k])) &&
    IsWord(w) && s[i..i + |w|] == w &&
    (i + |w| == |s| || IsSpace(s[i + |w|]))
  }

  /** The first word `split()` returns is the first maximal whitespace-free run, and that run is unique. */
  lemma SplitFirstWord(s: string, i: nat, w: string)
    requires FirstWordAt(s, i, w)
    ensures Split(s) != [] && Split(s)[0] == w
  {
    var b := SkipSpace(s, 0);
    assert !IsSpace(s[i]) by { assert s[i] == w[0]; }
    assert b == i;
    var e := SkipWord(s, b);
    assert forall k :: i <= k < i + |w| ==> !IsSpace(s[k]) by {
      forall k | i <= k < i + |w| ensures !IsSpace(s[k]) { assert s[k] == w[k - i]; }
    }
    assert e == i + |w|;
  }

  /** Conversely, whenever `split()` finds a word, it is the first word of `s` in the sense above. */
  lemma SplitFirstWordAt(s: string)
    requires Split(s) != []
    ensures FirstWordAt(s, SkipSpace(s, 0), Split(s)[0])
  {
  }

  /** A chat message as `on_message` sees it. */
  datatype Message = Message(author: Author, content: string)

  /** The kinds of interaction Discord delivers (discord.py's `InteractionType`). */
  datatype InteractionType = Ping | ApplicationCommand | Component | Autocomplete | ModalSubmit

  /** An interaction as `on_interaction` sees it; `data` holds its string-valued payload fields. */
  datatype Interaction = Interaction(kind: InteractionType, user: Author, data: map<string, string>)

  /** A call `send_log(user, cmd)`. */
  datatype LogCall = LogCall(user: string, command: string)

  /** The exception that escapes a handler: indexing the empty list `split()` returned. */
  datatype PyError = IndexError

  predicate StartsWithPrefix(s: string)
  {
    |Prefix| <= |s| && s[..|Prefix|] == Prefix
  }

  /**
   * The logging decision of `on_message`: `Success(None)` when no log call is
   * made, `Success(Some(call))` for the call made, `Failure(IndexError)` when
   * the message is the prefix followed by nothing but whitespace, so that
   * `split()[0]` raises.
   */
  function OnMessage(m: Message): (r: Result<Option<LogCall>, PyError>)
    ensures m.author.bot ==> r == Success(None)
    ensures !m.author.bot && !StartsWithPrefix(m.content) ==> r == Success(None)
    ensures r.Failure? <==>
      !m.author.bot && StartsWithPrefix(m.content) && AllSpace(m.content[|Prefix|..])
    ensures !m.author.bot && StartsWithPrefix(m.content) && !AllSpace(m.content[|Prefix|..]) ==>
      r == Success(Some(LogCall(UserTag(m.author), Split(m.content[|Prefix|..])[0])))
    ensures r.Success? && r.value.Some? ==>
      r.value.value.user == UserTag(m.author) &&
      IsWord(r.value.value.command)
  {
    if m.author.bot then Success(None)
    else if StartsWithPrefix(m.content) then
      var rest := m.content[|Prefix|..];
      var words := Split(rest);
      SplitEmpty(rest);
      SplitWords(rest);
      if words == [] then Failure(IndexError)
      else Success(Some(LogCall(UserTag(m.author), words[0])))
    else Success(None)
  }

  /**
   * Whether `on_message` reaches `bot.process_commands(message)`: not for a bot's
   * message (early return), and not when the prefix is followed by no word
   * (the exception leaves the handler first).
   */
  predicate ReachesProcessCommands(m: Message)
  {
    !m.author.bot && !(StartsWithPrefix(m.content) && Split(m.content[|Prefix|..]) == [])
  }

  /** The dispatcher is reached exactly when the handler neither returned early nor raised. */
  lemma ProcessCommandsReached(m: Message)
    ensures ReachesProcessCommands(m) <==> !m.author.bot && OnMessage(m).Success?
    ensures ReachesProcessCommands(m) <==>
      !m.author.bot && (!StartsWithPrefix(m.content) || !AllSpace(m.content[|Prefix|..]))
  {
  }

  /** A message that is not from a bot and does not start with the prefix is not logged but is dispatched. */
  lemma PlainMessageDispatched(m: Message)
    requires !m.author.bot && !StartsWithPrefix(m.content)
    ensures OnMessage(m) == Success(None) && ReachesProcessCommands(m)
  {
  }

  /**
   * For `PREFIX + rest` from a person, the logged command is the first maximal
   * whitespace-free run of `rest`, under the `name#discriminator` label.
   */
  lemma PrefixMessageLogsFirstWord(a: Author, rest: string, i: nat, w: string)
    requires !a.bot && FirstWordAt(rest, i, w)
    ensures OnMessage(Message(a, Prefix + rest)) == Success(Some(LogCall(UserTag(a), w)))
    ensures ReachesProcessCommands(Message(a, Prefix + rest))
  {
    var m := Message(a, Prefix + rest);
    assert m.content[..|Prefix|] == Prefix;
    assert m.content[|Prefix|..] == rest;
    SplitFirstWord(rest, i, w);
  }

  /** `"!ping extra args"` logs the command `ping`. */
  lemma PingWithArguments(a: Author)
    requires !a.bot
    ensures OnMessage(Message(a, "!ping extra args")) == Success(Some(LogCall(UserTag(a), "ping")))
  {
    var rest := "ping extra args";
    assert Prefix + rest == "!ping extra args";
    assert rest[..0] == [] && rest[0..4] == "ping";
    PrefixMessageLogsFirstWord(a, rest, 0, "ping");
  }

  /** `"!  ping"` logs `ping` as well: the whitespace after the prefix is skipped. */
  lemma PingAfterSpaces(a: Author)
    requires !a.bot
    ensures OnMessage(Message(a, "!  ping")) == Success(Some(LogCall(UserTag(a), "ping")))
  {
    var rest := "  ping";
    assert Prefix + rest == "!  ping";
    assert rest[..2] == "  " && rest[2..6] == "ping";
    PrefixMessageLogsFirstWord(a, rest, 2, "ping");
  }

  /** A bare `"!"` or `"!   "` raises: nothing is logged and the dispatcher is not reached. */
  lemma BarePrefixRaises(a: Author, pad: string)
    requires !a.bot && AllSpace(pad)
    ensures OnMessage(Message(a, Prefix + pad)) == Failure(IndexError)
    ensures !ReachesProcessCommands(Message(a, Prefix + pad))
  {
  }

  /**
   * The logging decision of `on_interaction`: only application (slash) commands
   * are logged, under `name#discriminator`, with the command name taken from
   * the payload's `name` field, or the empty string when it has none.
   */
  function OnInteraction(i: Interaction): (r: Option<LogCall>)
    ensures r.Some? <==> i.kind == ApplicationCommand
    ensures r.Some? ==> r.value.user == UserTag(i.user)
    ensures r.Some? && "name" in i.data ==> r.value.command == i.data["name"]
    ensures r.Some? && "name" !in i.data ==> r.value.command == ""
  {
    if i.kind == ApplicationCommand then
      var raw := if "name" in i.data then i.data["name"] else "";
      Some(LogCall(UserTag(i.user), raw))
    else None
  }

  /**
   * The record `send_log` posts: exactly the three fields, with the user and
   * command passed through unchanged. Building it cannot fail, and the post
   * itself swallows every error, so a log call never raises.
   */
  function SendLog(call: LogCall, now: string): (e: Entry)
    ensures e.time == now && e.user == call.user && e.command == call.command
  {
    Entry(now, call.user, call.command)
  }
}
