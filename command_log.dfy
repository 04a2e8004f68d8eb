/**
 * The web process's in-memory command log: a module-level list of the most recent
 * command records, oldest first, capped at ten entries. Both command handlers
 * append to it and evict the oldest record when it grows past the cap; the
 * `/logs` endpoint returns it wrapped as `{"logs": logs}`.
 */
module CommandLog {
  import opened Wrappers
  import opened Records

  /** The most records the log keeps. */
  const Capacity: nat := 10

  function Min(a: nat, b: nat): nat
  {
    if a <= b then a else b
  }

  /**
   * Reference definition of the log: the last `min(|h|, Capacity)` records of the
   * whole append history `h`, oldest first.
   */
  function Window(h: seq<Entry>): (w: seq<Entry>)
    ensures |w| == Min(|h|, Capacity)
    ensures w == h[|h| - |w|..]
  {
    if |h| <= Capacity then h else h[|h| - Capacity..]
  }

  /** One append step of the handlers: add `e` at the tail, then drop the head if the list is over the cap. */
  function AppendEvict(log: seq<Entry>, e: Entry): seq<Entry>
  {
    var grown := log + [e];
    if |grown| > Capacity then grown[1..] else grown
  }

  /** Appending to a log within the cap leaves it within the cap. */
  lemma AppendKeepsBound(log: seq<Entry>, e: Entry)
    requires |log| <= Capacity
    ensures |AppendEvict(log, e)| <= Capacity
  {
  }

  /** Below the cap nothing is evicted: the new record is simply added at the tail. */
  lemma AppendBelowCapacity(log: seq<Entry>, e: Entry)
    requires |log| < Capacity
    ensures AppendEvict(log, e) == log + [e]
  {
  }

  /** At the cap exactly the oldest record is evicted and the rest keep their order. */
  lemma AppendAtCapacity(log: seq<Entry>, e: Entry)
    requires |log| == Capacity
    ensures AppendEvict(log, e) == log[1..] + [e]
    ensures |AppendEvict(log, e)| == Capacity
  {
  }

  /**
   * The appended record is always last, and the records before it are the newest
   * ones of the old log, in their old order.
   */
  lemma AppendLastAndOrder(log: seq<Entry>, e: Entry)
    ensures var r := AppendEvict(log, e);
      |r| >= 1 && r[|r| - 1] == e && r[..|r| - 1] == log[|log| - (|r| - 1)..]
  {
  }

  /** One append step keeps the log equal to the window of the history. */
  lemma WindowAppend(h: seq<Entry>, e: Entry)
    ensures Window(h + [e]) == AppendEvict(Window(h), e)
  {
    var h' := h + [e];
    if |h| >= Capacity {
      assert (Window(h) + [e])[1..] == h'[|h'| - Capacity..];
    }
  }

  /** The log obtained by appending the records of `h` one by one to an empty log. */
  function Replay(h: seq<Entry>): seq<Entry>
  {
    if h == [] then [] else AppendEvict(Replay(h[..|h| - 1]), h[|h| - 1])
  }

  /**
   * After appending a sequence of records to an empty log, the log holds the
   * last `min(|h|, Capacity)` of them, oldest first.
   */
  lemma {:induction false} ReplayIsWindow(h: seq<Entry>)
    ensures Replay(h) == Window(h)
  {
    if h != [] {
      var init := h[..|h| - 1];
      ReplayIsWindow(init);
      WindowAppend(init, h[|h| - 1]);
      assert init + [h[|h| - 1]] == h;
    }
  }

  /** The user label of the web process: `name#discriminator (ID:id)`. */
  function ApiUser(a: Author): string
  {
    UserTag(a) + " (ID:" + Decimal(a.id) + ")"
  }

  /** The record `on_command` builds: the whole message text is the command. */
  function CommandEntry(a: Author, content: string, now: string): (e: Entry)
    ensures e.command == content && e.time == now && e.user == ApiUser(a)
  {
    Entry(now, ApiUser(a), content)
  }

  /** The record the `/ping` slash command builds: the command is the literal `/ping`. */
  function PingEntry(a: Author, now: string): (e: Entry)
    ensures e.command == "/ping" && e.time == now && e.user == ApiUser(a)
  {
    Entry(now, ApiUser(a), "/ping")
  }

  /** The longest run of digits at the end of `s`. */
  function TrailingDigits(s: string): (d: string)
    ensures |d| <= |s| && d == s[|s| - |d|..] && AllDigits(d)
    ensures |d| < |s| ==> !IsDigit(s[|s| - |d| - 1])
  {
    if s != [] && IsDigit(s[|s| - 1]) then TrailingDigits(s[..|s| - 1]) + [s[|s| - 1]] else []
  }

  /** The account id carried by a web-process user label, if it has the `(ID:digits)` suffix. */
  function LabelId(u: string): Option<nat>
  {
    if |u| == 0 || u[|u| - 1] != ')' then None
    else
      var body := u[..|u| - 1];
      var d := TrailingDigits(body);
      var head := body[..|body| - |d|];
      if d != [] && |head| >= 4 && head[|head| - 4..] == "(ID:" then Some(DigitsValue(d)) else None
  }

  lemma {:induction false} TrailingDigitsAfter(p: string, d: string)
    requires AllDigits(d)
    requires p == [] || !IsDigit(p[|p| - 1])
    ensures TrailingDigits(p + d) == d
    decreases |d|
  {
    if d == [] {
      assert p + d == p;
    } else {
      var s := p + d;
      var init, last := d[..|d| - 1], d[|d| - 1];
      assert AllDigits(init) by {
        forall i | 0 <= i < |init| ensures IsDigit(init[i]) { assert init[i] == d[i]; }
      }
      assert s[|s| - 1] == last && IsDigit(last);
      assert s[..|s| - 1] == p + init;
      TrailingDigitsAfter(p, init);
      assert TrailingDigits(s) == TrailingDigits(p + init) + [last];
      assert init + [last] == d;
    }
  }

  lemma LabelIdOf(p: string, d: string)
    requires |p| >= 4 && p[|p| - 4..] == "(ID:"
    requires d != [] && AllDigits(d)
    ensures LabelId(p + d + ")") == Some(DigitsValue(d))
  {
    var u := p + d + ")";
    var body := u[..|u| - 1];
    assert body == p + d;
    assert p[|p| - 1] == ':';
    TrailingDigitsAfter(p, d);
    assert body[..|body| - |d|] == p;
  }

  /**
   * The label the web process stores keeps the account id recoverable: two
   * accounts with the same `name#discriminator` but different ids still get
   * different labels.
   */
  lemma ApiUserCarriesId(a: Author)
    ensures LabelId(ApiUser(a)) == Some(a.id)
  {
    var p := UserTag(a) + " (ID:";
    assert p[|p| - 4..] == "(ID:";
    LabelIdOf(p, Decimal(a.id));
    DecimalRoundTrip(a.id);
  }

  /** Accounts that differ in id get different labels in the web process's log. */
  lemma ApiUserDistinguishesIds(a: Author, b: Author)
    requires ApiUser(a) == ApiUser(b)
    ensures a.id == b.id
  {
    ApiUserCarriesId(a);
    ApiUserCarriesId(b);
  }

  /** The label of the web process extends the bot process's `name#discriminator` label. */
  lemma ApiUserExtendsTag(a: Author)
    ensures |UserTag(a)| < |ApiUser(a)| && ApiUser(a)[..|UserTag(a)|] == UserTag(a)
  {
  }

  /**
   * The module-level `logs` list of the web process. `logs` is the list itself;
   * `history` is every record ever appended, kept for the specification only.
   */
  class LogBuffer {
    var logs: seq<Entry>
    ghost var history: seq<Entry>

    /** The list always holds the last `Capacity` records appended, oldest first. */
    ghost predicate Valid()
      reads this
    {
      logs == Window(history)
    }

    /** The list as the module starts it: empty. */
    constructor ()
      ensures Valid() && logs == [] && history == []
    {
      logs := [];
      history := [];
    }

    /** `logs.append(entry)`, then `logs.pop(0)` when the list holds more than ten. */
    method Append(e: Entry)
      requires Valid()
      modifies this
      ensures Valid()
      ensures history == old(history) + [e]
      ensures logs == AppendEvict(old(logs), e)
      ensures |logs| <= Capacity && logs[|logs| - 1] == e
    {
      logs := logs + [e];
      if |logs| > Capacity {
        logs := logs[1..];
      }
      WindowAppend(history, e);
      history := history + [e];
    }

    /** The `on_command` handler: logs the full message text under the author's label. */
    method OnCommand(author: Author, content: string, now: string)
      requires Valid()
      modifies this
      ensures Valid()
      ensures history == old(history) + [CommandEntry(author, content, now)]
      ensures logs == AppendEvict(old(logs), CommandEntry(author, content, now))
    {
      var entry := CommandEntry(author, content, now);
      Append(entry);
    }

    /** The `/ping` slash command: logs the literal command `/ping` under the user's label. */
    method Ping(user: Author, now: string)
      requires Valid()
      modifies this
      ensures Valid()
      ensures history == old(history) + [PingEntry(user, now)]
      ensures logs == AppendEvict(old(logs), PingEntry(user, now))
    {
      var entry := PingEntry(user, now);
      Append(entry);
    }

    /** `GET /logs`: the list as it is, oldest first; reading it changes nothing. */
    method Snapshot() returns (r: seq<Entry>)
      requires Valid()
      ensures r == logs
      ensures r == Window(history) && |r| <= Capacity
    {
      r := logs;
    }
  }
}
