/**
 * The per-state registry of transitors and the precedence procedure that
 * picks the next state id for a message. Modelled on state.go.
 */
module States {
  import opened Wrappers
  import opened TelegramTypes

  /** A state id; "" is the initial state. */
  type StateId = string
  const InitialState: StateId := ""

  /** The dynamic value held in an interface{}: Go's nil, or some value the bot stores. */
  type Payload(==)
  datatype Data = NilData | Boxed(payload: Payload)

  /**
   * The errors the core produces. `Raised` stands for any error returned by
   * user code: a transitor, an enter or leave action, or the storage.
   */
  datatype Error =
    | ErrNoMatch
    | ErrStateNotFound
    | ErrStateInUse(id: StateId)
    | ErrCannotLoad(id: StateId, user: string)
    | ErrCannotLoadNext(id: StateId, user: string)
    | ErrFuelExhausted
    | Raised(reason: string)

  /** What a transitor or an action can observe of the state it is handed. */
  datatype Snapshot = Snapshot(
    data: Data,
    user: Option<Recipient>,
    id: StateId,
    chain: Option<StateId>,
    retransit: bool)

  /** A transitor's answer: the next state id, and nil (None) or an error. */
  datatype Verdict = Verdict(next: StateId, err: Option<Error>)

  /** Transitors are side-effect free: they only look at the message and the state. */
  type Transitor = (Message, Snapshot) -> Verdict

  /** What transitors.test and doTest answer when nothing was tried. */
  const NoMatch: Verdict := Verdict("", Some(ErrNoMatch))

  /** The transitor lists of one state, as values. */
  datatype Tables = Tables(
    forward: seq<Transitor>,
    reply: seq<Transitor>,
    types: map<MessageType, seq<Transitor>>,
    command: map<string, seq<Transitor>>,
    fallback: seq<Transitor>)

  // ---------------------------------------------------------------------------
  // transitors.test: first success in registration order
  // ---------------------------------------------------------------------------

  /**
   * transitors.test: the first transitor that succeeds decides; when none
   * does, the last one's answer stands; an empty list answers NoMatch.
   */
  function FirstSuccess(ts: seq<Transitor>, msg: Message, s: Snapshot): (v: Verdict)
    ensures |ts| == 0 ==> v == NoMatch
    ensures v.err.None? ==> exists j :: 0 <= j < |ts| && ts[j](msg, s) == v
    decreases |ts|
  {
    if |ts| == 0 then NoMatch
    else
      var v0 := ts[0](msg, s);
      if v0.err.None? || |ts| == 1 then v0
      else
        var v := FirstSuccess(ts[1..], msg, s);
        assert v.err.None? ==> exists j :: 0 <= j < |ts| - 1 && ts[1..][j](msg, s) == v;
        v
  }

  /** Handlers that failed are skipped: the answer is that of the rest of the list. */
  lemma {:induction false} FirstSuccessSkipsFailures(ts: seq<Transitor>, msg: Message, s: Snapshot, i: nat)
    requires i < |ts|
    requires forall j :: 0 <= j < i ==> ts[j](msg, s).err.Some?
    ensures FirstSuccess(ts, msg, s) == FirstSuccess(ts[i..], msg, s)
    decreases i
  {
    if i > 0 {
      assert ts[1..][i-1..] == ts[i..];
      FirstSuccessSkipsFailures(ts[1..], msg, s, i - 1);
    }
  }

  /** The earliest succeeding transitor is the one whose answer is returned. */
  lemma FirstSuccessPicksFirst(ts: seq<Transitor>, msg: Message, s: Snapshot, i: nat)
    requires i < |ts| && ts[i](msg, s).err.None?
    requires forall j :: 0 <= j < i ==> ts[j](msg, s).err.Some?
    ensures FirstSuccess(ts, msg, s) == ts[i](msg, s)
  {
    FirstSuccessSkipsFailures(ts, msg, s, i);
  }

  /** When every transitor fails, the last one's verdict (not ErrNoMatch) is returned. */
  lemma FirstSuccessAllFail(ts: seq<Transitor>, msg: Message, s: Snapshot)
    requires |ts| > 0
    requires forall j :: 0 <= j < |ts| ==> ts[j](msg, s).err.Some?
    ensures FirstSuccess(ts, msg, s) == ts[|ts| - 1](msg, s)
  {
    FirstSuccessSkipsFailures(ts, msg, s, |ts| - 1);
  }

  /** transitors.test: tries the handlers in registration order. */
  method TestTransitors(ts: seq<Transitor>, msg: Message, s: Snapshot) returns (v: Verdict)
    ensures v == FirstSuccess(ts, msg, s)
  {
    v := NoMatch;
    var i := 0;
    while i < |ts|
      invariant 0 <= i <= |ts|
      invariant forall j :: 0 <= j < i ==> ts[j](msg, s).err.Some?
      invariant i == 0 ==> v == NoMatch
      invariant i > 0 ==> v == ts[i - 1](msg, s)
    {
      v := ts[i](msg, s);
      if v.err.None? {
        FirstSuccessPicksFirst(ts, msg, s, i);
        return;
      }
      i := i + 1;
    }
    if |ts| > 0 {
      FirstSuccessAllFail(ts, msg, s);
    }
  }

  // ---------------------------------------------------------------------------
  // Splitting a command off a text: ^(\S+)(\s*.*)?$
  // ---------------------------------------------------------------------------

  /** RE2's \s: tab, newline, form feed, carriage return and space. */
  predicate IsSpace(c: char) {
    c == ' ' || c == '\t' || c == '\n' || c == '\r' || c as int == 0x0C
  }

  /** Length of the longest prefix of `s` without \s characters. */
  function TokenLength(s: string): (n: nat)
    ensures n <= |s|
    ensures forall i :: 0 <= i < n ==> !IsSpace(s[i])
    ensures n == |s| || IsSpace(s[n])
  {
    if |s| == 0 || IsSpace(s[0]) then 0 else 1 + TokenLength(s[1..])
  }

  /** Length of the longest prefix of `s` made of \s characters. */
  function SpaceLength(s: string): (n: nat)
    ensures n <= |s|
    ensures forall i :: 0 <= i < n ==> IsSpace(s[i])
    ensures n == |s| || !IsSpace(s[n])
  {
    if |s| == 0 || !IsSpace(s[0]) then 0 else 1 + SpaceLength(s[1..])
  }

  /**
   * The language of ^(\S+)(\s*.*)?$ with its first group: `text` is a
   * non-empty run of non-space characters `g1`, then spaces, then a tail
   * without a newline (RE2's `.` does not match '\n').
   */
  ghost predicate CommandParse(text: string, g1: string, sep: string, tail: string) {
    text == g1 + sep + tail
    && |g1| >= 1
    && (forall i :: 0 <= i < |g1| ==> !IsSpace(g1[i]))
    && (forall i :: 0 <= i < |sep| ==> IsSpace(sep[i]))
    && (forall i :: 0 <= i < |tail| ==> tail[i] != '\n')
  }

  /** The first submatch of the command regex, or None when the text does not match. */
  function SplitCommand(text: string): (r: Option<string>)
    ensures r.Some? ==> 1 <= |r.value| <= |text| && r.value == text[..|r.value|]
    ensures r.Some? ==> forall i :: 0 <= i < |r.value| ==> !IsSpace(r.value[i])
  {
    var n := TokenLength(text);
    var rest := text[n..];
    var tail := rest[SpaceLength(rest)..];
    if n > 0 && forall i :: 0 <= i < |tail| ==> tail[i] != '\n' then Some(text[..n]) else None
  }

  /**
   * A split is a parse of the regex, and its group is the greedy one: the
   * command stops at the first \s character or at the end of the text.
   */
  lemma SplitCommandSound(text: string)
    requires SplitCommand(text).Some?
    ensures var c := SplitCommand(text).value;
            var rest := text[|c|..];
            CommandParse(text, c, rest[..SpaceLength(rest)], rest[SpaceLength(rest)..])
    ensures var c := SplitCommand(text).value;
            c <= text && (|c| == |text| || IsSpace(text[|c|]))
  {
    var n := TokenLength(text);
    var rest := text[n..];
    var w := SpaceLength(rest);
    assert text == text[..n] + rest[..w] + rest[w..];
  }

  /**
   * Every parse of the regex is found, and the greedy \S+ makes the returned
   * command at least as long as any parse's first group.
   */
  lemma SplitCommandComplete(text: string, g1: string, sep: string, tail: string)
    requires CommandParse(text, g1, sep, tail)
    ensures SplitCommand(text).Some?
    ensures g1 <= SplitCommand(text).value
  {
    var n := TokenLength(text);
    TokenLengthAtLeast(text, |g1|);
    if n == |g1| {
      SeparatedTailHasNoNewline(text, g1, sep, tail);
    } else {
      GluedTailHasNoNewline(text, g1, sep, tail);
    }
    assert text[..n][..|g1|] == g1;
  }

  /** Whatever follows the token and its spaces in `text` is free of newlines. */
  ghost predicate TailWithoutNewline(text: string, n: nat)
    requires n <= |text|
  {
    var rest := text[n..];
    forall i :: 0 <= i < |rest| - SpaceLength(rest) ==> rest[SpaceLength(rest)..][i] != '\n'
  }

  /** When the token is exactly the parse's group, the greedy spaces swallow the separator. */
  lemma SeparatedTailHasNoNewline(text: string, g1: string, sep: string, tail: string)
    requires CommandParse(text, g1, sep, tail) && TokenLength(text) == |g1|
    ensures TailWithoutNewline(text, |g1|)
  {
    var rest := text[|g1|..];
    assert rest == sep + tail;
    assert rest[|sep|..] == tail;
    SpaceLengthAtLeast(rest, |sep|);
    var w := SpaceLength(rest);
    SuffixOfSuffix(rest, |sep|, w - |sep|);
    NoNewlineInSuffix(tail, w - |sep|);
  }

  /** When the token runs past the parse's group, the separator is empty and the rest lies in the tail. */
  lemma GluedTailHasNoNewline(text: string, g1: string, sep: string, tail: string)
    requires CommandParse(text, g1, sep, tail) && TokenLength(text) > |g1|
    ensures TailWithoutNewline(text, TokenLength(text))
  {
    var n := TokenLength(text);
    var after := text[|g1|..];
    assert after == sep + tail;
    assert !IsSpace(after[0]);
    assert after == tail;
    SuffixOfSuffix(text, |g1|, n - |g1|);
    var rest := text[n..];
    var w := SpaceLength(rest);
    SuffixOfSuffix(tail, n - |g1|, w);
    NoNewlineInSuffix(tail, n - |g1| + w);
  }

  lemma SuffixOfSuffix(s: string, a: nat, b: nat)
    requires a + b <= |s|
    ensures s[a..][b..] == s[a + b..]
  {
  }

  lemma NoNewlineInSuffix(s: string, k: nat)
    requires k <= |s| && forall i :: 0 <= i < |s| ==> s[i] != '\n'
    ensures forall i :: 0 <= i < |s| - k ==> s[k..][i] != '\n'
  {
  }

  /** A prefix without \s characters is covered by the token. */
  lemma {:induction false} TokenLengthAtLeast(s: string, k: nat)
    requires k <= |s|
    requires forall i :: 0 <= i < k ==> !IsSpace(s[i])
    ensures TokenLength(s) >= k
  {
    if k > 0 {
      TokenLengthAtLeast(s[1..], k - 1);
    }
  }

  /** A prefix of \s characters is covered by the separator. */
  lemma {:induction false} SpaceLengthAtLeast(s: string, k: nat)
    requires k <= |s|
    requires forall i :: 0 <= i < k ==> IsSpace(s[i])
    ensures SpaceLength(s) >= k
  {
    if k > 0 {
      SpaceLengthAtLeast(s[1..], k - 1);
    }
  }

  /** A text with no parse has no command, so the command tier is skipped. */
  lemma SplitCommandNoneIffNoParse(text: string)
    ensures SplitCommand(text).None? <==>
              forall g1, sep, tail :: !CommandParse(text, g1, sep, tail)
  {
    if SplitCommand(text).Some? {
      SplitCommandSound(text);
    } else {
      forall g1, sep, tail
        ensures !CommandParse(text, g1, sep, tail)
      {
        if CommandParse(text, g1, sep, tail) {
          SplitCommandComplete(text, g1, sep, tail);
        }
      }
    }
  }

  // ---------------------------------------------------------------------------
  // state.test: tier precedence
  // ---------------------------------------------------------------------------

  /** doTest: an empty (or absent) list answers NoMatch without running anything. */
  function DoTest(ts: seq<Transitor>, msg: Message, s: Snapshot): (v: Verdict)
    ensures |ts| == 0 ==> v == NoMatch
    ensures v.err.None? ==> exists j :: 0 <= j < |ts| && ts[j](msg, s) == v
  {
    if |ts| == 0 then NoMatch else FirstSuccess(ts, msg, s)
  }

  /** testCmd: run the list registered for the command the text starts with. */
  function CommandTier(t: Tables, msg: Message, s: Snapshot): (v: Verdict)
    ensures SplitCommand(msg.text).None? ==> v == NoMatch
    ensures v.err.None? ==>
              var c := SplitCommand(msg.text).value;
              SplitCommand(msg.text).Some? && c in t.command
              && exists j :: 0 <= j < |t.command[c]| && t.command[c][j](msg, s) == v
  {
    match SplitCommand(msg.text)
    case None => NoMatch
    case Some(cmd) => if cmd in t.command then DoTest(t.command[cmd], msg, s) else NoMatch
  }

  /**
   * state.test: forward (forwarded messages only), reply (replies only),
   * command (text messages only), the list of the message's type, and
   * finally the fallback list, whose verdict stands even when it fails.
   */
  function Match(t: Tables, msg: Message, s: Snapshot): (v: Verdict)
    ensures v.err.Some? ==> v == DoTest(t.fallback, msg, s)
  {
    var fwd := DoTest(t.forward, msg, s);
    var rep := DoTest(t.reply, msg, s);
    var cmd := CommandTier(t, msg, s);
    var mt := Type(msg);
    if msg.forward.Some? && fwd.err.None? then fwd
    else if msg.replyTo.Some? && rep.err.None? then rep
    else if mt == TEXT && cmd.err.None? then cmd
    else if mt in t.types && DoTest(t.types[mt], msg, s).err.None? then DoTest(t.types[mt], msg, s)
    else DoTest(t.fallback, msg, s)
  }

  /** A forwarded message that some forward transitor accepts is decided by the forward list alone. */
  lemma ForwardTierFirst(t: Tables, msg: Message, s: Snapshot, i: nat)
    requires msg.forward.Some?
    requires i < |t.forward| && t.forward[i](msg, s).err.None?
    requires forall j :: 0 <= j < i ==> t.forward[j](msg, s).err.Some?
    ensures Match(t, msg, s) == t.forward[i](msg, s)
  {
    FirstSuccessPicksFirst(t.forward, msg, s, i);
  }

  /** A reply that no forward transitor takes and a reply transitor accepts is decided by the reply list. */
  lemma ReplyTierSecond(t: Tables, msg: Message, s: Snapshot, i: nat)
    requires msg.forward.None? || forall j :: 0 <= j < |t.forward| ==> t.forward[j](msg, s).err.Some?
    requires msg.replyTo.Some?
    requires i < |t.reply| && t.reply[i](msg, s).err.None?
    requires forall j :: 0 <= j < i ==> t.reply[j](msg, s).err.Some?
    ensures Match(t, msg, s) == t.reply[i](msg, s)
  {
    if msg.forward.Some? && |t.forward| > 0 {
      FirstSuccessAllFail(t.forward, msg, s);
    }
    FirstSuccessPicksFirst(t.reply, msg, s, i);
  }

  /**
   * A text message whose forward and reply tiers, if it has them, found
   * nothing and whose first token is a registered command is decided by
   * that command's list when one of them accepts it; the lookup is
   * case-sensitive, by string equality.
   */
  lemma CommandTierBeforeText(t: Tables, msg: Message, s: Snapshot, cmd: string, i: nat)
    requires msg.forward.Some? ==> DoTest(t.forward, msg, s).err.Some?
    requires msg.replyTo.Some? ==> DoTest(t.reply, msg, s).err.Some?
    requires Type(msg) == TEXT
    requires SplitCommand(msg.text) == Some(cmd) && cmd in t.command
    requires i < |t.command[cmd]| && t.command[cmd][i](msg, s).err.None?
    requires forall j :: 0 <= j < i ==> t.command[cmd][j](msg, s).err.Some?
    ensures Match(t, msg, s) == t.command[cmd][i](msg, s)
  {
    FirstSuccessPicksFirst(t.command[cmd], msg, s, i);
  }

  /**
   * A message whose forward and reply tiers, if it has them, and whose
   * command tier found nothing (no command, an unregistered one, or only
   * failing handlers) reaches its type's list: forwarded messages and
   * replies fall back to it too.
   */
  lemma TypeTierAfterCommand(t: Tables, msg: Message, s: Snapshot, i: nat)
    requires msg.forward.Some? ==> DoTest(t.forward, msg, s).err.Some?
    requires msg.replyTo.Some? ==> DoTest(t.reply, msg, s).err.Some?
    requires Type(msg) == TEXT ==> CommandTier(t, msg, s).err.Some?
    requires Type(msg) in t.types
    requires i < |t.types[Type(msg)]| && t.types[Type(msg)][i](msg, s).err.None?
    requires forall j :: 0 <= j < i ==> t.types[Type(msg)][j](msg, s).err.Some?
    ensures Match(t, msg, s) == t.types[Type(msg)][i](msg, s)
  {
    FirstSuccessPicksFirst(t.types[Type(msg)], msg, s, i);
  }

  /** An unregistered command never stops a text message from reaching the TEXT list. */
  lemma UnknownCommandFallsToText(t: Tables, msg: Message, s: Snapshot)
    requires Type(msg) == TEXT
    requires SplitCommand(msg.text).None? || SplitCommand(msg.text).value !in t.command
    ensures CommandTier(t, msg, s) == NoMatch
  {
  }

  /**
   * When no tier before it succeeds, the fallback list decides, and its
   * failure is the answer: with no fallback at all that is ErrNoMatch.
   */
  lemma FallbackTierLast(t: Tables, msg: Message, s: Snapshot)
    requires msg.forward.Some? ==> DoTest(t.forward, msg, s).err.Some?
    requires msg.replyTo.Some? ==> DoTest(t.reply, msg, s).err.Some?
    requires Type(msg) == TEXT ==> CommandTier(t, msg, s).err.Some?
    requires Type(msg) in t.types ==> DoTest(t.types[Type(msg)], msg, s).err.Some?
    ensures Match(t, msg, s) == DoTest(t.fallback, msg, s)
    ensures |t.fallback| == 0 ==> Match(t, msg, s) == NoMatch
  {
  }

  /** A successful match is always the answer of one registered transitor. */
  lemma MatchSuccessComesFromATransitor(t: Tables, msg: Message, s: Snapshot)
    requires Match(t, msg, s).err.None?
    ensures var v := Match(t, msg, s);
            (exists j :: 0 <= j < |t.forward| && t.forward[j](msg, s) == v)
            || (exists j :: 0 <= j < |t.reply| && t.reply[j](msg, s) == v)
            || (exists c, j :: c in t.command && 0 <= j < |t.command[c]| && t.command[c][j](msg, s) == v)
            || (exists mt, j :: mt in t.types && 0 <= j < |t.types[mt]| && t.types[mt][j](msg, s) == v)
            || (exists j :: 0 <= j < |t.fallback| && t.fallback[j](msg, s) == v)
  {
    var v := Match(t, msg, s);
    var mt := Type(msg);
    if msg.forward.Some? && DoTest(t.forward, msg, s).err.None? {
    } else if msg.replyTo.Some? && DoTest(t.reply, msg, s).err.None? {
    } else if mt == TEXT && CommandTier(t, msg, s).err.None? {
      var c := SplitCommand(msg.text).value;
      var j :| 0 <= j < |t.command[c]| && t.command[c][j](msg, s) == v;
    } else if mt in t.types && DoTest(t.types[mt], msg, s).err.None? {
      var j :| 0 <= j < |t.types[mt]| && t.types[mt][j](msg, s) == v;
    }
  }

  // ---------------------------------------------------------------------------
  // The state object
  // ---------------------------------------------------------------------------

  /** A state: its data, its user, its id, its transitor lists and its pending requests. */
  class State {
    var data: Data
    var user: Option<Recipient>
    const id: StateId
    var forward: seq<Transitor>
    var reply: seq<Transitor>
    var types: map<MessageType, seq<Transitor>>
    var command: map<string, seq<Transitor>>
    var fallback: seq<Transitor>
    /** The id Transit asked for (the Go *string), None when nil. */
    var chain: Option<StateId>
    var retransit: bool

    /** newState: empty lists and maps, nil data, no user, nothing requested. */
    constructor (id: StateId)
      ensures this.id == id && data == NilData && user == None
      ensures forward == [] && reply == [] && types == map[] && command == map[]
      ensures fallback == []
      ensures chain == None && !retransit
    {
      this.id := id;
      data, user := NilData, None;
      forward, reply, types, command, fallback := [], [], map[], map[], [];
      chain, retransit := None, false;
    }

    /** What a transitor or an action observes. */
    function Snap(): Snapshot
      reads this
    {
      Snapshot(data, user, id, chain, retransit)
    }

    /** The transitor lists that test consults. */
    function Lists(): Tables
      reads this
    {
      Tables(forward, reply, types, command, fallback)
    }

    /** clone: a new state equal to this one except for its user; this one is untouched. */
    method Clone(u: Recipient) returns (c: State)
      ensures fresh(c)
      ensures c.Snap() == Snap().(user := Some(u)) && c.Lists() == Lists()
    {
      c := new State(id);
      c.data, c.user := data, Some(u);
      c.forward, c.reply, c.types, c.command, c.fallback := forward, reply, types, command, fallback;
      c.chain, c.retransit := chain, retransit;
    }

    /** Retransit: only the retransit flag changes. */
    method Retransit()
      modifies this
      ensures Snap() == old(Snap()).(retransit := true) && Lists() == old(Lists())
    {
      retransit := true;
    }

    /** re */
    function Re(): bool
      reads this
    {
      retransit
    }

    /** Transit: only the chained id changes. */
    method Transit(to: StateId)
      modifies this
      ensures Snap() == old(Snap()).(chain := Some(to)) && Lists() == old(Lists())
    {
      chain := Some(to);
    }

    /** next */
    function Next(): Option<StateId>
      reads this
    {
      chain
    }

    /** SetData: only the data changes. */
    method SetData(d: Data)
      modifies this
      ensures Snap() == old(Snap()).(data := d) && Lists() == old(Lists())
    {
      data := d;
    }

    method RegisterForward(t: Transitor)
      modifies this
      ensures Lists() == old(Lists()).(forward := old(forward) + [t])
      ensures Snap() == old(Snap())
    {
      forward := forward + [t];
    }

    method RegisterReply(t: Transitor)
      modifies this
      ensures Lists() == old(Lists()).(reply := old(reply) + [t])
      ensures Snap() == old(Snap())
    {
      reply := reply + [t];
    }

    /** Register: appends to the list of `mt`, creating it when absent. */
    method Register(mt: MessageType, t: Transitor)
      modifies this
      ensures Lists() == old(Lists()).(types := old(types)[mt := Registered(old(types), mt) + [t]])
      ensures Snap() == old(Snap())
    {
      types := types[mt := Registered(types, mt) + [t]];
    }

    /** RegisterCommand: appends to the list of `cmd`, creating it when absent. */
    method RegisterCommand(cmd: string, t: Transitor)
      modifies this
      ensures Lists() == old(Lists()).(command := old(command)[cmd := Registered(old(command), cmd) + [t]])
      ensures Snap() == old(Snap())
    {
      command := command[cmd := Registered(command, cmd) + [t]];
    }

    method RegisterFallback(t: Transitor)
      modifies this
      ensures Lists() == old(Lists()).(fallback := old(fallback) + [t])
      ensures Snap() == old(Snap())
    {
      fallback := fallback + [t];
    }

    /** test: the tiers in order, each stopping at the first success. */
    method Test(msg: Message) returns (v: Verdict)
      ensures v == Match(Lists(), msg, Snap())
    {
      var s := Snap();
      if msg.forward.Some? {
        v := DoTestMethod(forward, msg, s);
        if v.err.None? {
          return;
        }
      }
      if msg.replyTo.Some? {
        v := DoTestMethod(reply, msg, s);
        if v.err.None? {
          return;
        }
      }
      var mt := Type(msg);
      if mt == TEXT {
        v := TestCommand(msg, s);
        if v.err.None? {
          return;
        }
      }
      if mt in types {
        v := DoTestMethod(types[mt], msg, s);
        if v.err.None? {
          return;
        }
      }
      v := DoTestMethod(fallback, msg, s);
    }

    /** testCmd, the closure inside test: the list of the text's command, when it is registered. */
    method TestCommand(msg: Message, s: Snapshot) returns (v: Verdict)
      ensures v == CommandTier(Lists(), msg, s)
    {
      var cmd := SplitCommand(msg.text);
      if cmd.Some? && cmd.value in command {
        v := DoTestMethod(command[cmd.value], msg, s);
      } else {
        v := NoMatch;
      }
    }
  }

  /** The list registered under `k`, or the empty (nil) list. */
  function Registered<K>(m: map<K, seq<Transitor>>, k: K): seq<Transitor>
  {
    if k in m then m[k] else []
  }

  /** doTest, the closure inside state.test. */
  method DoTestMethod(ts: seq<Transitor>, msg: Message, s: Snapshot) returns (v: Verdict)
    ensures v == DoTest(ts, msg, s)
  {
    if |ts| == 0 {
      return NoMatch;
    }
    v := TestTransitors(ts, msg, s);
  }
}
