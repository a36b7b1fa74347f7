/**
 * The state registry and the transition engine: one step of a worker loads
 * the user's state, matches the message, runs the leave and enter actions,
 * saves, follows Transit chains and repeats while a retransit is asked for.
 * Modelled on fsm.go and the TransitorMap/StateMaker types of state_maker.go.
 */
module Fsm {
  import opened Wrappers
  import opened TelegramTypes
  import opened States
  import opened MessageManager
  import SaveLoader

  // ---------------------------------------------------------------------------
  // Actions, storage and the observable events
  // ---------------------------------------------------------------------------

  /**
   * The net effect of the calls an action makes on the state it is handed:
   * the last SetData value, the last Transit id, and whether Retransit was
   * called. Each call overwrites its own field, so this is exact.
   */
  datatype Effect = Effect(setData: Option<Data>, transit: Option<StateId>, retransit: bool)

  const NoEffect: Effect := Effect(None, None, false)

  /** What an action did, and the error it returned. */
  datatype Acted = Acted(effect: Effect, err: Option<Error>)

  /** An enter or leave action; the api handle it also receives is not modelled. */
  type Action = (Message, Snapshot) -> Acted

  /** The state as left by an action's calls. */
  function Apply(s: Snapshot, e: Effect): (r: Snapshot)
    ensures r.user == s.user && r.id == s.id
    ensures r.retransit <==> s.retransit || e.retransit
  {
    s.(data := if e.setData.Some? then e.setData.value else s.data,
       chain := if e.transit.Some? then e.transit else s.chain,
       retransit := s.retransit || e.retransit)
  }

  /** Replays an action's calls on the state object. */
  method Perform(s: State, e: Effect)
    modifies s
    ensures s.Snap() == Apply(old(s.Snap()), e) && s.Lists() == old(s.Lists())
  {
    if e.setData.Some? {
      s.SetData(e.setData.value);
    }
    if e.transit.Some? {
      s.Transit(e.transit.value);
    }
    if e.retransit {
      s.Retransit();
    }
  }

  /**
   * The SaveLoader the machine was built with, keyed by the user's
   * Identifier(); what it does with the pairs is left to it.
   */
  datatype Storage = Storage(
    load: string -> SaveLoader.Loaded,
    save: (string, StateId, Data) -> Option<Error>)

  /** What the outside world sees of a transition: actions run and pairs saved. */
  datatype Event =
    | Left(id: StateId)
    | Entered(id: StateId, handed: Data)
    | Saved(key: string, id: StateId, data: Data)

  predicate IsSave(e: Event) {
    e.Saved?
  }

  /** internalStateData, as values. */
  datatype Node = Node(snap: Snapshot, lists: Tables, enter: Option<Action>, leave: Option<Action>)

  /** The states map, as values. */
  type Registry = map<StateId, Node>

  /** Every registered state carries the id it is registered under. */
  ghost predicate WellFormed(reg: Registry) {
    forall i :: i in reg ==> reg[i].snap.id == i
  }

  /** What newState(id) holds. */
  function Fresh(id: StateId): Snapshot {
    Snapshot(NilData, None, id, None, false)
  }

  const EmptyTables: Tables := Tables([], [], map[], map[], [])

  // ---------------------------------------------------------------------------
  // transit
  // ---------------------------------------------------------------------------

  /** The result of transit: the next state (None for nil), the error, and the events. */
  datatype Hop = Hop(next: Option<Snapshot>, err: Option<Error>, events: seq<Event>)

  /** What the current state's leave action did; no action does nothing and fails never. */
  function LeaveResult(reg: Registry, msg: Message, cur: Snapshot): Acted
    requires cur.id in reg
  {
    if reg[cur.id].leave.Some? then reg[cur.id].leave.value(msg, cur) else Acted(NoEffect, None)
  }

  /** The leave action's event, if there is a leave action. */
  function LeaveEvents(reg: Registry, cur: Snapshot): (r: seq<Event>)
    requires cur.id in reg
    ensures forall k :: 0 <= k < |r| ==> !IsSave(r[k])
  {
    if reg[cur.id].leave.Some? then [Left(cur.id)] else []
  }

  /** The clone of the target state for the current user, before it receives any data. */
  function Cloned(reg: Registry, cur: Snapshot, id: StateId): (r: Snapshot)
    requires id in reg
    ensures r.user == cur.user && r.id == reg[id].snap.id
  {
    reg[id].snap.(user := cur.user)
  }

  /** The target clone after the hand-over: it holds the current state's data as the leave action left it. */
  function Handed(reg: Registry, msg: Message, cur: Snapshot, id: StateId): (r: Snapshot)
    requires cur.id in reg && id in reg
    ensures r == reg[id].snap.(user := cur.user, data := r.data)
    ensures var e := LeaveResult(reg, msg, cur).effect;
            r.data == if e.setData.Some? then e.setData.value else cur.data
  {
    Cloned(reg, cur, id).(data := Apply(cur, LeaveResult(reg, msg, cur).effect).data)
  }

  /** What the target state's enter action did, handed the state after the hand-over. */
  function EnterResult(reg: Registry, msg: Message, cur: Snapshot, id: StateId): Acted
    requires cur.id in reg && id in reg
  {
    if reg[id].enter.Some? then reg[id].enter.value(msg, Handed(reg, msg, cur, id)) else Acted(NoEffect, None)
  }

  /** The enter action's event, recording the data it was handed. */
  function EnterEvents(reg: Registry, msg: Message, cur: Snapshot, id: StateId): (r: seq<Event>)
    requires cur.id in reg && id in reg
    ensures forall k :: 0 <= k < |r| ==> !IsSave(r[k])
  {
    if reg[id].enter.Some? then [Entered(id, Handed(reg, msg, cur, id).data)] else []
  }

  /** The target clone as the enter action left it: this is what is saved. */
  function EnteredState(reg: Registry, msg: Message, cur: Snapshot, id: StateId): (r: Snapshot)
    requires cur.id in reg && id in reg
    ensures r.user == cur.user && r.id == reg[id].snap.id
  {
    Apply(Handed(reg, msg, cur, id), EnterResult(reg, msg, cur, id).effect)
  }

  /**
   * The events of one successful hop: the leave action, the enter action,
   * and the save of the entered state under the user's key, in that order.
   */
  function HopEvents(reg: Registry, msg: Message, cur: Snapshot, id: StateId): (r: seq<Event>)
    requires cur.id in reg && id in reg && cur.user.Some?
    ensures |r| > 0
    ensures var n := EnteredState(reg, msg, cur, id);
            r[|r| - 1] == Saved(Identifier(cur.user.value), n.id, n.data)
    ensures forall k :: 0 <= k < |r| - 1 ==> !IsSave(r[k])
  {
    var n := EnteredState(reg, msg, cur, id);
    var pre := LeaveEvents(reg, cur) + EnterEvents(reg, msg, cur, id);
    assert forall k :: 0 <= k < |pre| ==> !IsSave(pre[k]) by {
      forall k | 0 <= k < |pre|
        ensures !IsSave(pre[k])
      {
        if k < |LeaveEvents(reg, cur)| {
          assert pre[k] == LeaveEvents(reg, cur)[k];
        } else {
          assert pre[k] == EnterEvents(reg, msg, cur, id)[k - |LeaveEvents(reg, cur)|];
        }
      }
    }
    pre + [Saved(Identifier(cur.user.value), n.id, n.data)]
  }

  /**
   * transit from `cur` to `id`: look both states up, clone the target for
   * the same user, run the leave action on the current state, hand its data
   * over, run the enter action, save, and follow the chain the entered state
   * asked for (at most `fuel` more times).
   */
  function TransitFrom(reg: Registry, st: Storage, msg: Message, cur: Snapshot, id: StateId, fuel: nat): (h: Hop)
    requires WellFormed(reg) && cur.user.Some?
    ensures h.next.Some? ==> h.next.value.user == cur.user && h.next.value.id in reg
    ensures h.err.None? ==> h.next.Some? && h.next.value.chain.None?
    ensures h.err.None? ==>
              var key := Identifier(cur.user.value);
              |h.events| > 0
              && h.events[|h.events| - 1] == Saved(key, h.next.value.id, h.next.value.data)
              && st.save(key, h.next.value.id, h.next.value.data) == None
    decreases fuel
  {
    var key := Identifier(cur.user.value);
    if cur.id !in reg then Hop(None, Some(ErrCannotLoad(cur.id, key)), [])
    else if id !in reg then Hop(None, Some(ErrCannotLoadNext(id, key)), [])
    else if LeaveResult(reg, msg, cur).err.Some? then
      Hop(Some(Cloned(reg, cur, id)), LeaveResult(reg, msg, cur).err, LeaveEvents(reg, cur))
    else if EnterResult(reg, msg, cur, id).err.Some? then
      Hop(Some(EnteredState(reg, msg, cur, id)), EnterResult(reg, msg, cur, id).err,
          LeaveEvents(reg, cur) + EnterEvents(reg, msg, cur, id))
    else
      var n := EnteredState(reg, msg, cur, id);
      var events := HopEvents(reg, msg, cur, id);
      if n.chain.None? then Hop(Some(n), st.save(key, n.id, n.data), events)
      else if fuel == 0 then Hop(Some(n), Some(ErrFuelExhausted), events)
      else
        var h := TransitFrom(reg, st, msg, n, n.chain.value, fuel - 1);
        Hop(h.next, h.err, events + h.events)
  }

  /** The current state after transit: only its leave action, when it gets to run, changes it. */
  function LeftBehind(reg: Registry, msg: Message, cur: Snapshot, id: StateId): (r: Snapshot)
    ensures r.user == cur.user && r.id == cur.id
    ensures !(cur.id in reg && id in reg && reg[cur.id].leave.Some?) ==> r == cur
  {
    if cur.id in reg && id in reg then Apply(cur, LeaveResult(reg, msg, cur).effect) else cur
  }

  /** An unregistered current or target id fails before any action runs or anything is saved. */
  lemma TransitUnknownIdFailsEarly(reg: Registry, st: Storage, msg: Message, cur: Snapshot, id: StateId, fuel: nat)
    requires WellFormed(reg) && cur.user.Some?
    requires cur.id !in reg || id !in reg
    ensures var h := TransitFrom(reg, st, msg, cur, id, fuel);
            h.next.None? && h.events == []
            && h.err == Some(if cur.id !in reg then ErrCannotLoad(cur.id, Identifier(cur.user.value))
                             else ErrCannotLoadNext(id, Identifier(cur.user.value)))
  {
  }

  /** A failing leave action stops the transition: no enter action, no save, no chain. */
  lemma LeaveErrorAborts(reg: Registry, st: Storage, msg: Message, cur: Snapshot, id: StateId, fuel: nat)
    requires WellFormed(reg) && cur.user.Some? && cur.id in reg && id in reg
    requires reg[cur.id].leave.Some? && reg[cur.id].leave.value(msg, cur).err.Some?
    ensures var h := TransitFrom(reg, st, msg, cur, id, fuel);
            h.err == reg[cur.id].leave.value(msg, cur).err && h.events == [Left(cur.id)]
  {
  }

  /** A failing enter action stops the transition before the save. */
  lemma EnterErrorAborts(reg: Registry, st: Storage, msg: Message, cur: Snapshot, id: StateId, fuel: nat)
    requires WellFormed(reg) && cur.user.Some? && cur.id in reg && id in reg
    requires LeaveResult(reg, msg, cur).err.None?
    requires reg[id].enter.Some? && reg[id].enter.value(msg, Handed(reg, msg, cur, id)).err.Some?
    ensures var h := TransitFrom(reg, st, msg, cur, id, fuel);
            h.err == reg[id].enter.value(msg, Handed(reg, msg, cur, id)).err
            && (forall k :: 0 <= k < |h.events| ==> !IsSave(h.events[k]))
  {
    var h := TransitFrom(reg, st, msg, cur, id, fuel);
    assert h.events == LeaveEvents(reg, cur) + EnterEvents(reg, msg, cur, id);
  }

  /**
   * With both actions succeeding, the first hop's events are: the leave
   * action (if any); the enter action (if any), handed the current state's
   * data as the leave action left it; then one save, for the user, of the
   * target id with the data the enter action left. Anything after that comes
   * from the chain.
   */
  lemma FirstHopOrder(reg: Registry, st: Storage, msg: Message, cur: Snapshot, id: StateId, fuel: nat)
    requires WellFormed(reg) && cur.user.Some? && cur.id in reg && id in reg
    requires LeaveResult(reg, msg, cur).err.None? && EnterResult(reg, msg, cur, id).err.None?
    ensures var h := TransitFrom(reg, st, msg, cur, id, fuel);
            var handed := Apply(cur, LeaveResult(reg, msg, cur).effect).data;
            var first := (if reg[cur.id].leave.Some? then [Left(cur.id)] else [])
                         + (if reg[id].enter.Some? then [Entered(id, handed)] else [])
                         + [Saved(Identifier(cur.user.value), id, EnteredState(reg, msg, cur, id).data)];
            first <= h.events
  {
  }

  /**
   * When the entered state asks for Transit(x), transit continues from it to
   * x and returns the continuation's state and error: the error of the save
   * just made is dropped.
   */
  lemma ChainFollowed(reg: Registry, st: Storage, msg: Message, cur: Snapshot, id: StateId, fuel: nat)
    requires WellFormed(reg) && cur.user.Some? && cur.id in reg && id in reg
    requires LeaveResult(reg, msg, cur).err.None? && EnterResult(reg, msg, cur, id).err.None?
    requires EnteredState(reg, msg, cur, id).chain.Some? && fuel > 0
    ensures var n := EnteredState(reg, msg, cur, id);
            var h := TransitFrom(reg, st, msg, cur, id, fuel);
            var rest := TransitFrom(reg, st, msg, n, n.chain.value, fuel - 1);
            h.next == rest.next && h.err == rest.err
            && h.events == HopEvents(reg, msg, cur, id) + rest.events
            && h.events[|h.events| - |rest.events|..] == rest.events
  {
    var n := EnteredState(reg, msg, cur, id);
    var h := TransitFrom(reg, st, msg, cur, id, fuel);
    var rest := TransitFrom(reg, st, msg, n, n.chain.value, fuel - 1);
    assert h.events == HopEvents(reg, msg, cur, id) + rest.events;
  }

  /** Without a chain to follow, transit is its first hop, ended by the save or by the first error. */
  lemma SingleHop(reg: Registry, st: Storage, msg: Message, cur: Snapshot, id: StateId, fuel: nat)
    requires WellFormed(reg) && cur.user.Some? && cur.id in reg && id in reg
    requires !(LeaveResult(reg, msg, cur).err.None? && EnterResult(reg, msg, cur, id).err.None?
               && EnteredState(reg, msg, cur, id).chain.Some? && fuel > 0)
    ensures var n := EnteredState(reg, msg, cur, id);
            TransitFrom(reg, st, msg, cur, id, fuel)
            == if LeaveResult(reg, msg, cur).err.Some? then
                 Hop(Some(Cloned(reg, cur, id)), LeaveResult(reg, msg, cur).err, LeaveEvents(reg, cur))
               else if EnterResult(reg, msg, cur, id).err.Some? then
                 Hop(Some(n), EnterResult(reg, msg, cur, id).err, LeaveEvents(reg, cur) + EnterEvents(reg, msg, cur, id))
               else if n.chain.None? then
                 Hop(Some(n), st.save(Identifier(cur.user.value), n.id, n.data), HopEvents(reg, msg, cur, id))
               else Hop(Some(n), Some(ErrFuelExhausted), HopEvents(reg, msg, cur, id))
  {
  }

  /** Every save among `events` is made under `key`. */
  predicate SavesUnder(events: seq<Event>, key: string)
  {
    forall k :: 0 <= k < |events| && events[k].Saved? ==> events[k].key == key
  }

  /** Every pair a transit saves, along the whole chain, is saved under the same user's key. */
  lemma {:induction false} TransitSavesUnderUserKey(reg: Registry, st: Storage, msg: Message, cur: Snapshot,
                                                    id: StateId, fuel: nat)
    requires WellFormed(reg) && cur.user.Some?
    ensures SavesUnder(TransitFrom(reg, st, msg, cur, id, fuel).events, Identifier(cur.user.value))
    decreases fuel
  {
    var h := TransitFrom(reg, st, msg, cur, id, fuel);
    var key := Identifier(cur.user.value);
    if cur.id in reg && id in reg && LeaveResult(reg, msg, cur).err.None? && EnterResult(reg, msg, cur, id).err.None? {
      var n := EnteredState(reg, msg, cur, id);
      var pre := HopEvents(reg, msg, cur, id);
      assert SavesUnder(pre, key);
      if n.chain.Some? && fuel > 0 {
        var rest := TransitFrom(reg, st, msg, n, n.chain.value, fuel - 1);
        TransitSavesUnderUserKey(reg, st, msg, n, n.chain.value, fuel - 1);
        assert h.events == pre + rest.events;
        SavesUnderConcat(pre, rest.events, key);
      } else {
        assert h.events == pre;
      }
    } else {
      LeaveNoSaves(reg, st, msg, cur, id, fuel);
    }
  }

  lemma SavesUnderConcat(a: seq<Event>, b: seq<Event>, key: string)
    requires SavesUnder(a, key) && SavesUnder(b, key)
    ensures SavesUnder(a + b, key)
  {
    forall k | 0 <= k < |a + b| && (a + b)[k].Saved?
      ensures (a + b)[k].key == key
    {
      if k >= |a| {
        assert (a + b)[k] == b[k - |a|];
      }
    }
  }

  /** A transit that fails in a lookup or an action saves nothing. */
  lemma LeaveNoSaves(reg: Registry, st: Storage, msg: Message, cur: Snapshot, id: StateId, fuel: nat)
    requires WellFormed(reg) && cur.user.Some?
    requires !(cur.id in reg && id in reg && LeaveResult(reg, msg, cur).err.None? && EnterResult(reg, msg, cur, id).err.None?)
    ensures var h := TransitFrom(reg, st, msg, cur, id, fuel);
            forall k :: 0 <= k < |h.events| ==> !IsSave(h.events[k])
  {
    if cur.id in reg && id in reg && LeaveResult(reg, msg, cur).err.None? {
      var h := TransitFrom(reg, st, msg, cur, id, fuel);
      var l := LeaveEvents(reg, cur);
      var e := EnterEvents(reg, msg, cur, id);
      assert h.events == l + e;
      forall k | 0 <= k < |h.events|
        ensures !IsSave(h.events[k])
      {
        if k < |l| {
          assert h.events[k] == l[k];
        } else {
          assert h.events[k] == e[k - |l|];
        }
      }
    }
  }

  // ---------------------------------------------------------------------------
  // work
  // ---------------------------------------------------------------------------

  /** doNext: match the message against the state's lists, then transit. */
  function DoNext(reg: Registry, st: Storage, msg: Message, cur: Snapshot, fuel: nat): (h: Hop)
    requires WellFormed(reg) && cur.user.Some? && cur.id in reg
    ensures h.next.Some? ==> h.next.value.user == cur.user && h.next.value.id in reg
    ensures h.err.None? ==> h.next.Some?
    ensures h.err.None? ==>
              |h.events| > 0 && h.events[|h.events| - 1] == Saved(Identifier(cur.user.value), h.next.value.id, h.next.value.data)
  {
    var v := Match(reg[cur.id].lists, msg, cur);
    if v.err.Some? then Hop(None, v.err, []) else TransitFrom(reg, st, msg, cur, v.next, fuel)
  }

  /** What work reports: the error, whether it committed the message, and the events. */
  datatype Outcome = Outcome(err: Option<Error>, committed: bool, events: seq<Event>)

  /**
   * The `for next.re()` loop of work, starting with the state `n` the
   * previous round reached: stop and commit when no retransit was asked for,
   * otherwise run another round (at most `rounds` more).
   */
  function Continue(reg: Registry, st: Storage, msg: Message, n: Snapshot, fuel: nat, rounds: nat): (o: Outcome)
    requires WellFormed(reg) && n.user.Some? && n.id in reg
    ensures o.committed <==> o.err.None?
    decreases rounds, 0
  {
    if !n.retransit then Outcome(None, true, [])
    else if rounds == 0 then Outcome(Some(ErrFuelExhausted), false, [])
    else Rounds(reg, st, msg, n, fuel, rounds - 1)
  }

  /** One round of doNext, then the loop. */
  function Rounds(reg: Registry, st: Storage, msg: Message, cur: Snapshot, fuel: nat, rounds: nat): (o: Outcome)
    requires WellFormed(reg) && cur.user.Some? && cur.id in reg
    ensures o.committed <==> o.err.None?
    decreases rounds, 1
  {
    var h := DoNext(reg, st, msg, cur, fuel);
    if h.err.Some? then Outcome(h.err, false, h.events)
    else
      var o := Continue(reg, st, msg, h.next.value, fuel, rounds);
      Outcome(o.err, o.committed, h.events + o.events)
  }

  /**
   * work for a message already claimed: load the user's state, clone the
   * registered state for the user with the loaded data, and run the rounds.
   */
  function WorkFrom(reg: Registry, st: Storage, msg: Message, user: Recipient, fuel: nat, rounds: nat): (o: Outcome)
    requires WellFormed(reg)
    ensures o.committed <==> o.err.None?
  {
    var key := Identifier(user);
    var l := st.load(key);
    if l.err.Some? then Outcome(l.err, false, [])
    else if l.sid !in reg then Outcome(Some(ErrCannotLoad(l.sid, key)), false, [])
    else Rounds(reg, st, msg, reg[l.sid].snap.(user := Some(user), data := l.data), fuel, rounds)
  }

  /** One round, unfolded: a failing doNext ends work, a successful one continues from the state it reached. */
  lemma RoundsStep(reg: Registry, st: Storage, msg: Message, cur: Snapshot, fuel: nat, rounds: nat)
    requires WellFormed(reg) && cur.user.Some? && cur.id in reg
    ensures var h := DoNext(reg, st, msg, cur, fuel);
            Rounds(reg, st, msg, cur, fuel, rounds)
            == if h.err.Some? then Outcome(h.err, false, h.events)
               else Prefixed(h.events, Continue(reg, st, msg, h.next.value, fuel, rounds))
  {
  }

  /** A loaded state id that is not registered fails before any matching: nothing runs, nothing is saved. */
  lemma WorkUnknownStateFails(reg: Registry, st: Storage, msg: Message, user: Recipient, fuel: nat, rounds: nat)
    requires WellFormed(reg)
    requires st.load(Identifier(user)).err.None? && st.load(Identifier(user)).sid !in reg
    ensures WorkFrom(reg, st, msg, user, fuel, rounds)
            == Outcome(Some(ErrCannotLoad(st.load(Identifier(user)).sid, Identifier(user))), false, [])
  {
  }

  /**
   * A committed message ended in a state that asked for no retransit, and
   * the last thing work did was save that state for the user.
   */
  lemma {:induction false} CommitFollowsSave(reg: Registry, st: Storage, msg: Message, cur: Snapshot,
                                             fuel: nat, rounds: nat)
    requires WellFormed(reg) && cur.user.Some? && cur.id in reg
    ensures var o := Rounds(reg, st, msg, cur, fuel, rounds);
            o.committed ==> EndsWithSave(o.events, Identifier(cur.user.value))
    decreases rounds
  {
    var h := DoNext(reg, st, msg, cur, fuel);
    var key := Identifier(cur.user.value);
    if h.err.None? {
      var n := h.next.value;
      var o := Continue(reg, st, msg, n, fuel, rounds);
      var r := Rounds(reg, st, msg, cur, fuel, rounds);
      assert r.events == h.events + o.events;
      if n.retransit && rounds > 0 {
        CommitFollowsSave(reg, st, msg, n, fuel, rounds - 1);
        assert o == Rounds(reg, st, msg, n, fuel, rounds - 1);
        if o.committed {
          EndsWithSaveConcat(h.events, o.events, key);
        }
      } else if !n.retransit {
        assert o.events == [];
        assert r.events == h.events;
      }
    }
  }

  /** The last event is a save under `key`. */
  predicate EndsWithSave(events: seq<Event>, key: string)
  {
    |events| > 0 && events[|events| - 1].Saved? && events[|events| - 1].key == key
  }

  lemma EndsWithSaveConcat(a: seq<Event>, b: seq<Event>, key: string)
    requires EndsWithSave(b, key)
    ensures EndsWithSave(a + b, key)
  {
    assert (a + b)[|a + b| - 1] == b[|b| - 1];
  }

  /** A message that matches nothing in its state fails without running any action. */
  lemma NoMatchNoEffect(reg: Registry, st: Storage, msg: Message, cur: Snapshot, fuel: nat, rounds: nat)
    requires WellFormed(reg) && cur.user.Some? && cur.id in reg
    requires Match(reg[cur.id].lists, msg, cur).err.Some?
    ensures Rounds(reg, st, msg, cur, fuel, rounds)
            == Outcome(Match(reg[cur.id].lists, msg, cur).err, false, [])
  {
  }

  // ---------------------------------------------------------------------------
  // The state maps of StateMaker and their routing
  // ---------------------------------------------------------------------------

  /** TransitorMap: a transitor and the state it belongs to. */
  datatype TransitorMap = TransitorMap(
    transitor: Transitor,
    state: StateId,
    isHidden: bool,
    isFallback: bool,
    mtype: MessageType,
    command: string,
    desc: string)

  /** A StateMaker: its Name(), Actions() and Transitors(). */
  datatype StateMaker = StateMaker(
    name: StateId,
    enter: Option<Action>,
    leave: Option<Action>,
    transitors: seq<TransitorMap>)

  /** The list one entry goes to: fallback, command (non-empty command of a TEXT entry) or its type. */
  function RouteTables(l: Tables, t: TransitorMap): (r: Tables)
    ensures r.forward == l.forward && r.reply == l.reply
    ensures |r.fallback| == |l.fallback| + (if t.isFallback then 1 else 0)
    ensures t.isFallback ==> r.types == l.types && r.command == l.command
  {
    if t.isFallback then l.(fallback := l.fallback + [t.transitor])
    else if t.command != "" && t.mtype == TEXT then
      l.(command := l.command[t.command := Registered(l.command, t.command) + [t.transitor]])
    else l.(types := l.types[t.mtype := Registered(l.types, t.mtype) + [t.transitor]])
  }

  /** Routing one entry: hidden entries are skipped, an unknown state is an error (None). */
  function RouteOne(reg: Registry, t: TransitorMap): (r: Option<Registry>)
    ensures r.Some? <==> t.isHidden || t.state in reg
    ensures r.Some? ==> r.value.Keys == reg.Keys
  {
    if t.isHidden then Some(reg)
    else if t.state !in reg then None
    else Some(reg[t.state := reg[t.state].(lists := RouteTables(reg[t.state].lists, t))])
  }

  /** The entries of all makers, in order. */
  function Flatten(sm: seq<StateMaker>): seq<TransitorMap>
  {
    if |sm| == 0 then [] else sm[0].transitors + Flatten(sm[1..])
  }

  /** The registry after routing, and ErrStateNotFound when an entry's state is unknown. */
  datatype Routed = Routed(reg: Registry, err: Option<Error>)

  /** Route the entries one by one; the first unknown state stops, keeping what was routed before it. */
  function RouteSeq(reg: Registry, ts: seq<TransitorMap>): (r: Routed)
    ensures r.err.None? || r.err == Some(ErrStateNotFound)
    ensures r.reg.Keys == reg.Keys
    ensures r.err.None? <==> forall k :: 0 <= k < |ts| && !ts[k].isHidden ==> ts[k].state in reg
    decreases |ts|
  {
    if |ts| == 0 then Routed(reg, None)
    else match RouteOne(reg, ts[0])
      case None => Routed(reg, Some(ErrStateNotFound))
      case Some(r) =>
        var rest := RouteSeq(r, ts[1..]);
        assert forall k :: 1 <= k < |ts| ==> ts[k] == ts[1..][k - 1];
        rest
  }

  /** Routing never changes actions, data, ids or users: only transitor lists grow. */
  lemma {:induction false} RouteSeqKeepsNodes(reg: Registry, ts: seq<TransitorMap>, i: StateId)
    requires i in reg
    ensures var n := RouteSeq(reg, ts).reg[i];
            n.snap == reg[i].snap && n.enter == reg[i].enter && n.leave == reg[i].leave
    decreases |ts|
  {
    if |ts| > 0 && RouteOne(reg, ts[0]).Some? {
      RouteSeqKeepsNodes(RouteOne(reg, ts[0]).value, ts[1..], i);
    }
  }

  /** Entries aimed at other states leave a state's lists alone; hidden ones touch nothing. */
  lemma RouteOneTouchesOnlyItsState(reg: Registry, t: TransitorMap, i: StateId)
    requires RouteOne(reg, t).Some? && i in reg
    requires t.isHidden || t.state != i
    ensures RouteOne(reg, t).value[i] == reg[i]
  {
  }

  /** A fallback entry is appended to the fallback list and to no other list. */
  lemma RouteFallback(l: Tables, t: TransitorMap)
    requires t.isFallback
    ensures RouteTables(l, t) == l.(fallback := l.fallback + [t.transitor])
  {
  }

  /** A TEXT entry with a command goes to that command's list, even if it is also typed TEXT. */
  lemma RouteCommand(l: Tables, t: TransitorMap)
    requires !t.isFallback && t.command != "" && t.mtype == TEXT
    ensures RouteTables(l, t).command == l.command[t.command := Registered(l.command, t.command) + [t.transitor]]
    ensures RouteTables(l, t).types == l.types && RouteTables(l, t).fallback == l.fallback
  {
  }

  /** Any other entry goes to its type's list; a command on a non-TEXT entry is ignored. */
  lemma RouteType(l: Tables, t: TransitorMap)
    requires !t.isFallback && (t.command == "" || t.mtype != TEXT)
    ensures RouteTables(l, t).types == l.types[t.mtype := Registered(l.types, t.mtype) + [t.transitor]]
    ensures RouteTables(l, t).command == l.command && RouteTables(l, t).fallback == l.fallback
  {
  }

  /** The entries of makers i.. are maker i's entries, then those of i + 1... */
  lemma FlattenStep(sm: seq<StateMaker>, i: nat)
    requires i < |sm|
    ensures Flatten(sm[i..]) == sm[i].transitors + Flatten(sm[i + 1..])
  {
    assert sm[i..][1..] == sm[i + 1..];
  }

  /** Routing entries j.. starts with entry j: a failure stops there, a success goes on with j + 1... */
  lemma RouteSeqStep(reg: Registry, ts: seq<TransitorMap>, j: nat, tail: seq<TransitorMap>)
    requires j < |ts|
    ensures RouteSeq(reg, ts[j..] + tail)
            == match RouteOne(reg, ts[j])
               case None => Routed(reg, Some(ErrStateNotFound))
               case Some(r) => RouteSeq(r, ts[j + 1..] + tail)
  {
    assert (ts[j..] + tail)[0] == ts[j];
    assert (ts[j..] + tail)[1..] == ts[j + 1..] + tail;
  }

  // ---------------------------------------------------------------------------
  // The machine
  // ---------------------------------------------------------------------------

  /** internalStateData: a registered state and its actions. */
  datatype Entry = Entry(state: State, enter: Option<Action>, leave: Option<Action>)

  /** bySender: the sender is the user a state belongs to. */
  function BySender(msg: Message): (r: Recipient)
    ensures AsUser(r) == (Some(msg.sender), true)
    ensures Identifier(r) == UserIdentifier(msg.sender)
  {
    UserRecipient(msg.sender)
  }

  /** byChat: the chat is the user a state belongs to. */
  function ByChat(msg: Message): (r: Recipient)
    ensures AsChat(r) == (Some(msg.chat), true)
    ensures Identifier(r) == ChatIdentifier(msg.chat)
  {
    ChatRecipient(msg.chat)
  }

  /** fsm, without its api handle and its error channel. */
  class FSM {
    const userOf: Message -> Recipient
    var states: map<StateId, Entry>
    const storage: Storage
    const manager: Manager
    var sm: seq<StateMaker>
    /** The registered state objects. */
    ghost var Repr: set<State>

    ghost predicate Valid()
      reads this`states, this`Repr, Repr
    {
      (forall i :: i in states ==> states[i].state in Repr && states[i].state.id == i)
      && manager.getUID == userOf
    }

    /** The registry as values. */
    function Registry(): (r: Registry)
      requires Valid()
      reads this`states, this`Repr, Repr
      ensures WellFormed(r) && r.Keys == states.Keys
    {
      map i | i in states :: Node(states[i].state.Snap(), states[i].state.Lists(), states[i].enter, states[i].leave)
    }

    /**
     * newFSM: the registry holds only the initial state, with no actions;
     * the manager is keyed by the same user extractor.
     */
    constructor (userOf: Message -> Recipient, storage: Storage, size: int)
      ensures Valid() && fresh(Repr) && fresh(manager)
      ensures this.userOf == userOf && this.storage == storage && sm == []
      ensures Registry() == map[InitialState := Node(Fresh(InitialState), EmptyTables, None, None)]
      ensures manager.Valid() && manager.size == size && manager.queue == [] && manager.runningUsers == {}
    {
      var s := new State(InitialState);
      this.userOf := userOf;
      this.storage := storage;
      states := map[InitialState := Entry(s, None, None)];
      manager := new Manager(userOf, size);
      sm := [];
      Repr := {s};
    }

    /** AddState: a new id gets a fresh state with the given actions; a taken id is refused. */
    method AddState(id: StateId, enter: Option<Action>, leave: Option<Action>) returns (ret: State?, err: Option<Error>)
      requires Valid()
      modifies this
      ensures Valid() && sm == old(sm)
      ensures id in old(states) ==>
                ret == null && err == Some(ErrStateInUse(id)) && states == old(states) && Repr == old(Repr)
      ensures id !in old(states) ==>
                err == None && ret != null && fresh(ret)
                && states == old(states)[id := Entry(ret, enter, leave)] && Repr == old(Repr) + {ret}
                && Registry() == old(Registry())[id := Node(Fresh(id), EmptyTables, enter, leave)]
    {
      if id in states {
        return null, Some(ErrStateInUse(id));
      }
      var s := new State(id);
      states := states[id := Entry(s, enter, leave)];
      Repr := Repr + {s};
      ret, err := s, None;
    }

    /** State: the registered state of `id`, if any. */
    function GetState(id: StateId): (r: (State?, bool))
      reads this
      ensures r.1 <==> id in states
      ensures r.1 ==> r.0 == states[id].state
      ensures !r.1 ==> r.0 == null
    {
      if id in states then (states[id].state, true) else (null, false)
    }

    /** MakeState: AddState with the maker's name and actions, then keep the maker for Start. */
    method MakeState(maker: StateMaker) returns (ret: State?, err: Option<Error>)
      requires Valid()
      modifies this
      ensures Valid()
      ensures maker.name in old(states) ==>
                ret == null && err == Some(ErrStateInUse(maker.name))
                && states == old(states) && Repr == old(Repr) && sm == old(sm)
      ensures maker.name !in old(states) ==>
                err == None && ret != null && fresh(ret) && sm == old(sm) + [maker]
                && states == old(states)[maker.name := Entry(ret, maker.enter, maker.leave)]
                && Repr == old(Repr) + {ret}
    {
      ret, err := AddState(maker.name, maker.enter, maker.leave);
      if err.Some? {
        return;
      }
      sm := sm + [maker];
    }

    /**
     * One entry of registerStateMapTransitors: a hidden entry is skipped, an
     * entry whose state is not registered stops the routing (false), and any
     * other is appended to the list RouteTables picks on its state.
     */
    method RouteEntry(t: TransitorMap) returns (ok: bool)
      requires Valid()
      modifies Repr
      ensures Valid() && unchanged(this)
      ensures ok <==> RouteOne(old(Registry()), t).Some?
      ensures Registry() == if ok then RouteOne(old(Registry()), t).value else old(Registry())
    {
      if t.isHidden {
        return true;
      }
      var (st, found) := GetState(t.state);
      if !found {
        return false;
      }
      ghost var before := Registry();
      if t.isFallback {
        st.RegisterFallback(t.transitor);
      } else if t.command != "" && t.mtype == TEXT {
        st.RegisterCommand(t.command, t.transitor);
      } else {
        st.Register(t.mtype, t.transitor);
      }
      ghost var after := RouteOne(before, t).value;
      forall k | k in states
        ensures Registry()[k] == after[k]
      {
        if k != t.state {
          assert states[k].state != st;
        }
      }
      ok := true;
    }

    /**
     * registerStateMapTransitors: route every entry of every kept maker;
     * stop at the first unknown state (what was routed stays routed and the
     * makers are kept), otherwise forget the makers.
     */
    method RegisterStateMapTransitors() returns (err: Option<Error>)
      requires Valid()
      modifies this, Repr
      ensures Valid() && states == old(states) && Repr == old(Repr)
      ensures var r := RouteSeq(old(Registry()), Flatten(old(sm)));
              Registry() == r.reg && err == r.err
              && sm == if r.err.None? then [] else old(sm)
    {
      ghost var target := RouteSeq(Registry(), Flatten(sm));
      var i := 0;
      while i < |sm|
        invariant 0 <= i <= |sm| && sm == old(sm)
        invariant Valid() && states == old(states) && Repr == old(Repr)
        invariant target == RouteSeq(Registry(), Flatten(sm[i..]))
      {
        FlattenStep(sm, i);
        var ok := RouteEntries(sm[i].transitors, Flatten(sm[i + 1..]), target);
        if !ok {
          return Some(ErrStateNotFound);
        }
        i := i + 1;
      }
      sm := [];
      err := None;
    }

    /**
     * The inner loop of registerStateMapTransitors: registers one state map
     * entry's transitors in order, stopping at the first unknown state.
     * `target` is what the whole registration comes to, and `tail` the
     * transitors still to come after these.
     */
    method RouteEntries(ts: seq<TransitorMap>, ghost tail: seq<TransitorMap>, ghost target: Routed) returns (ok: bool)
      requires Valid() && target == RouteSeq(Registry(), ts + tail)
      modifies Repr
      ensures Valid() && unchanged(this)
      ensures ok ==> target == RouteSeq(Registry(), tail)
      ensures !ok ==> target == Routed(Registry(), Some(ErrStateNotFound))
    {
      var j := 0;
      while j < |ts|
        invariant 0 <= j <= |ts|
        invariant Valid() && unchanged(this)
        invariant target == RouteSeq(Registry(), ts[j..] + tail)
      {
        RouteSeqStep(Registry(), ts, j, tail);
        ok := RouteEntry(ts[j]);
        if !ok {
          return;
        }
        j := j + 1;
      }
      assert ts[j..] + tail == tail;
      ok := true;
    }

    /**
     * One hop of transit, with both ids registered: clone the target, run the
     * leave action, hand the data over, run the enter action and save. The
     * Transit chain is left to the caller.
     */
    method OneHop(ghost reg: Registry, msg: Message, current: State, id: StateId)
      returns (next: State, err: Option<Error>, ghost events: seq<Event>, ok: bool)
      requires Valid() && reg == Registry() && current !in Repr && current.user.Some?
      requires current.id in states && id in states
      modifies current
      ensures var cur := old(current.Snap());
              fresh(next) && next.Lists() == reg[id].lists
              && current.Snap() == LeftBehind(reg, msg, cur, id) && current.Lists() == old(current.Lists())
              && (ok <==> LeaveResult(reg, msg, cur).err.None? && EnterResult(reg, msg, cur, id).err.None?)
              && (LeaveResult(reg, msg, cur).err.Some? ==>
                    next.Snap() == Cloned(reg, cur, id) && err == LeaveResult(reg, msg, cur).err
                    && events == LeaveEvents(reg, cur))
              && (LeaveResult(reg, msg, cur).err.None? ==> next.Snap() == EnteredState(reg, msg, cur, id))
              && (LeaveResult(reg, msg, cur).err.None? && EnterResult(reg, msg, cur, id).err.Some? ==>
                    err == EnterResult(reg, msg, cur, id).err
                    && events == LeaveEvents(reg, cur) + EnterEvents(reg, msg, cur, id))
              && (ok ==> events == HopEvents(reg, msg, cur, id)
                         && err == storage.save(Identifier(cur.user.value), next.id, next.data))
    {
      ghost var cur := current.Snap();
      var user := current.user.value;
      var key := Identifier(user);
      var currentNode := states[current.id];
      var nextNode := states[id];
      assert reg[id].snap == nextNode.state.Snap() && reg[id].lists == nextNode.state.Lists();
      next := nextNode.state.Clone(user);
      assert next.Snap() == Cloned(reg, cur, id);
      events := [];
      var leave := Acted(NoEffect, None);
      if currentNode.leave.Some? {
        leave := currentNode.leave.value(msg, current.Snap());
        Perform(current, leave.effect);
        events := [Left(current.id)];
      }
      assert leave == LeaveResult(reg, msg, cur) && events == LeaveEvents(reg, cur);
      if leave.err.Some? {
        return next, leave.err, events, false;
      }
      next.SetData(current.data);
      assert next.Snap() == Handed(reg, msg, cur, id);
      var enter := Acted(NoEffect, None);
      if nextNode.enter.Some? {
        enter := nextNode.enter.value(msg, next.Snap());
        events := events + [Entered(id, next.data)];
        Perform(next, enter.effect);
      }
      assert enter == EnterResult(reg, msg, cur, id);
      if enter.err.Some? {
        return next, enter.err, events, false;
      }
      assert next.Snap() == EnteredState(reg, msg, cur, id);
      assert events == LeaveEvents(reg, cur) + EnterEvents(reg, msg, cur, id);
      err := storage.save(key, next.id, next.data);
      events := events + [Saved(key, next.id, next.data)];
      ok := true;
    }

    /**
     * transit on state objects: the current state is the caller's clone,
     * never a registered one; `reg` is the registry as values.
     */
    method Transit(ghost reg: Registry, msg: Message, current: State, id: StateId, fuel: nat)
      returns (next: State?, err: Option<Error>, ghost events: seq<Event>)
      requires Valid() && reg == Registry() && current !in Repr && current.user.Some?
      modifies current
      ensures var h := TransitFrom(reg, storage, msg, old(current.Snap()), id, fuel);
              err == h.err && events == h.events
              && (next == null <==> h.next.None?)
              && (next != null ==> fresh(next) && next.Snap() == h.next.value && next.Lists() == reg[next.id].lists)
      ensures current.Snap() == LeftBehind(reg, msg, old(current.Snap()), id)
      ensures current.Lists() == old(current.Lists())
      decreases fuel
    {
      var key := Identifier(current.user.value);
      if current.id !in states {
        return null, Some(ErrCannotLoad(current.id, key)), [];
      }
      if id !in states {
        return null, Some(ErrCannotLoadNext(id, key)), [];
      }
      ghost var cur := current.Snap();
      var ok;
      next, err, events, ok := OneHop(reg, msg, current, id);
      ghost var left := current.Snap();
      if ok && next.chain.Some? && fuel == 0 {
        SingleHop(reg, storage, msg, cur, id, fuel);
        err := Some(ErrFuelExhausted);
      } else if ok && next.chain.Some? {
        ChainFollowed(reg, storage, msg, cur, id, fuel);
        RegistryFramed();
        ghost var more;
        next, err, more := Transit(reg, msg, next, next.chain.value, fuel - 1);
        events := events + more;
        assert current.Snap() == left;
      } else {
        SingleHop(reg, storage, msg, cur, id, fuel);
      }
    }

    /** doNext on state objects. */
    method DoNextStep(ghost reg: Registry, cur: State, msg: Message, fuel: nat)
      returns (next: State?, err: Option<Error>, ghost events: seq<Event>)
      requires Valid() && reg == Registry() && cur !in Repr && cur.user.Some? && cur.id in reg
      requires cur.Lists() == reg[cur.id].lists
      modifies cur
      ensures var h := DoNext(reg, storage, msg, old(cur.Snap()), fuel);
              err == h.err && events == h.events
              && (next == null <==> h.next.None?)
              && (next != null ==> fresh(next) && next.Snap() == h.next.value && next.Lists() == reg[next.id].lists)
    {
      var v := cur.Test(msg);
      if v.err.Some? {
        return null, v.err, [];
      }
      next, err, events := Transit(reg, msg, cur, v.next, fuel);
    }

    /**
     * The body of work between Load and Commit, for `user`: load, clone the
     * loaded state with the loaded data, doNext, and repeat while the state
     * reached asks for a retransit. Only fresh clones are changed.
     */
    method Serve(ghost reg: Registry, msg: Message, user: Recipient, fuel: nat, rounds: nat)
      returns (err: Option<Error>, ghost events: seq<Event>)
      requires Valid() && reg == Registry()
      ensures var o := WorkFrom(reg, storage, msg, user, fuel, rounds);
              err == o.err && events == o.events
    {
      var key := Identifier(user);
      var l := storage.load(key);
      if l.err.Some? {
        return l.err, [];
      }
      if l.sid !in states {
        return Some(ErrCannotLoad(l.sid, key)), [];
      }
      var cur := states[l.sid].state.Clone(user);
      cur.SetData(l.data);
      RegistryFramed();
      err, events := RunRounds(reg, cur, msg, fuel, rounds);
    }

    /** doNext on the loaded state, then the retransit loop. */
    method RunRounds(ghost reg: Registry, cur: State, msg: Message, fuel: nat, rounds: nat)
      returns (err: Option<Error>, ghost events: seq<Event>)
      requires Valid() && reg == Registry() && cur !in Repr && cur.user.Some? && cur.id in reg
      requires cur.Lists() == reg[cur.id].lists
      modifies cur
      ensures var o := Rounds(reg, storage, msg, old(cur.Snap()), fuel, rounds);
              err == o.err && events == o.events
    {
      RoundsStep(reg, storage, msg, cur.Snap(), fuel, rounds);
      var next;
      next, err, events := DoNextStep(reg, cur, msg, fuel);
      if err.Some? {
        return;
      }
      ghost var first := events;
      PrefixedTwice([], first, Continue(reg, storage, msg, next.Snap(), fuel, rounds));
      RegistryFramed();
      err, events := Rerun(reg, next, msg, fuel, rounds, first);
    }

    /**
     * The `for next.re()` loop of work: run doNext again while the state
     * reached asks for a retransit, at most `rounds` more times. `done` are
     * the events of the rounds before.
     */
    method Rerun(ghost reg: Registry, start: State, msg: Message, fuel: nat, rounds: nat, ghost done: seq<Event>)
      returns (err: Option<Error>, ghost events: seq<Event>)
      requires Valid() && reg == Registry() && start !in Repr && start.user.Some? && start.id in reg
      requires start.Lists() == reg[start.id].lists
      modifies start
      ensures var o := Prefixed(done, Continue(reg, storage, msg, old(start.Snap()), fuel, rounds));
              err == o.err && events == o.events
    {
      ghost var target := Prefixed(done, Continue(reg, storage, msg, start.Snap(), fuel, rounds));
      var next := start;
      var left := rounds;
      events := done;
      while next.retransit
        invariant next != null && next.user.Some? && next.id in reg && next.Lists() == reg[next.id].lists
        invariant (next == start || fresh(next)) && next !in Repr
        invariant unchanged(this) && unchanged(Repr)
        invariant target == Prefixed(events, Continue(reg, storage, msg, next.Snap(), fuel, left))
        decreases left
      {
        if left == 0 {
          return Some(ErrFuelExhausted), events;
        }
        RegistryFramed();
        next, err, events, left := Round(reg, next, msg, fuel, left, events, target);
        if err.Some? {
          return;
        }
      }
      err := None;
    }

    /** The registry reads only this machine and its states. */
    twostate lemma RegistryFramed()
      requires old(Valid()) && unchanged(this) && unchanged(old(Repr))
      ensures Valid() && Registry() == old(Registry())
    {
    }

    /**
     * One more pass of the retransit loop: doNext from a state that asked for
     * a retransit. `done` are the events so far, and `target` is what work
     * is to report: the pass keeps it equal to what the rest of the loop will
     * report after the events so far.
     */
    method Round(ghost reg: Registry, cur: State, msg: Message, fuel: nat, left: nat,
                 ghost done: seq<Event>, ghost target: Outcome)
      returns (next: State?, err: Option<Error>, ghost events: seq<Event>, rest: nat)
      requires Valid() && reg == Registry() && cur !in Repr && cur.user.Some? && cur.id in reg
      requires cur.Lists() == reg[cur.id].lists && cur.retransit && left > 0
      requires target == Prefixed(done, Continue(reg, storage, msg, cur.Snap(), fuel, left))
      modifies cur
      ensures rest < left
      ensures err.Some? ==> target == Outcome(err, false, events)
      ensures err.None? ==>
                next != null && fresh(next) && next.user == old(cur.user) && next.id in reg
                && next.Lists() == reg[next.id].lists
                && target == Prefixed(events, Continue(reg, storage, msg, next.Snap(), fuel, rest))
    {
      rest := left - 1;
      ghost var n := cur.Snap();
      RoundsStep(reg, storage, msg, n, fuel, left - 1);
      ghost var more;
      next, err, more := DoNextStep(reg, cur, msg, fuel);
      events := done + more;
      if err.None? {
        PrefixedTwice(done, more, Continue(reg, storage, msg, next.Snap(), fuel, left - 1));
      }
    }

    /**
     * work, for the message `m` that Begin handed out: the deferred Rollback
     * runs on every exit, and Commit only when every round succeeded.
     */
    method Work(m: MessageRef, fuel: nat, rounds: nat) returns (err: Option<Error>, ghost events: seq<Event>)
      requires Valid() && manager.Valid() && m in manager.queue
      modifies manager
      ensures manager.Valid()
      ensures var o := WorkFrom(old(Registry()), storage, m.msg, userOf(m.msg), fuel, rounds);
              err == o.err && events == o.events
              && manager.queue == (if o.committed then RemoveFirst(old(manager.queue), m) else old(manager.queue))
              && manager.qsize == old(manager.qsize) - (if o.committed then 1 else 0)
              && manager.runningUsers == old(manager.runningUsers) - {manager.Key(m)}
    {
      err, events := Serve(Registry(), m.msg, userOf(m.msg), fuel, rounds);
      if err.None? {
        manager.Commit(m);
      }
      manager.Rollback(m);
    }
  }

  /** An outcome with earlier events in front. */
  function Prefixed(events: seq<Event>, o: Outcome): Outcome {
    o.(events := events + o.events)
  }

  lemma PrefixedTwice(a: seq<Event>, b: seq<Event>, o: Outcome)
    ensures Prefixed(a, Prefixed(b, o)) == Prefixed(a + b, o)
  {
    assert a + (b + o.events) == (a + b) + o.events;
  }

  /** NewBySender: states belong to message senders. */
  method NewBySender(storage: Storage, size: int) returns (f: FSM)
    ensures fresh(f) && f.Valid() && f.userOf == BySender && f.storage == storage
    ensures f.Registry() == map[InitialState := Node(Fresh(InitialState), EmptyTables, None, None)]
  {
    f := new FSM(BySender, storage, size);
  }

  /** NewByChat: states belong to chats. */
  method NewByChat(storage: Storage, size: int) returns (f: FSM)
    ensures fresh(f) && f.Valid() && f.userOf == ByChat && f.storage == storage
    ensures f.Registry() == map[InitialState := Node(Fresh(InitialState), EmptyTables, None, None)]
  {
    f := new FSM(ByChat, storage, size);
  }
}
