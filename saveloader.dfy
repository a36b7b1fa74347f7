/**
 * The default, memory based persistence of (state id, state data) per user.
 * Modelled on saveloader.go, which keys the store by an int user id.
 */
module SaveLoader {
  import opened Wrappers
  import opened States

  /** StateInitializer: the data of a user that was never saved. */
  type StateInitializer = int -> Data

  /** What Load answers: the state id, the data, and nil (None) or an error. */
  datatype Loaded = Loaded(sid: StateId, data: Data, err: Option<Error>)

  /**
   * Load on the two maps: the stored pair, or the zero state id (the initial
   * state) and the initialiser's data for an unseen uid.
   */
  function LoadFrom(data: map<int, Data>, state: map<int, StateId>, init: StateInitializer, uid: int): Loaded
  {
    Loaded(if uid in state then state[uid] else "",
           if uid in data then data[uid] else init(uid),
           None)
  }

  /** Loading right after saving gives back exactly what was saved, without error. */
  lemma LoadAfterSave(data: map<int, Data>, state: map<int, StateId>, init: StateInitializer,
                      uid: int, sid: StateId, d: Data)
    ensures LoadFrom(data[uid := d], state[uid := sid], init, uid) == Loaded(sid, d, None)
  {
  }

  /** Saving for one uid changes nothing that another uid loads. */
  lemma SaveLeavesOthers(data: map<int, Data>, state: map<int, StateId>, init: StateInitializer,
                         uid: int, sid: StateId, d: Data, other: int)
    requires other != uid
    ensures LoadFrom(data[uid := d], state[uid := sid], init, other) == LoadFrom(data, state, init, other)
  {
  }

  /** A uid never saved loads as the initial state with the initialiser's data. */
  lemma LoadUnseen(data: map<int, Data>, state: map<int, StateId>, init: StateInitializer, uid: int)
    requires uid !in data && uid !in state
    ensures LoadFrom(data, state, init, uid) == Loaded(InitialState, init(uid), None)
  {
  }

  /** A later save for the same uid replaces the earlier one entirely. */
  lemma SaveOverwrites(data: map<int, Data>, state: map<int, StateId>, init: StateInitializer,
                       uid: int, sid1: StateId, d1: Data, sid2: StateId, d2: Data)
    ensures LoadFrom(data[uid := d1][uid := d2], state[uid := sid1][uid := sid2], init, uid)
            == Loaded(sid2, d2, None)
  {
  }

  /** memoryStore: the two maps and the initialiser. */
  class MemoryStore {
    var data: map<int, Data>
    var state: map<int, StateId>
    const init: StateInitializer

    /** Both maps are always written together, so they have the same keys. */
    ghost predicate Valid()
      reads this
    {
      data.Keys == state.Keys
    }

    /** MemoryStore: two empty maps. */
    constructor (init: StateInitializer)
      ensures Valid() && data == map[] && state == map[] && this.init == init
    {
      data, state := map[], map[];
      this.init := init;
    }

    /** Save: overwrites the pair of `uid` only, and never fails. */
    method Save(uid: int, sid: StateId, d: Data) returns (err: Option<Error>)
      requires Valid()
      modifies this
      ensures Valid()
      ensures data == old(data)[uid := d] && state == old(state)[uid := sid]
      ensures err == None
    {
      data := data[uid := d];
      state := state[uid := sid];
      return None;
    }

    /** Load: reads only; the initialiser's value is handed out, not stored. */
    method Load(uid: int) returns (r: Loaded)
      ensures r == LoadFrom(data, state, init, uid)
      ensures r.err == None
      ensures uid !in data ==> r.data == init(uid)
      ensures uid !in state ==> r.sid == InitialState
    {
      var d := if uid in data then data[uid] else init(uid);
      var sid := if uid in state then state[uid] else "";
      return Loaded(sid, d, None);
    }
  }
}
