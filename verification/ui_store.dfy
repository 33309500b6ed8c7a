/**
 * The per-user UI state kept by `lib/storage/userState.ts`: one `UIState`
 * record per user, read whole and overwritten whole. The files behind it
 * are modelled as a map from user id to record; a user without a state
 * file has no entry.
 */
module UIStateStorage {
  import opened Wrappers
  import opened JsonValue

  /** `UIState`: the version used for optimistic locking, the owner, the tree and the time of the last change. */
  datatype UIState = UIState(version: int, userId: string, tree: Obj, lastModified: string)

  class UIStateStore {
    var states: map<string, UIState>

    constructor(initial: map<string, UIState>)
      ensures states == initial
    {
      states := initial;
    }

    /** `getUserUIState(userId)`: the stored record, or nothing (`null`) for a user without one. */
    function GetUserUIState(userId: string): (r: Option<UIState>)
      reads this
      ensures r.Some? <==> userId in states
      ensures r.Some? ==> r.value == states[userId]
    {
      if userId in states then Some(states[userId]) else None
    }

    /** `saveUserUIState(userId, state)`: overwrite the user's record. */
    method SaveUserUIState(userId: string, state: UIState)
      modifies this
      ensures states == old(states)[userId := state]
    {
      states := states[userId := state];
    }
  }
}
