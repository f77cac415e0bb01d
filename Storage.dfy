/**
 * The browser's local storage as the flow context and the signup form use it:
 * a map from keys to entries. The web client stores JSON text; here an entry is
 * already the typed value that text encodes (serialisation is not modelled).
 */
module Storage {

  /** The three flags of the user's journey, stored together under `user_flow_state`. */
  datatype FlowState = FlowState(hasPurpose: bool, hasPaid: bool, hasGeneratedReport: bool)

  /** The profile written under `user` when a signup succeeds. */
  datatype UserProfile = UserProfile(fullName: string, email: string, phone: string, idNumber: string)

  /** What an entry holds: a flag snapshot, a profile, or a payload the flow never looks into. */
  datatype Item =
    | FlowEntry(flags: FlowState)
    | UserEntry(profile: UserProfile)
    | Opaque(text: string)

  type Store = map<string, Item>

  const FlowStateKey: string := "user_flow_state"
  const ReportDataKey: string := "crb_report_data"
  const UserKey: string := "user"

  const AllFalse: FlowState := FlowState(false, false, false)

  /**
   * The flags a fresh provider starts from: the stored snapshot when there is one,
   * every flag false otherwise.
   */
  function LoadFlags(store: Store): (f: FlowState)
    ensures FlowStateKey !in store ==> f == AllFalse
    ensures forall s :: FlowStateKey in store && store[FlowStateKey] == FlowEntry(s) ==> f == s
  {
    if FlowStateKey in store && store[FlowStateKey].FlowEntry? then store[FlowStateKey].flags else AllFalse
  }

  /** Writing a snapshot and loading it back gives the same three flags, whatever else is stored. */
  lemma PersistThenLoad(store: Store, f: FlowState)
    ensures LoadFlags(store[FlowStateKey := FlowEntry(f)]) == f
  {
  }
}
