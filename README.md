# Lobby user record and client-connecting state, in Dafny

This project models two pieces of stateful logic in the Boss Room co-op sample
that sit above the Unity/Tashi networking stack:

- `LocalLobbyUser` (module `LobbyUsers`, `local_lobby_user.dfy`): a user record
  with four fields: host flag, display name, id and an optional Tashi
  address-book entry. Every setter writes and raises `changed` only when the
  value differs, and records that member's flag in `lastChanged`.
  `CopyDataFrom` diffs the whole record, ORs the flags of the differing members,
  does nothing when that OR is zero, and otherwise takes the whole record and
  notifies once. `ResetState` clears only the host flag.
  `GetDataForUnityServices` builds the player-data dictionary. The `changed`
  event is a log, `changedLog`, with one `Notification` per invocation. Each
  entry holds the record and the flags at that moment, for the model's own
  use. A handler receives only the user, and the flags field is private.
- `ClientConnectingState` (module `ConnectionManagement`,
  `client_connecting_state.dfy`): the connecting step of the client connection
  state machine. Its collaborators are small classes of abstract state:
  - `ConnectionManager` holds the current state, what `StartClient` returns,
    the disconnect reason, and the transport's address book and host key.
  - `ConnectStatusPublisher` holds the published statuses.
  - `LobbyServiceFacade` says whether a current lobby exists.
  - `LocalLobby` holds its users and the number of subscribed handlers.
  - `ConnectionMethod` says whether setup succeeds.

  A ghost trace `calls` records every call the state makes on a collaborator,
  in order. `JsonUtility.FromJson<ConnectStatus>` is the uninterpreted function
  value `decodeStatus`.

The flags enum keeps the source's values: `AddressBookEntry = 5`, which is
`IsHost | ID`. So an address-book-only change records the same flags as a
change of both the host flag and the id. `AddressBookEntryFlagAliases` and
`LastChangedIsAmbiguous` state this overlap. `DiffFlags` states exactly what
each bit of the recorded flags does and does not tell. Nothing in the class
reads `m_LastChanged` (LocalLobbyUser.cs:59): it is private, has no accessor,
and is only written. So inside this class the overlap has no visible effect.

Further facts about the code that the model keeps:
- `ClientConnectingState` has no generation counter and no at-most-once rule. A failed attempt
  runs the failure path, and a later `OnClientDisconnect` runs it again.
  `FailedAttemptThenDisconnectPublishesTwice` states this.
- The disconnect reason is decoded with no check of its own. `decodeStatus` is
  total.
- `OnLobbyChanged` does not filter out users whose only change is the display
  name. It pushes every user's entry on every call.
- `Exit` is empty, so it removes no subscription.

## Model

| member | source | states |
|---|---|---|
| LobbyUsers.LocalLobbyUser.constructor | Assets/Scripts/UnityServices/Lobbies/LocalLobbyUser.cs:19-22 | a new user is not host, has null display name, id and entry, no recorded flags and no notifications |
| LobbyUsers.LocalLobbyUser.ResetState | Assets/Scripts/UnityServices/Lobbies/LocalLobbyUser.cs:42-45 | only the host flag becomes false; name, id, entry, recorded flags and notification log are kept |
| LobbyUsers.LocalLobbyUser.SetIsHost | Assets/Scripts/UnityServices/Lobbies/LocalLobbyUser.cs:61-73 | equal value: nothing changes and nothing is notified; different value: only the host flag changes, flags become exactly IsHost (1), one notification; the getter then returns the value |
| LobbyUsers.LocalLobbyUser.SetDisplayName | Assets/Scripts/UnityServices/Lobbies/LocalLobbyUser.cs:75-87 | same as SetIsHost for the display name, flag DisplayName (2) |
| LobbyUsers.LocalLobbyUser.SetID | Assets/Scripts/UnityServices/Lobbies/LocalLobbyUser.cs:89-101 | same as SetIsHost for the id, flag ID (4) |
| LobbyUsers.LocalLobbyUser.SetAddressBookEntry | Assets/Scripts/UnityServices/Lobbies/LocalLobbyUser.cs:103-115 | same as SetIsHost for the entry, flag AddressBookEntry (5) |
| LobbyUsers.LocalLobbyUser.CopyDataFrom | Assets/Scripts/UnityServices/Lobbies/LocalLobbyUser.cs:117-135 | equal source record: no field, flags or notification change; otherwise all four fields become the source's, flags become the OR of the differing members' flags, exactly one notification |
| LobbyUsers.LocalLobbyUser.OnChanged | Assets/Scripts/UnityServices/Lobbies/LocalLobbyUser.cs:137-140 | one `changed` invocation, logged with the record and flags at that moment (the flags are recorded for the model only; nothing in the class reads them) |
| LobbyUsers.LocalLobbyUser.GetDataForUnityServices | Assets/Scripts/UnityServices/Lobbies/LocalLobbyUser.cs:142-168 | keys are exactly DisplayName when there is no entry, and exactly DisplayName, PublicKey, BoundAddress, BoundPort when there is one; each value comes from the matching field |
| LobbyUsers.DiffFlags | Assets/Scripts/UnityServices/Lobbies/LocalLobbyUser.cs:120-126 | the flags are zero iff the two records are equal; the DisplayName bit is set iff the names differ; the IsHost bit iff host flags or entries differ; the ID bit iff ids or entries differ; no other bit is set |
| LobbyUsers.AddressBookEntryFlagAliases | Assets/Scripts/UnityServices/Lobbies/LocalLobbyUser.cs:50-57 | the AddressBookEntry flag (5) is IsHost or ID and contains both |
| LobbyUsers.LastChangedIsAmbiguous | Assets/Scripts/UnityServices/Lobbies/LocalLobbyUser.cs:120-132 | an address-book-only diff and a host-plus-id diff record the same flags |
| LobbyUsers.CopiedFrom | Assets/Scripts/UnityServices/Lobbies/LocalLobbyUser.cs:117-135 | the state after a copy: unchanged when the records are equal, else the source record, the diff flags and one more notification |
| LobbyUsers.CopiedFromIdempotent | Assets/Scripts/UnityServices/Lobbies/LocalLobbyUser.cs:117-135 | copying the same record twice equals copying it once, with at most one notification in all |
| ConnectionManagement.ClientConnectingState.constructor | Assets/Scripts/ConnectionManagement/ConnectionState/ClientConnectingState.cs:15-22 | the state starts with no connection method, an empty trace and the given collaborators |
| ConnectionManagement.ClientConnectingState.Configure | Assets/Scripts/ConnectionManagement/ConnectionState/ClientConnectingState.cs:24-28 | stores the connection method and returns the same state object |
| ConnectionManagement.ClientConnectingState.Enter | Assets/Scripts/ConnectionManagement/ConnectionState/ClientConnectingState.cs:30-44 | runs the attempt's calls, then BeginTracking only when a current lobby exists, then always subscribes one lobby-changed handler; failure effects as in ConnectClient |
| ConnectionManagement.ClientConnectingState.Exit | Assets/Scripts/ConnectionManagement/ConnectionState/ClientConnectingState.cs:46 | changes nothing, so the handler stays subscribed and there are no calls |
| ConnectionManagement.ClientConnectingState.OnClientConnected | Assets/Scripts/ConnectionManagement/ConnectionState/ClientConnectingState.cs:48-52 | publishes exactly Success, then changes the state to ClientConnected |
| ConnectionManagement.ClientConnectingState.OnClientDisconnect | Assets/Scripts/ConnectionManagement/ConnectionState/ClientConnectingState.cs:54-58 | the failure path for every client id |
| ConnectionManagement.ClientConnectingState.StartingClientFailed | Assets/Scripts/ConnectionManagement/ConnectionState/ClientConnectingState.cs:60-73 | publishes once, then goes Offline; the status is StartClientFailed for a null or empty reason and the decoded reason otherwise |
| ConnectionManagement.ClientConnectingState.ConnectClient | Assets/Scripts/ConnectionManagement/ConnectionState/ClientConnectingState.cs:76-98 | the outcome is given by the configured method, setup and StartClient; the calls are setup, StartClient, scene callback on success, nothing published and no state change; a failure stops at the failing step, runs the failure path once, goes Offline and reports the error |
| ConnectionManagement.ClientConnectingState.OnLobbyChanged | Assets/Scripts/ConnectionManagement/ConnectionState/ClientConnectingState.cs:100-111 | the address book gains each user's entry (the default one when missing) in iteration order; the host key ends as HostKeyAfter the users; the trace holds exactly those transport calls |
| ConnectionManagement.AttemptOutcome | Assets/Scripts/ConnectionManagement/ConnectionState/ClientConnectingState.cs:78-97 | the attempt succeeds iff a method is configured, setup succeeds and StartClient returns true; it fails at StartClient iff only StartClient returned false |
| ConnectionManagement.AttemptCallsOrder | Assets/Scripts/ConnectionManagement/ConnectionState/ClientConnectingState.cs:78-97 | StartClient is called iff setup succeeded; the scene callback is registered iff the attempt succeeds; a success is exactly setup, StartClient, callback with no publish or state change; a failure publishes once and ends with publish then Offline |
| ConnectionManagement.FailedAttemptThenDisconnectPublishesTwice | Assets/Scripts/ConnectionManagement/ConnectionState/ClientConnectingState.cs:54-97 | a failed attempt followed by a disconnect callback publishes two statuses: nothing de-duplicates |
| ConnectionManagement.BookEntries | Assets/Scripts/ConnectionManagement/ConnectionState/ClientConnectingState.cs:103-105 | one entry per user, at the same position, the user's entry or the default one |
| ConnectionManagement.HostKeyNoHost | Assets/Scripts/ConnectionManagement/ConnectionState/ClientConnectingState.cs:106-109 | with no host user the host key is unchanged |
| ConnectionManagement.HostKeyLastHost | Assets/Scripts/ConnectionManagement/ConnectionState/ClientConnectingState.cs:106-109 | the host key ends as the last host user's key, null when that user has no entry |
| ConnectionManagement.HostKeyIdempotent | Assets/Scripts/ConnectionManagement/ConnectionState/ClientConnectingState.cs:103-110 | a second pass over the same users leaves the host key where the first put it |

## Left out

- Unity Services player-data objects and their visibility option. The values
  of `GetDataForUnityServices` carry the raw field they encode. Base64 of the
  DER key and the address and port `ToString` are not modelled.
- GetDataForUnityServices: the NullReferenceException the source raises for an
  entry whose key or address is null is not modelled. The value encodings where
  it would occur are left out.
- Equality of strings and entries is value equality. `Equals` on the boxed entry
  struct is taken to compare fields.
- `changed` is logged whether or not a handler is subscribed. The handlers
  themselves are not run.
- `ConnectStatus` and the manager's state objects are declared outside the core
  files. Only `Success`, `StartClientFailed`, `Offline`, `ClientConnecting` and
  `ClientConnected` are distinct. Other values are folded into `OtherStatus`
  and `OtherState`.
- Async and `Task` scheduling, exception objects and logging. `ConnectClient`
  runs to completion and returns the error that `ConnectClientAsync` re-raises.
  `Enter` runs the whole attempt before it begins tracking and subscribes. In
  the source, the part after the first `await` may run later.
- Enter: the re-raised error of the fire-and-forget attempt is dropped, as an
  unobserved task's is.
- A failure of the JSON decode is not modelled. `decodeStatus` is a total,
  otherwise unconstrained function.
- `ChangeState` only sets the current state. The manager's calls to `Exit` and
  `Enter` on the states are not part of this model.
- What the connection method's setup does besides succeeding or failing, what
  `StartClient` does besides returning, and the scene-loader singleton are not
  modelled. The trace records only that the scene callback was registered.
- `BeginTracking` internals, VContainer injection, and the transport cast in
  `OnLobbyChanged`. The cast failing for a non-Tashi transport is not modelled.
- `AddAddressBookEntry` is modelled as appending to a sequence. Any merging the
  real transport does is not part of this model.
- `OnLobbyChanged` reads the injected local lobby and ignores its `lobby`
  argument, as the source does.
- Races between the attempt and transport callbacks are not modelled. In this
  sequential model, callers interleave the handlers in any order.
