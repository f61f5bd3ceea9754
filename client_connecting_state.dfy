/**
 * The "client connecting" state of the connection state machine
 * (Assets/Scripts/ConnectionManagement/ConnectionState/ClientConnectingState.cs),
 * over abstract collaborators: the connection manager (current state), the
 * network manager (what StartClient returns, the disconnect reason), the Tashi
 * transport (address book, host public key), the status publisher, the lobby
 * service facade and the local lobby.
 */
module ConnectionManagement {
  import opened Wrappers
  import opened LobbyUsers

  /**
   * Connection outcomes. The enum is declared outside this file; the two
   * values named here are distinct constructors, every other one a code.
   */
  datatype ConnectStatus = Success | StartClientFailed | OtherStatus(code: nat)

  /** The connection manager's states that this state transitions to. */
  datatype ConnectionStateId = Offline | ClientConnecting | ClientConnected | OtherState

  /** Why `ConnectClientAsync` failed (the exception it re-raises). */
  datatype ConnectError =
    | NoConnectionMethod       // Configure was never called: null dereference
    | SetupFailed              // SetupClientConnectionAsync raised
    | StartClientReturnedFalse // "NetworkManager StartClient failed"

  datatype ConnectOutcome = Connected | Failed(error: ConnectError)

  /** A call this state makes on a collaborator, in the order it is made. */
  datatype Call =
    | SetupClientConnection
    | StartClient
    | AddOnSceneEventCallback
    | Publish(status: ConnectStatus)
    | ChangeState(target: ConnectionStateId)
    | BeginTracking
    | SubscribeLobbyChanged
    | AddAddressBookEntry(entry: AddressBookEntry)
    | SetHostPublicKey(key: Option<PublicKey>)

  /**
   * The status the failure path publishes: StartClientFailed for a null or
   * empty disconnect reason, otherwise the decoded reason.
   */
  function FailureStatus(reason: Option<string>, decode: string -> ConnectStatus): ConnectStatus {
    if reason == None || reason.value == "" then StartClientFailed else decode(reason.value)
  }

  /** The calls of the failure path: publish, then go Offline. */
  function FailureCalls(status: ConnectStatus): seq<Call> {
    [Publish(status), ChangeState(Offline)]
  }

  /** The result of a connection attempt, from whether a method is configured and how setup and start go. */
  function AttemptOutcome(hasMethod: bool, setupSucceeds: bool, startSucceeds: bool): (o: ConnectOutcome)
    ensures o == Connected <==> hasMethod && setupSucceeds && startSucceeds
    ensures o == Failed(StartClientReturnedFalse) <==> hasMethod && setupSucceeds && !startSucceeds
  {
    if !hasMethod then Failed(NoConnectionMethod)
    else if !setupSucceeds then Failed(SetupFailed)
    else if !startSucceeds then Failed(StartClientReturnedFalse)
    else Connected
  }

  /** The calls a connection attempt with outcome `o` makes, in order. */
  function AttemptCalls(o: ConnectOutcome, failure: ConnectStatus): seq<Call> {
    match o
    case Connected => [SetupClientConnection, StartClient, AddOnSceneEventCallback]
    case Failed(NoConnectionMethod) => FailureCalls(failure)
    case Failed(SetupFailed) => [SetupClientConnection] + FailureCalls(failure)
    case Failed(StartClientReturnedFalse) => [SetupClientConnection, StartClient] + FailureCalls(failure)
  }

  /** Number of publications in a call trace. */
  function PublishCount(calls: seq<Call>): (n: nat)
    ensures n <= |calls|
    ensures n == 0 <==> forall i :: 0 <= i < |calls| ==> !calls[i].Publish?
  {
    if calls == [] then 0 else PublishCount(calls[..|calls| - 1]) + (if calls[|calls| - 1].Publish? then 1 else 0)
  }

  lemma {:induction false} PublishCountAppend(a: seq<Call>, b: seq<Call>)
    ensures PublishCount(a + b) == PublishCount(a) + PublishCount(b)
    decreases |b|
  {
    if b == [] {
      assert a + b == a;
    } else {
      assert (a + b)[..|a + b| - 1] == a + b[..|b| - 1];
      PublishCountAppend(a, b[..|b| - 1]);
    }
  }

  /**
   * The order of a connection attempt: StartClient only after a successful
   * setup, the scene callback only after a successful start and only on
   * success; a failed attempt publishes exactly once and ends by going
   * Offline, a successful one publishes nothing and changes no state.
   */
  lemma AttemptCallsOrder(hasMethod: bool, setupSucceeds: bool, startSucceeds: bool, failure: ConnectStatus)
    ensures var o := AttemptOutcome(hasMethod, setupSucceeds, startSucceeds);
            var calls := AttemptCalls(o, failure);
            (StartClient in calls <==> hasMethod && setupSucceeds) &&
            (SetupClientConnection in calls <==> hasMethod) &&
            (AddOnSceneEventCallback in calls <==> o == Connected) &&
            (o == Connected ==> calls == [SetupClientConnection, StartClient, AddOnSceneEventCallback]) &&
            (o.Failed? ==> PublishCount(calls) == 1 && Publish(failure) in calls &&
                           calls[|calls| - 2..] == FailureCalls(failure)) &&
            (o == Connected ==> PublishCount(calls) == 0 && forall i :: 0 <= i < |calls| ==> !calls[i].ChangeState?)
  {
  }

  /** The entries a lobby-changed pass adds for users `us`: each user's entry, or the default one. */
  function BookEntries(us: seq<UserData>): (r: seq<AddressBookEntry>)
    ensures |r| == |us|
    ensures forall i :: 0 <= i < |us| ==> r[i] == us[i].addressBookEntry.GetOr(DefaultAddressBookEntry)
  {
    if us == [] then []
    else BookEntries(us[..|us| - 1]) + [us[|us| - 1].addressBookEntry.GetOr(DefaultAddressBookEntry)]
  }

  /** `user.AddressBookEntry?.PublicKey`: null when the user has no entry. */
  function KeyOf(u: UserData): Option<PublicKey> {
    match u.addressBookEntry
    case None => None
    case Some(e) => e.publicKey
  }

  /** The host public key after a pass over `us` starting from `key`: each host overwrites it. */
  function HostKeyAfter(key: Option<PublicKey>, us: seq<UserData>): Option<PublicKey> {
    if us == [] then key
    else if us[|us| - 1].isHost then KeyOf(us[|us| - 1])
    else HostKeyAfter(key, us[..|us| - 1])
  }

  /** With no host among `us`, the host key is left as it was. */
  lemma {:induction false} HostKeyNoHost(key: Option<PublicKey>, us: seq<UserData>)
    requires forall i :: 0 <= i < |us| ==> !us[i].isHost
    ensures HostKeyAfter(key, us) == key
  {
    if us != [] {
      HostKeyNoHost(key, us[..|us| - 1]);
    }
  }

  /** The host key ends as the key of the last host user, null when that user has no entry. */
  lemma {:induction false} HostKeyLastHost(key: Option<PublicKey>, us: seq<UserData>, j: nat)
    requires j < |us| && us[j].isHost
    requires forall i :: j < i < |us| ==> !us[i].isHost
    ensures HostKeyAfter(key, us) == KeyOf(us[j])
  {
    if j < |us| - 1 {
      HostKeyLastHost(key, us[..|us| - 1], j);
    }
  }

  /** A second pass over the same users leaves the host key where the first put it. */
  lemma {:induction false} HostKeyIdempotent(key: Option<PublicKey>, us: seq<UserData>)
    ensures HostKeyAfter(HostKeyAfter(key, us), us) == HostKeyAfter(key, us)
  {
    if us != [] && !us[|us| - 1].isHost {
      HostKeyIdempotent(key, us[..|us| - 1]);
    }
  }

  /** The transport calls a lobby-changed pass over `us` makes, in order. */
  function LobbyCalls(us: seq<UserData>): seq<Call> {
    if us == [] then []
    else
      var u := us[|us| - 1];
      LobbyCalls(us[..|us| - 1]) + [AddAddressBookEntry(u.addressBookEntry.GetOr(DefaultAddressBookEntry))] +
      (if u.isHost then [SetHostPublicKey(KeyOf(u))] else [])
  }

  /**
   * Nothing de-duplicates failure publications: a failed attempt followed by a
   * disconnect callback publishes twice and goes Offline twice.
   */
  lemma FailedAttemptThenDisconnectPublishesTwice(hasMethod: bool, setupSucceeds: bool, startSucceeds: bool,
                                                  failure: ConnectStatus)
    requires AttemptOutcome(hasMethod, setupSucceeds, startSucceeds).Failed?
    ensures PublishCount(AttemptCalls(AttemptOutcome(hasMethod, setupSucceeds, startSucceeds), failure) +
                         FailureCalls(failure)) == 2
  {
    var calls := AttemptCalls(AttemptOutcome(hasMethod, setupSucceeds, startSucceeds), failure);
    AttemptCallsOrder(hasMethod, setupSucceeds, startSucceeds, failure);
    PublishCountAppend(calls, FailureCalls(failure));
    assert FailureCalls(failure)[..1] == [Publish(failure)];
  }

  /** The records of `users`, in order. */
  function UsersData(users: seq<LocalLobbyUser>): (r: seq<UserData>)
    reads users
    ensures |r| == |users|
    ensures forall i :: 0 <= i < |users| ==> r[i] == users[i].userData
  {
    if users == [] then [] else UsersData(users[..|users| - 1]) + [users[|users| - 1].userData]
  }

  /** A connection method; what its client setup does is abstracted to whether it succeeds. */
  class ConnectionMethod {
    const setupSucceeds: bool

    constructor (setupSucceeds: bool)
      ensures this.setupSucceeds == setupSucceeds
    {
      this.setupSucceeds := setupSucceeds;
    }

    method SetupClientConnection() returns (ok: bool)
      ensures ok == setupSucceeds
    {
      ok := setupSucceeds;
    }
  }

  /** The connection manager with its network manager and Tashi transport. */
  class ConnectionManager {
    var current: ConnectionStateId
    /** What `NetworkManager.StartClient()` returns. */
    var startClientSucceeds: bool
    /** `NetworkManager.DisconnectReason`; `None` is null. */
    var disconnectReason: Option<string>
    /** The transport's address book, in the order entries were added. */
    var addressBook: seq<AddressBookEntry>
    var hostPublicKey: Option<PublicKey>

    constructor (startClientSucceeds: bool, disconnectReason: Option<string>)
      ensures current == ClientConnecting
      ensures this.startClientSucceeds == startClientSucceeds && this.disconnectReason == disconnectReason
      ensures addressBook == [] && hostPublicKey == None
    {
      current := ClientConnecting;
      this.startClientSucceeds := startClientSucceeds;
      this.disconnectReason := disconnectReason;
      addressBook := [];
      hostPublicKey := None;
    }
  }

  /** The connection status publisher: every published status, oldest first. */
  class ConnectStatusPublisher {
    var published: seq<ConnectStatus>

    constructor ()
      ensures published == []
    {
      published := [];
    }
  }

  class LobbyServiceFacade {
    /** Whether `CurrentUnityLobby` is non-null. */
    var hasCurrentLobby: bool

    constructor (hasCurrentLobby: bool)
      ensures this.hasCurrentLobby == hasCurrentLobby
    {
      this.hasCurrentLobby := hasCurrentLobby;
    }
  }

  class LocalLobby {
    /** `LobbyUsers.Values`, in the dictionary's iteration order. */
    var lobbyUsers: seq<LocalLobbyUser>
    /** How many `OnLobbyChanged` handlers are subscribed to `changed`. */
    var lobbyChangedHandlers: nat

    constructor (users: seq<LocalLobbyUser>)
      ensures lobbyUsers == users && lobbyChangedHandlers == 0
    {
      lobbyUsers := users;
      lobbyChangedHandlers := 0;
    }
  }

  class ClientConnectingState {
    var connectionMethod: ConnectionMethod?
    const manager: ConnectionManager
    const publisher: ConnectStatusPublisher
    const lobbyFacade: LobbyServiceFacade
    const localLobby: LocalLobby
    /** `JsonUtility.FromJson<ConnectStatus>`, left uninterpreted. */
    const decodeStatus: string -> ConnectStatus
    /** Every call made on a collaborator, in order. */
    ghost var calls: seq<Call>

    constructor (manager: ConnectionManager, publisher: ConnectStatusPublisher,
                 lobbyFacade: LobbyServiceFacade, localLobby: LocalLobby,
                 decodeStatus: string -> ConnectStatus)
      ensures connectionMethod == null && calls == []
      ensures this.manager == manager && this.publisher == publisher
      ensures this.lobbyFacade == lobbyFacade && this.localLobby == localLobby
      ensures this.decodeStatus == decodeStatus
    {
      connectionMethod := null;
      this.manager := manager;
      this.publisher := publisher;
      this.lobbyFacade := lobbyFacade;
      this.localLobby := localLobby;
      this.decodeStatus := decodeStatus;
      calls := [];
    }

    /** Stores the connection method and hands back this same state. */
    method Configure(baseConnectionMethod: ConnectionMethod) returns (r: ClientConnectingState)
      modifies this`connectionMethod
      ensures connectionMethod == baseConnectionMethod && r == this
    {
      connectionMethod := baseConnectionMethod;
      r := this;
    }

    /** Stands for `ConnectStatusPublisher.Publish`; it sits here because the `calls` trace lives here. */
    method Publish(status: ConnectStatus)
      modifies publisher, this`calls
      ensures publisher.published == old(publisher.published) + [status]
      ensures calls == old(calls) + [Call.Publish(status)]
    {
      publisher.published := publisher.published + [status];
      calls := calls + [Call.Publish(status)];
    }

    /** Stands for `ConnectionManager.ChangeState`; it sits here because the `calls` trace lives here. */
    method ChangeState(target: ConnectionStateId)
      modifies manager`current, this`calls
      ensures manager.current == target
      ensures calls == old(calls) + [Call.ChangeState(target)]
    {
      manager.current := target;
      calls := calls + [Call.ChangeState(target)];
    }

    /** The client is connected: publish Success, then move to ClientConnected. */
    method OnClientConnected(clientId: nat)
      modifies publisher, manager`current, this`calls
      ensures publisher.published == old(publisher.published) + [Success]
      ensures manager.current == ClientConnected
      ensures calls == old(calls) + [Call.Publish(Success), Call.ChangeState(ClientConnected)]
    {
      Publish(Success);
      ChangeState(ClientConnected);
    }

    /** The client was disconnected: the failure path, whatever the client id. */
    method OnClientDisconnect(clientId: nat)
      modifies publisher, manager`current, this`calls
      ensures publisher.published == old(publisher.published) + [FailureStatus(manager.disconnectReason, decodeStatus)]
      ensures manager.current == Offline
      ensures calls == old(calls) + FailureCalls(FailureStatus(manager.disconnectReason, decodeStatus))
    {
      StartingClientFailed();
    }

    /** The failure path: publish the status the disconnect reason gives, then go Offline. */
    method StartingClientFailed()
      modifies publisher, manager`current, this`calls
      ensures publisher.published == old(publisher.published) + [FailureStatus(manager.disconnectReason, decodeStatus)]
      ensures manager.current == Offline
      ensures calls == old(calls) + FailureCalls(FailureStatus(manager.disconnectReason, decodeStatus))
    {
      var disconnectReason := manager.disconnectReason;
      if disconnectReason == None || disconnectReason.value == "" {
        Publish(StartClientFailed);
      } else {
        var connectStatus := decodeStatus(disconnectReason.value);
        Publish(connectStatus);
      }
      ChangeState(Offline);
    }

    /**
     * The connection attempt: setup, then StartClient, then the scene
     * callback. Any failure runs the failure path once and is reported.
     */
    method ConnectClient() returns (outcome: ConnectOutcome)
      modifies publisher, manager`current, this`calls
      ensures outcome == AttemptOutcome(connectionMethod != null,
                                        connectionMethod != null && connectionMethod.setupSucceeds,
                                        manager.startClientSucceeds)
      ensures calls == old(calls) + AttemptCalls(outcome, FailureStatus(manager.disconnectReason, decodeStatus))
      ensures outcome.Failed? ==>
        manager.current == Offline &&
        publisher.published == old(publisher.published) + [FailureStatus(manager.disconnectReason, decodeStatus)]
      ensures outcome == Connected ==>
        manager.current == old(manager.current) && publisher.published == old(publisher.published)
    {
      if connectionMethod == null {
        StartingClientFailed();
        return Failed(NoConnectionMethod);
      }
      calls := calls + [SetupClientConnection];
      var setupOk := connectionMethod.SetupClientConnection();
      if !setupOk {
        StartingClientFailed();
        return Failed(SetupFailed);
      }
      calls := calls + [StartClient];
      if !manager.startClientSucceeds {
        StartingClientFailed();
        return Failed(StartClientReturnedFalse);
      }
      calls := calls + [AddOnSceneEventCallback];
      outcome := Connected;
    }

    /**
     * Launches the attempt (its outcome is dropped), begins lobby tracking
     * when there is a current lobby, and subscribes the lobby-changed handler.
     */
    method Enter()
      modifies publisher, manager`current, this`calls, localLobby`lobbyChangedHandlers
      ensures var o := AttemptOutcome(connectionMethod != null,
                                      connectionMethod != null && connectionMethod.setupSucceeds,
                                      manager.startClientSucceeds);
              calls == old(calls) + AttemptCalls(o, FailureStatus(manager.disconnectReason, decodeStatus)) +
                       (if lobbyFacade.hasCurrentLobby then [BeginTracking] else []) + [SubscribeLobbyChanged]
      ensures AttemptOutcome(connectionMethod != null,
                             connectionMethod != null && connectionMethod.setupSucceeds,
                             manager.startClientSucceeds).Failed? ==>
        manager.current == Offline &&
        publisher.published == old(publisher.published) + [FailureStatus(manager.disconnectReason, decodeStatus)]
      ensures AttemptOutcome(connectionMethod != null,
                             connectionMethod != null && connectionMethod.setupSucceeds,
                             manager.startClientSucceeds) == Connected ==>
        manager.current == old(manager.current) && publisher.published == old(publisher.published)
      ensures localLobby.lobbyChangedHandlers == old(localLobby.lobbyChangedHandlers) + 1
    {
      var _ := ConnectClient();
      if lobbyFacade.hasCurrentLobby {
        calls := calls + [BeginTracking];
      }
      localLobby.lobbyChangedHandlers := localLobby.lobbyChangedHandlers + 1;
      calls := calls + [SubscribeLobbyChanged];
    }

    /** Leaving this state does nothing; in particular the handler stays subscribed. */
    method Exit()
      ensures localLobby.lobbyChangedHandlers == old(localLobby.lobbyChangedHandlers)
      ensures calls == old(calls)
    {
    }

    /**
     * Pushes every lobby user's address-book entry (the default one when
     * missing) into the transport, in iteration order, and sets the host key
     * from each host user in turn.
     */
    method OnLobbyChanged(lobby: LocalLobby)
      modifies manager`addressBook, manager`hostPublicKey, this`calls
      ensures manager.addressBook == old(manager.addressBook) + BookEntries(UsersData(localLobby.lobbyUsers))
      ensures manager.hostPublicKey == HostKeyAfter(old(manager.hostPublicKey), UsersData(localLobby.lobbyUsers))
      ensures calls == old(calls) + LobbyCalls(UsersData(localLobby.lobbyUsers))
    {
      var users := localLobby.lobbyUsers;
      ghost var data := UsersData(users);
      var i := 0;
      while i < |users|
        invariant 0 <= i <= |users|
        invariant manager.addressBook == old(manager.addressBook) + BookEntries(data[..i])
        invariant manager.hostPublicKey == HostKeyAfter(old(manager.hostPublicKey), data[..i])
        invariant calls == old(calls) + LobbyCalls(data[..i])
      {
        var user := users[i];
        assert user.userData == data[i];
        assert data[..i + 1][..i] == data[..i];
        var entry := user.AddressBookEntry().GetOr(DefaultAddressBookEntry);
        manager.addressBook := manager.addressBook + [entry];
        calls := calls + [AddAddressBookEntry(entry)];
        if user.IsHost() {
          manager.hostPublicKey := KeyOf(user.userData);
          calls := calls + [SetHostPublicKey(manager.hostPublicKey)];
        }
        i := i + 1;
      }
      assert data[..i] == data;
    }
  }
}
