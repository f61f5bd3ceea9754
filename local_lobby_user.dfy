/**
 * The local lobby user record (Assets/Scripts/UnityServices/Lobbies/LocalLobbyUser.cs):
 * four fields, setters that write and notify only on an actual change, a
 * whole-record copy that records a flags value of the members that differed,
 * and the key set of the player data pushed to the lobby service.
 */
module LobbyUsers {
  import opened Wrappers

  /** A Tashi public key, kept as its opaque DER bytes. */
  type PublicKey = seq<bv8>

  /** An IP end point: address bytes and port. */
  datatype IPEndPoint = IPEndPoint(address: seq<bv8>, port: int)

  /**
   * Tashi's `AddressBookEntry` struct: a public key and a bound address. Both are
   * references in C#, so each may be null; the struct's default value has both null.
   */
  datatype AddressBookEntry = AddressBookEntry(publicKey: Option<PublicKey>, address: Option<IPEndPoint>)

  /** `default(AddressBookEntry)`, what `GetValueOrDefault()` yields for a missing entry. */
  const DefaultAddressBookEntry: AddressBookEntry := AddressBookEntry(None, None)

  /** The `UserData` struct; `None` stands for a null string or a null entry. */
  datatype UserData = UserData(
    isHost: bool,
    displayName: Option<string>,
    id: Option<string>,
    addressBookEntry: Option<AddressBookEntry>)

  /** The `[Flags] enum UserMembers`, with the source's underlying values. */
  type UserMembers = bv32

  const NoMembers: UserMembers := 0
  const IsHostFlag: UserMembers := 1
  const DisplayNameFlag: UserMembers := 2
  const IdFlag: UserMembers := 4
  /** Not a bit of its own: 5 is `IsHost | ID`. */
  const AddressBookEntryFlag: UserMembers := 5

  /** Whether every bit of `member` is set in `flags` (`flags.HasFlag(member)`). */
  predicate HasFlag(flags: UserMembers, member: UserMembers) {
    flags & member == member
  }

  /**
   * The flags `CopyDataFrom` computes: the OR of the flag of every member on
   * which `current` and `incoming` differ. It is zero exactly when nothing
   * differs; the display-name bit is set exactly when the display name differs,
   * while the IsHost and ID bits are also set by a differing address-book entry.
   */
  function DiffFlags(current: UserData, incoming: UserData): (flags: UserMembers)
    ensures flags == NoMembers <==> current == incoming
    ensures flags & DisplayNameFlag != 0 <==> current.displayName != incoming.displayName
    ensures flags & IsHostFlag != 0 <==>
      current.isHost != incoming.isHost || current.addressBookEntry != incoming.addressBookEntry
    ensures flags & IdFlag != 0 <==>
      current.id != incoming.id || current.addressBookEntry != incoming.addressBookEntry
    ensures flags & !7 == 0
  {
    (if current.isHost == incoming.isHost then 0 else IsHostFlag) |
    (if current.displayName == incoming.displayName then 0 else DisplayNameFlag) |
    (if current.id == incoming.id then 0 else IdFlag) |
    (if current.addressBookEntry == incoming.addressBookEntry then 0 else AddressBookEntryFlag)
  }

  /** The address-book flag is the union of the IsHost and ID flags. */
  lemma AddressBookEntryFlagAliases()
    ensures AddressBookEntryFlag == IsHostFlag | IdFlag
    ensures HasFlag(AddressBookEntryFlag, IsHostFlag) && HasFlag(AddressBookEntryFlag, IdFlag)
  {
  }

  /**
   * The recorded flags cannot tell an address-book-only change from a change
   * of both IsHost and ID: the two diffs below differ in which members changed
   * and yield the same flags.
   */
  lemma LastChangedIsAmbiguous(d: UserData, e: AddressBookEntry)
    requires d.addressBookEntry == None
    ensures var entryOnly := d.(addressBookEntry := Some(e));
            var hostAndId := d.(isHost := !d.isHost, id := if d.id == None then Some("") else None);
            entryOnly.isHost == d.isHost && entryOnly.id == d.id &&
            hostAndId.addressBookEntry == d.addressBookEntry &&
            DiffFlags(d, entryOnly) == DiffFlags(d, hostAndId) == AddressBookEntryFlag
  {
  }

  /**
   * One invocation of `changed`, logged with the record and the flags at that
   * moment. The flags are for the model's own use: `m_LastChanged` is private,
   * nothing in the class reads it, and a handler receives only the user.
   */
  datatype Notification = Notification(data: UserData, lastChanged: UserMembers)

  /** The state of a `LocalLobbyUser` (record, flags, notification log), as a value. */
  datatype UserState = UserState(data: UserData, lastChanged: UserMembers, log: seq<Notification>)

  /**
   * The state `CopyDataFrom` leaves: unchanged when `src` equals the current
   * record, otherwise `src` with the flags of the differing members and one
   * more notification.
   */
  function CopiedFrom(s: UserState, src: UserData): (r: UserState)
    ensures s.data == src ==> r == s
    ensures s.data != src ==>
      r.data == src && r.lastChanged == DiffFlags(s.data, src) &&
      r.log == s.log + [Notification(src, r.lastChanged)]
  {
    var flags := DiffFlags(s.data, src);
    if flags == NoMembers then s
    else UserState(src, flags, s.log + [Notification(src, flags)])
  }

  /** Copying the same record twice is the same as copying it once: one notification at most. */
  lemma CopiedFromIdempotent(s: UserState, src: UserData)
    ensures CopiedFrom(CopiedFrom(s, src), src) == CopiedFrom(s, src)
    ensures |CopiedFrom(CopiedFrom(s, src), src).log| <= |s.log| + 1
  {
  }

  /** Keys-to-values pushed to the lobby service; each value is the raw field it encodes. */
  datatype PlayerDataValue =
    | DisplayNameValue(name: Option<string>)
    | PublicKeyValue(key: Option<PublicKey>)
    | BoundAddressValue(endPoint: Option<IPEndPoint>)
    | BoundPortValue(endPoint: Option<IPEndPoint>)

  class LocalLobbyUser {
    var userData: UserData
    var lastChanged: UserMembers
    /** One entry per invocation of the `changed` event, oldest first. */
    var changedLog: seq<Notification>

    function State(): UserState
      reads this
    {
      UserState(userData, lastChanged, changedLog)
    }

    constructor ()
      ensures userData == UserData(false, None, None, None)
      ensures lastChanged == NoMembers && changedLog == []
    {
      userData := UserData(false, None, None, None);
      lastChanged := NoMembers;
      changedLog := [];
    }

    /** Clears the host flag only; no notification. */
    method ResetState()
      modifies this
      ensures userData == old(userData).(isHost := false)
      ensures lastChanged == old(lastChanged) && changedLog == old(changedLog)
    {
      userData := UserData(false, userData.displayName, userData.id, userData.addressBookEntry);
    }

    function IsHost(): bool
      reads this
    {
      userData.isHost
    }

    method SetIsHost(value: bool)
      modifies this
      ensures IsHost() == value
      ensures old(userData.isHost) == value ==>
        userData == old(userData) && lastChanged == old(lastChanged) && changedLog == old(changedLog)
      ensures old(userData.isHost) != value ==>
        userData == old(userData).(isHost := value) && lastChanged == IsHostFlag &&
        changedLog == old(changedLog) + [Notification(userData, IsHostFlag)]
    {
      if userData.isHost != value {
        userData := userData.(isHost := value);
        lastChanged := IsHostFlag;
        OnChanged();
      }
    }

    function DisplayName(): Option<string>
      reads this
    {
      userData.displayName
    }

    method SetDisplayName(value: Option<string>)
      modifies this
      ensures DisplayName() == value
      ensures old(userData.displayName) == value ==>
        userData == old(userData) && lastChanged == old(lastChanged) && changedLog == old(changedLog)
      ensures old(userData.displayName) != value ==>
        userData == old(userData).(displayName := value) && lastChanged == DisplayNameFlag &&
        changedLog == old(changedLog) + [Notification(userData, DisplayNameFlag)]
    {
      if userData.displayName != value {
        userData := userData.(displayName := value);
        lastChanged := DisplayNameFlag;
        OnChanged();
      }
    }

    function ID(): Option<string>
      reads this
    {
      userData.id
    }

    method SetID(value: Option<string>)
      modifies this
      ensures ID() == value
      ensures old(userData.id) == value ==>
        userData == old(userData) && lastChanged == old(lastChanged) && changedLog == old(changedLog)
      ensures old(userData.id) != value ==>
        userData == old(userData).(id := value) && lastChanged == IdFlag &&
        changedLog == old(changedLog) + [Notification(userData, IdFlag)]
    {
      if userData.id != value {
        userData := userData.(id := value);
        lastChanged := IdFlag;
        OnChanged();
      }
    }

    function AddressBookEntry(): Option<AddressBookEntry>
      reads this
    {
      userData.addressBookEntry
    }

    method SetAddressBookEntry(value: Option<AddressBookEntry>)
      modifies this
      ensures AddressBookEntry() == value
      ensures old(userData.addressBookEntry) == value ==>
        userData == old(userData) && lastChanged == old(lastChanged) && changedLog == old(changedLog)
      ensures old(userData.addressBookEntry) != value ==>
        userData == old(userData).(addressBookEntry := value) && lastChanged == AddressBookEntryFlag &&
        changedLog == old(changedLog) + [Notification(userData, AddressBookEntryFlag)]
    {
      if userData.addressBookEntry != value {
        userData := userData.(addressBookEntry := value);
        lastChanged := AddressBookEntryFlag;
        OnChanged();
      }
    }

    /**
     * Takes over `lobby`'s record when it differs from this one, recording the
     * flags of the differing members and notifying once; otherwise does nothing.
     */
    method CopyDataFrom(lobby: LocalLobbyUser)
      modifies this
      ensures State() == CopiedFrom(old(State()), old(lobby.userData))
      ensures old(userData) == old(lobby.userData) ==>
        userData == old(userData) && lastChanged == old(lastChanged) && changedLog == old(changedLog)
      ensures old(userData) != old(lobby.userData) ==>
        userData == old(lobby.userData) &&
        lastChanged == DiffFlags(old(userData), old(lobby.userData)) &&
        changedLog == old(changedLog) + [Notification(userData, lastChanged)]
    {
      var data := lobby.userData;
      var flags := DiffFlags(userData, data);
      if flags == NoMembers {
        return;
      }
      userData := data;
      lastChanged := flags;
      OnChanged();
    }

    /** Invokes `changed` with this user. */
    method OnChanged()
      modifies this`changedLog
      ensures changedLog == old(changedLog) + [Notification(userData, lastChanged)]
    {
      changedLog := changedLog + [Notification(userData, lastChanged)];
    }

    /**
     * The player data for the lobby service: always the display name, and the
     * public key, bound address and bound port exactly when an address-book
     * entry is present.
     */
    method GetDataForUnityServices() returns (result: map<string, PlayerDataValue>)
      ensures "DisplayName" in result && result["DisplayName"] == DisplayNameValue(userData.displayName)
      ensures userData.addressBookEntry.None? ==> result.Keys == {"DisplayName"}
      ensures userData.addressBookEntry.Some? ==>
        result.Keys == {"DisplayName", "PublicKey", "BoundAddress", "BoundPort"} &&
        result["PublicKey"] == PublicKeyValue(userData.addressBookEntry.value.publicKey) &&
        result["BoundAddress"] == BoundAddressValue(userData.addressBookEntry.value.address) &&
        result["BoundPort"] == BoundPortValue(userData.addressBookEntry.value.address)
    {
      result := map["DisplayName" := DisplayNameValue(DisplayName())];
      if AddressBookEntry().Some? {
        var entry := AddressBookEntry().value;
        // Dictionary.Add would throw on a key already present; none is.
        assert "PublicKey" !in result;
        result := result["PublicKey" := PublicKeyValue(entry.publicKey)];
        assert "BoundAddress" !in result;
        result := result["BoundAddress" := BoundAddressValue(entry.address)];
        assert "BoundPort" !in result;
        result := result["BoundPort" := BoundPortValue(entry.address)];
      }
    }
  }
}
