/**
 * The lobby's join rules: join by code, click on a listed room (full,
 * private, public), the password prompt, and the row a created room
 * inserts. Room storage itself is outside the model: fetched rows arrive
 * as values and inserts are recorded.
 */
module Lobby {
  import opened Wrappers
  import opened Layout

  /** A row of the `rooms` table, as fetched. */
  datatype RoomRow = RoomRow(
    id: string, host_name: string, format: string, language: string,
    current_players: int, max_players: int, is_public: bool, password: Option<string>)

  /** The lobby's own view of a room. */
  datatype Room = Room(
    id: string, host: string, format: string, language: string,
    currentPlayers: int, maxPlayers: int, isPublic: bool, password: Option<string>)

  /** The mapping applied to each fetched row. */
  function ToRoom(r: RoomRow): Room
  {
    Room(r.id, r.host_name, r.format, r.language, r.current_players, r.max_players, r.is_public, r.password)
  }

  /** The database row named by each of a room's fields. */
  function ToRow(room: Room): RoomRow
  {
    RoomRow(room.id, room.host, room.format, room.language, room.currentPlayers, room.maxPlayers, room.isPublic, room.password)
  }

  /** The mapping renames the eight mapped columns one to one. */
  lemma RenamingIsBijective(r: RoomRow, room: Room)
    ensures ToRow(ToRoom(r)) == r && ToRoom(ToRow(room)) == room
  {
  }

  /** `data.map(...)` over the fetched rows. */
  function MapRows(rows: seq<RoomRow>): (rooms: seq<Room>)
    ensures |rooms| == |rows|
    ensures forall i :: 0 <= i < |rows| ==> ToRow(rooms[i]) == rows[i]
  {
    seq(|rows|, i requires 0 <= i < |rows| => ToRoom(rows[i]))
  }

  /** `room.currentPlayers >= room.maxPlayers`: no further player fits. */
  function IsFull(room: Room): (r: bool)
    ensures !r <==> room.currentPlayers + 1 <= room.maxPlayers
  {
    room.currentPlayers >= room.maxPlayers
  }

  /** The create-room form. */
  datatype RoomData = RoomData(
    name: string, format: string, description: string, isPublic: bool, language: string, timeLimit: int)

  datatype Settings = Settings(time_limit: int)

  /** The row `handleCreateRoom` inserts. */
  datatype NewRoom = NewRoom(
    host_name: string, format: string, language: string, is_public: bool,
    current_players: int, max_players: int, password: Option<string>, settings: Settings)

  datatype User = User(email: Option<string>)
  datatype Profile = Profile(username: Option<string>)

  /** `s.split('@')[0]`: the text before the first `@`, or all of `s`. */
  function BeforeAt(s: string): (r: string)
    ensures r <= s && '@' !in r
    ensures |r| < |s| ==> s[|r|] == '@'
  {
    if s == [] || s[0] == '@' then [] else [s[0]] + BeforeAt(s[1..])
  }

  /** `profile?.username || user.email?.split('@')[0] || 'Unknown'`. */
  function HostName(profile: Option<Profile>, user: User): (r: string)
    ensures r != ""
    ensures profile.Some? && Truthy(profile.value.username) ==> r == profile.value.username.value
    ensures !(profile.Some? && Truthy(profile.value.username)) && user.email.Some? && BeforeAt(user.email.value) != "" ==>
      r == BeforeAt(user.email.value)
    ensures !(profile.Some? && Truthy(profile.value.username)) && !(user.email.Some? && BeforeAt(user.email.value) != "") ==>
      r == "Unknown"
  {
    if profile.Some? && Truthy(profile.value.username) then profile.value.username.value
    else if user.email.Some? && BeforeAt(user.email.value) != "" then BeforeAt(user.email.value)
    else "Unknown"
  }

  /** The inserted row: one player of two, a fixed password for private rooms. */
  function NewRoomRow(hostName: string, data: RoomData): (r: NewRoom)
    ensures r.current_players == 1 && r.max_players == 2
    ensures r.password == None <==> data.isPublic
    ensures !data.isPublic ==> r.password == Some("123")
    ensures r.host_name == hostName && r.format == data.format && r.language == data.language
    ensures r.is_public == data.isPublic && r.settings.time_limit == data.timeLimit
  {
    NewRoom(hostName, data.format, data.language, data.isPublic, 1, 2,
            if data.isPublic then None else Some("123"), Settings(data.timeLimit))
  }

  /** A freshly created room has room for exactly one more player. */
  lemma NewRoomNotFull(hostName: string, data: RoomData, id: string)
    ensures var n := NewRoomRow(hostName, data);
      !IsFull(ToRoom(RoomRow(id, n.host_name, n.format, n.language, n.current_players, n.max_players, n.is_public, n.password)))
  {
  }

  datatype Alert = LoginRequired | LobbyFull | WrongPassword | CreateFailed

  const MOCK_ROOM_ID := "mock-room-id"

  class Lobby {
    const layout: LayoutContext
    var joinCode: string
    var isCreateModalOpen: bool
    var isPasswordPromptOpen: bool
    var selectedRoom: Option<Room>
    var passwordInput: string
    /** Rows handed to the `rooms` insert, in order. */
    var inserts: seq<NewRoom>
    /** Alerts shown, in order. */
    var alerts: seq<Alert>

    constructor (layout: LayoutContext)
      ensures this.layout == layout
      ensures joinCode == "" && !isCreateModalOpen && !isPasswordPromptOpen
      ensures selectedRoom == None && passwordInput == "" && inserts == [] && alerts == []
    {
      this.layout := layout;
      joinCode, isCreateModalOpen, isPasswordPromptOpen := "", false, false;
      selectedRoom, passwordInput, inserts, alerts := None, "", [], [];
    }

    /** The join-code input's `onChange`. */
    method TypeJoinCode(value: string)
      modifies this`joinCode
      ensures joinCode == value
    {
      joinCode := value;
    }

    /** The password input's `onChange`. */
    method TypePassword(value: string)
      modifies this`passwordInput
      ensures passwordInput == value
    {
      passwordInput := value;
    }

    /** The "+ Create Room" button. */
    method OpenCreateModal()
      modifies this`isCreateModalOpen
      ensures isCreateModalOpen
    {
      isCreateModalOpen := true;
    }

    /** The create modal's `onClose`. */
    method CloseCreateModal()
      modifies this`isCreateModalOpen
      ensures !isCreateModalOpen
    {
      isCreateModalOpen := false;
    }

    /** The password prompt's close and cancel buttons: the selection and input are kept. */
    method CancelPasswordPrompt()
      modifies this`isPasswordPromptOpen
      ensures !isPasswordPromptOpen
    {
      isPasswordPromptOpen := false;
    }

    /** `handleJoinGame`: an empty code joins the mock room. */
    method JoinGame()
      modifies layout`currentRoomId, layout`appView
      ensures layout.currentRoomId == Some(if joinCode == "" then MOCK_ROOM_ID else joinCode)
      ensures layout.appView == GameView
    {
      layout.currentRoomId := Some(if joinCode == "" then MOCK_ROOM_ID else joinCode);
      layout.appView := GameView;
    }

    /** `handleRoomClick`. */
    method RoomClick(room: Room)
      modifies this`selectedRoom, this`passwordInput, this`isPasswordPromptOpen, this`alerts
      modifies layout`currentRoomId, layout`appView
      ensures IsFull(room) ==>
        && alerts == old(alerts) + [LobbyFull]
        && selectedRoom == old(selectedRoom) && passwordInput == old(passwordInput)
        && isPasswordPromptOpen == old(isPasswordPromptOpen)
        && layout.currentRoomId == old(layout.currentRoomId) && layout.appView == old(layout.appView)
      ensures !IsFull(room) && !room.isPublic ==>
        && selectedRoom == Some(room) && passwordInput == "" && isPasswordPromptOpen
        && alerts == old(alerts)
        && layout.currentRoomId == old(layout.currentRoomId) && layout.appView == old(layout.appView)
      ensures !IsFull(room) && room.isPublic ==>
        && layout.currentRoomId == Some(room.id) && layout.appView == GameView
        && selectedRoom == old(selectedRoom) && passwordInput == old(passwordInput)
        && isPasswordPromptOpen == old(isPasswordPromptOpen) && alerts == old(alerts)
    {
      if room.currentPlayers >= room.maxPlayers {
        alerts := alerts + [LobbyFull];
        return;
      }
      if !room.isPublic {
        selectedRoom := Some(room);
        passwordInput := "";
        isPasswordPromptOpen := true;
      } else {
        layout.currentRoomId := Some(room.id);
        layout.appView := GameView;
      }
    }

    /** `handlePasswordSubmit`: join iff the input equals the selected room's password. */
    method PasswordSubmit()
      modifies this`isPasswordPromptOpen, this`alerts, layout`currentRoomId, layout`appView
      ensures var accepted := selectedRoom.Some? && selectedRoom.value.password == Some(passwordInput);
        && (accepted ==>
              && layout.currentRoomId == Some(selectedRoom.value.id) && layout.appView == GameView
              && !isPasswordPromptOpen && alerts == old(alerts))
        && (!accepted ==>
              && layout.currentRoomId == old(layout.currentRoomId) && layout.appView == old(layout.appView)
              && isPasswordPromptOpen == old(isPasswordPromptOpen) && alerts == old(alerts) + [WrongPassword])
    {
      if selectedRoom.Some? && selectedRoom.value.password == Some(passwordInput) {
        layout.currentRoomId := Some(selectedRoom.value.id);
        layout.appView := GameView;
        isPasswordPromptOpen := false;
      } else {
        alerts := alerts + [WrongPassword];
      }
    }

    /**
     * `handleCreateRoom`. `insertOk` is whether the datastore accepted the
     * insert; only then does the modal close.
     */
    method CreateRoom(user: Option<User>, profile: Option<Profile>, data: RoomData, insertOk: bool)
      modifies this`inserts, this`alerts, this`isCreateModalOpen
      ensures user.None? ==>
        inserts == old(inserts) && alerts == old(alerts) + [LoginRequired] && isCreateModalOpen == old(isCreateModalOpen)
      ensures user.Some? ==>
        && inserts == old(inserts) + [NewRoomRow(HostName(profile, user.value), data)]
        && (insertOk ==> !isCreateModalOpen && alerts == old(alerts))
        && (!insertOk ==> isCreateModalOpen == old(isCreateModalOpen) && alerts == old(alerts) + [CreateFailed])
    {
      if user.None? {
        alerts := alerts + [LoginRequired];
        return;
      }
      var hostName := HostName(profile, user.value);
      inserts := inserts + [NewRoomRow(hostName, data)];
      if insertOk {
        isCreateModalOpen := false;
      } else {
        alerts := alerts + [CreateFailed];
      }
    }

    /**
     * The create form's submit: `onCreate` (that is `handleCreateRoom`),
     * then `onClose` unconditionally, so the modal ends closed whether or
     * not there is a user and whether or not the insert succeeds.
     */
    method SubmitCreateForm(user: Option<User>, profile: Option<Profile>, data: RoomData, insertOk: bool)
      modifies this`inserts, this`alerts, this`isCreateModalOpen
      ensures !isCreateModalOpen
      ensures user.None? ==> inserts == old(inserts) && alerts == old(alerts) + [LoginRequired]
      ensures user.Some? ==>
        && inserts == old(inserts) + [NewRoomRow(HostName(profile, user.value), data)]
        && alerts == old(alerts) + (if insertOk then [] else [CreateFailed])
    {
      CreateRoom(user, profile, data, insertOk);
      CloseCreateModal();
    }
  }
}
