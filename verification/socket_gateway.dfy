/**
 * The real-time gateway: the handshake middleware that turns connection
 * credentials into either a viewer session (bearer token) or a bus session
 * (API key), and the connect handler that puts viewers into their rooms and
 * lets a bus report its position to the live map.
 *
 * Token verification, the user lookup and the bus lookup are collaborators
 * whose behaviour is a parameter (`Directory`).
 */
module SocketGateway {
  import opened Maybe
  import Text

  datatype Role = Admin | Manager | Parent | Driver

  function RoleName(r: Role): string
  {
    match r
    case Admin => "Admin"
    case Manager => "Manager"
    case Parent => "Parent"
    case Driver => "Driver"
  }

  predicate IsOperator(r: Role)
  {
    r == Admin || r == Manager
  }

  type UserId = string
  type BusId = string

  datatype User = User(id: UserId, role: Role, isActive: bool)
  datatype Bus = Bus(id: BusId, apiKey: string)
  datatype Coords = Coords(latitude: real, longitude: real)

  /** What a database lookup gives: a document, nothing, or an exception. */
  datatype Lookup<T> = Found(value: T) | Missing | Threw

  /**
   * The collaborators of the handshake: `jwt.verify` (the user id in the
   * payload, or `None` when it throws), `User.findById` and
   * `Bus.findOne({apiKey})`.
   */
  datatype Directory = Directory(
    verifyToken: string -> Option<UserId>,
    findUserById: UserId -> Lookup<User>,
    findBusByApiKey: string -> Lookup<Bus>)

  datatype AuthError = TokenNotProvided | UserNotFoundOrInactive | InvalidToken | InvalidApiKey | InvalidCredentials

  /** Every handshake error is an `AppError` with status 401. */
  const Unauthorized: int := 401

  /** The error object the middleware passes to `next`. */
  datatype AppError = AppError(message: string, statusCode: int)

  function Message(e: AuthError): string
  {
    match e
    case TokenNotProvided => "Authentication error: Token not provided."
    case UserNotFoundOrInactive => "Authentication error: User not found or inactive."
    case InvalidToken => "Authentication error: Invalid token."
    case InvalidApiKey => "Authentication error: Invalid API Key."
    case InvalidCredentials => "Authentication error: Invalid credentials."
  }

  /** `new AppError(message, 401)` for a refusal; no two refusals share a message. */
  function ErrorFor(e: AuthError): (r: AppError)
    ensures r.statusCode == Unauthorized
    ensures forall e' :: e' != e ==> Message(e') != r.message
  {
    AppError(Message(e), Unauthorized)
  }

  /** Who a connection speaks for: a person watching, or a bus sending. */
  datatype Session = Viewer(user: User) | Device(bus: Bus)

  /** How the middleware ends: `next()` with a session, `next(error)`, or `next` never called. */
  datatype Verdict = Admit(session: Session) | Refuse(error: AuthError) | Hang

  // ---------------------------------------------------------------------------
  // The handshake

  const BearerPrefix: string := "Bearer "

  lemma BearerSplit(header: string)
    requires Text.StartsWith(header, BearerPrefix)
    ensures Text.Split(header, ' ') == ["Bearer"] + Text.Split(header[|BearerPrefix|..], ' ')
  {
    assert header == "Bearer" + [' '] + header[|BearerPrefix|..];
    Text.SplitAfter("Bearer", ' ', header[|BearerPrefix|..]);
  }

  /**
   * `authHeader.split(' ')[1]` when the header starts with "Bearer ", else
   * nothing: the word right after the prefix, up to the next space.
   */
  function BearerToken(header: string): (token: string)
    ensures ' ' !in token
    ensures token != [] ==>
      var n := |BearerPrefix + token|;
      Text.StartsWith(header, BearerPrefix + token) && (|header| == n || header[n] == ' ')
    ensures token == [] <==>
      !Text.StartsWith(header, BearerPrefix) || |header| == |BearerPrefix| || header[|BearerPrefix|] == ' '
  {
    if Text.StartsWith(header, BearerPrefix) then
      BearerSplit(header);
      Text.FirstPiece(header[|BearerPrefix|..], ' ');
      Text.Split(header, ' ')[1]
    else []
  }

  /**
   * The `io.use` middleware. A non-empty authorization header is always taken
   * first; only without one is a non-empty API key looked at.
   */
  function Authenticate(header: string, apiKey: string, dir: Directory): (v: Verdict)
    ensures v.Hang? <==> header == [] && apiKey == []
    ensures v.Admit? && v.session.Viewer? ==>
      header != [] && v.session.user.isActive &&
      dir.verifyToken(BearerToken(header)).Some? &&
      dir.findUserById(dir.verifyToken(BearerToken(header)).value) == Found(v.session.user)
    ensures v.Admit? && v.session.Device? ==>
      header == [] && apiKey != [] && dir.findBusByApiKey(apiKey) == Found(v.session.bus)
  {
    if header != [] then
      var token := BearerToken(header);
      if token == [] then Refuse(TokenNotProvided)
      else
        match dir.verifyToken(token)
        case None => Refuse(InvalidToken)
        case Some(id) =>
          match dir.findUserById(id)
          case Threw => Refuse(InvalidToken)
          case Missing => Refuse(UserNotFoundOrInactive)
          case Found(user) => if user.isActive then Admit(Viewer(user)) else Refuse(UserNotFoundOrInactive)
    else if apiKey != [] then
      match dir.findBusByApiKey(apiKey)
      case Threw => Refuse(InvalidCredentials)
      case Missing => Refuse(InvalidApiKey)
      case Found(bus) => Admit(Device(bus))
    else Hang
  }

  /** With a header present, neither the API key nor the bus lookup can change the outcome. */
  lemma HeaderTakesPrecedence(
    header: string, key1: string, key2: string,
    verify: string -> Option<UserId>, findUser: UserId -> Lookup<User>,
    findBus1: string -> Lookup<Bus>, findBus2: string -> Lookup<Bus>)
    requires header != []
    ensures Authenticate(header, key1, Directory(verify, findUser, findBus1))
         == Authenticate(header, key2, Directory(verify, findUser, findBus2))
    ensures !Authenticate(header, key1, Directory(verify, findUser, findBus1)).Admit?
         || Authenticate(header, key1, Directory(verify, findUser, findBus1)).session.Viewer?
  {
  }

  /** Each refusal happens exactly in the situation its message names. */
  lemma RefusalCauses(header: string, apiKey: string, dir: Directory)
    ensures var v := Authenticate(header, apiKey, dir);
      var token := BearerToken(header);
      (v == Refuse(TokenNotProvided) <==> header != [] && token == []) &&
      (v == Refuse(InvalidToken) <==>
        header != [] && token != [] &&
        (dir.verifyToken(token).None? || dir.findUserById(dir.verifyToken(token).value).Threw?)) &&
      (v == Refuse(UserNotFoundOrInactive) <==>
        header != [] && token != [] && dir.verifyToken(token).Some? &&
        var found := dir.findUserById(dir.verifyToken(token).value);
        found.Missing? || (found.Found? && !found.value.isActive)) &&
      (v == Refuse(InvalidApiKey) <==> header == [] && apiKey != [] && dir.findBusByApiKey(apiKey).Missing?) &&
      (v == Refuse(InvalidCredentials) <==> header == [] && apiKey != [] && dir.findBusByApiKey(apiKey).Threw?)
  {
  }

  // ---------------------------------------------------------------------------
  // Rooms

  const LiveMap: string := "live-map"
  const ReceiveNotification: string := "receive_notification"

  function UserRoom(id: UserId): string
  {
    "user:" + id
  }

  function RoleRoom(r: Role): string
  {
    "role:" + RoleName(r)
  }

  /** The rooms the connect handler puts a viewer in. */
  function ViewerRooms(u: User): set<string>
  {
    {UserRoom(u.id), RoleRoom(u.role)} + (if IsOperator(u.role) then {ReceiveNotification, LiveMap} else {})
  }

  /**
   * Every viewer is in its own user room and its role room; the operator
   * rooms `receive_notification` and `live-map` hold exactly the Admin and
   * Manager viewers, whatever their user id.
   */
  lemma ViewerRoomsByRole(u: User)
    ensures UserRoom(u.id) in ViewerRooms(u) && RoleRoom(u.role) in ViewerRooms(u)
    ensures LiveMap in ViewerRooms(u) <==> IsOperator(u.role)
    ensures ReceiveNotification in ViewerRooms(u) <==> IsOperator(u.role)
    ensures |ViewerRooms(u)| == if IsOperator(u.role) then 4 else 2
  {
    assert UserRoom(u.id)[0] == 'u';
    assert RoleRoom(u.role)[0] == 'r';
    assert LiveMap[0] == 'l' && ReceiveNotification[0] == 'r' && ReceiveNotification[1] == 'e';
    assert RoleRoom(u.role)[1] == 'o';
  }

  /** A bus document as `Bus.updateCurrentStatus` returns it after storing the position. */
  datatype BusSnapshot = BusSnapshot(id: BusId, location: Coords)

  /** One call of `Bus.updateCurrentStatus(busId, coords)`. */
  datatype StatusUpdate = StatusUpdate(busId: BusId, coords: Coords)

  /** One `io.to(room).emit(event, payload)`; the payload is `null` when the update found no bus. */
  datatype Broadcast = Broadcast(room: string, event: string, payload: Option<BusSnapshot>)

  /** A `gps-ping` payload; the bus id it carries is never trusted. */
  datatype GpsPing = GpsPing(busId: BusId, coords: Coords)

  /** The server side shared by all connections: the position updates requested of the bus store, and what was broadcast. */
  class Hub {
    var statusUpdates: seq<StatusUpdate>
    var outbox: seq<Broadcast>

    constructor ()
      ensures statusUpdates == [] && outbox == []
    {
      statusUpdates := [];
      outbox := [];
    }
  }

  /** One connection. */
  class Socket {
    var user: Option<User>
    var bus: Option<Bus>
    var rooms: set<string>
    /** Whether the connect handler registered a `gps-ping` listener. */
    var listensForGps: bool

    /** A connection is never both a viewer and a bus, and only a bus listens for pings. */
    ghost predicate Valid()
      reads this
    {
      !(user.Some? && bus.Some?) && (listensForGps ==> bus.Some?)
    }

    constructor ()
      ensures user == None && bus == None && rooms == {} && !listensForGps
    {
      user := None;
      bus := None;
      rooms := {};
      listensForGps := false;
    }

    /** The middleware on a fresh connection: sets `socket.user` or `socket.bus` on admission, nothing otherwise, and on refusal passes a 401 `AppError` to `next`. */
    method Handshake(header: string, apiKey: string, dir: Directory) returns (v: Verdict, error: Option<AppError>)
      requires user == None && bus == None && !listensForGps
      modifies this`user, this`bus
      ensures Valid()
      ensures v == Authenticate(header, apiKey, dir)
      ensures error == if v.Refuse? then Some(ErrorFor(v.error)) else None
      ensures user == (if v.Admit? && v.session.Viewer? then Some(v.session.user) else None)
      ensures bus == (if v.Admit? && v.session.Device? then Some(v.session.bus) else None)
    {
      v := Authenticate(header, apiKey, dir);
      error := if v.Refuse? then Some(ErrorFor(v.error)) else None;
      if v.Admit? {
        match v.session
        case Viewer(u) => user := Some(u);
        case Device(b) => bus := Some(b);
      }
    }

    /** The `connect` handler: a viewer joins its rooms; a bus joins none and starts listening for pings. */
    method Connect()
      requires Valid()
      modifies this`rooms, this`listensForGps
      ensures Valid()
      ensures user.Some? ==> rooms == old(rooms) + ViewerRooms(user.value) && listensForGps == old(listensForGps)
      ensures user.None? ==> rooms == old(rooms) && listensForGps == (old(listensForGps) || bus.Some?)
    {
      if user.Some? {
        var u := user.value;
        rooms := rooms + {UserRoom(u.id)};
        rooms := rooms + {RoleRoom(u.role)};
        if u.role == Admin || u.role == Manager {
          rooms := rooms + {ReceiveNotification};
          rooms := rooms + {LiveMap};
        }
      } else if bus.Some? {
        listensForGps := true;
      }
    }

    /**
     * The `gps-ping` listener: `Bus.updateCurrentStatus` is asked to store the
     * position under the id of the authenticated bus, never the id in the
     * payload. `updated` is what that call does for those arguments. When it
     * throws, nothing is broadcast; otherwise exactly one `bus-moved` carrying
     * the returned document (or `null`) goes to `live-map`. Without a listener
     * nothing happens.
     */
    method OnGpsPing(data: GpsPing, hub: Hub, updated: StatusUpdate -> Lookup<BusSnapshot>)
      requires Valid()
      modifies hub
      ensures listensForGps ==>
        var call := StatusUpdate(bus.value.id, data.coords);
        hub.statusUpdates == old(hub.statusUpdates) + [call] &&
        hub.outbox == old(hub.outbox) + match updated(call)
          case Threw => []
          case Missing => [Broadcast(LiveMap, "bus-moved", None)]
          case Found(doc) => [Broadcast(LiveMap, "bus-moved", Some(doc))]
      ensures !listensForGps ==> hub.statusUpdates == old(hub.statusUpdates) && hub.outbox == old(hub.outbox)
    {
      if listensForGps {
        var busId := bus.value.id;
        var call := StatusUpdate(busId, data.coords);
        hub.statusUpdates := hub.statusUpdates + [call];
        match updated(call)
        case Threw =>
        case Missing =>
          hub.outbox := hub.outbox + [Broadcast(LiveMap, "bus-moved", None)];
        case Found(updatedBus) =>
          hub.outbox := hub.outbox + [Broadcast(LiveMap, "bus-moved", Some(updatedBus))];
      }
    }
  }

  /**
   * A connection from handshake to `connect`: the connect handler runs only
   * when the middleware admitted the connection. A bus ends up in no room, a
   * viewer exactly in its rooms, and a refused or hanging connection has no
   * session at all.
   */
  method Open(header: string, apiKey: string, dir: Directory) returns (socket: Socket, v: Verdict)
    ensures fresh(socket) && socket.Valid()
    ensures v == Authenticate(header, apiKey, dir)
    ensures !v.Admit? ==> socket.user == None && socket.bus == None && socket.rooms == {}
    ensures v.Admit? && v.session.Viewer? ==>
      socket.user == Some(v.session.user) && socket.bus == None && socket.rooms == ViewerRooms(v.session.user) && !socket.listensForGps
    ensures v.Admit? && v.session.Device? ==>
      socket.bus == Some(v.session.bus) && socket.user == None && socket.rooms == {} && socket.listensForGps
  {
    socket := new Socket();
    var error;
    v, error := socket.Handshake(header, apiKey, dir);
    if v.Admit? {
      socket.Connect();
    }
  }
}
