/** The chat server: the in-memory room (members keyed by connection id, the
    message log, the names currently typing), the five socket handlers that
    update it, the retention job, and the upload endpoint with its error
    handler. What a handler emits is returned as a list of events, each with
    the audience Socket.IO delivers it to. */
module Server {
  import opened ChatTypes
  import opened JsString
  import OrderedSet
  import opened Retention

  /** socket.emit (the requesting connection), socket.broadcast.emit (every
      other connection) and io.emit (every connection). */
  datatype Audience = ToSelf | ToOthers | ToAll

  datatype Payload =
    | RoomFull
    | JoinSuccess(user: User, recent: seq<Message>)
    | UserJoined(joined: User)
    | UsersUpdate(members: map<string, User>)
    | NewMessage(message: Message)
    | TypingUpdate(names: seq<string>)
    | UserLeft(left: User)

  datatype Event = Event(audience: Audience, payload: Payload)

  class Room {
    /** users: connection id to member */
    var users: map<string, User>
    /** messages: the log, oldest first */
    var messages: seq<Message>
    /** typingUsers: a Set of display names, in insertion order */
    var typingUsers: seq<string>

    /** At most MaxUsers members, each stored under its own id, and no name
        twice in the typing set. */
    ghost predicate Valid()
      reads this
    {
      && |users| <= MaxUsers
      && (forall id :: id in users ==> users[id].id == id)
      && OrderedSet.Distinct(typingUsers)
    }

    constructor ()
      ensures Valid()
      ensures users == map[] && messages == [] && typingUsers == []
    {
      users := map[];
      messages := [];
      typingUsers := [];
    }

    /** getRecentMessages: the logged messages newer than the cutoff, oldest
        first. */
    function RecentMessages(cutoff: int): (recent: seq<Message>)
      reads this
      ensures forall m :: m in recent <==> m in messages && m.timestamp > cutoff
      ensures |recent| <= |messages|
    {
      KeepRecent(messages, cutoff)
    }

    /** The 'join' handler. A full room answers room-full to the requester
        only and changes nothing. Otherwise the member, with its name trimmed,
        is stored under the connection id (a second join from the same
        connection replaces the entry, so the room does not grow), the
        requester gets the recent messages, the others hear of the new member
        and everyone gets the member list. */
    method Join(conn: string, displayName: string, now: int, cutoff: int) returns (events: seq<Event>)
      requires Valid()
      modifies this
      ensures Valid()
      ensures old(|users|) >= MaxUsers ==>
        && events == [Event(ToSelf, RoomFull)]
        && users == old(users) && messages == old(messages) && typingUsers == old(typingUsers)
      ensures old(|users|) < MaxUsers ==>
        var user := User(conn, Trim(displayName), now);
        && users == old(users)[conn := user]
        && |users| == (if conn in old(users) then old(|users|) else old(|users|) + 1)
        && messages == old(messages) && typingUsers == old(typingUsers)
        && events == [Event(ToSelf, JoinSuccess(user, KeepRecent(messages, cutoff))),
                      Event(ToOthers, UserJoined(user)),
                      Event(ToAll, UsersUpdate(users))]
    {
      if |users| >= MaxUsers {
        events := [Event(ToSelf, RoomFull)];
        return;
      }
      var user := User(conn, Trim(displayName), now);
      users := users[conn := user];
      var recent := RecentMessages(cutoff);
      events := [Event(ToSelf, JoinSuccess(user, recent)),
                 Event(ToOthers, UserJoined(user)),
                 Event(ToAll, UsersUpdate(users))];
    }

    /** The 'message' and 'file-message' handlers. A connection that has not
        joined is ignored. Otherwise one message, carrying the sender's id
        and current display name, is appended to the log and sent to
        everyone, the sender included. */
    method Post(conn: string, body: Body, msgId: string, now: int) returns (events: seq<Event>)
      requires Valid()
      modifies this
      ensures Valid()
      ensures conn !in old(users) ==>
        events == [] && users == old(users) && messages == old(messages) && typingUsers == old(typingUsers)
      ensures conn in old(users) ==>
        var m := Message(msgId, conn, old(users)[conn].displayName, now, body);
        && messages == old(messages) + [m]
        && users == old(users) && typingUsers == old(typingUsers)
        && events == [Event(ToAll, NewMessage(m))]
    {
      if conn !in users {
        events := [];
        return;
      }
      var m := Message(msgId, conn, users[conn].displayName, now, body);
      messages := messages + [m];
      events := [Event(ToAll, NewMessage(m))];
    }

    /** The 'typing' handler. A connection that has not joined is ignored.
        Otherwise the sender's display name is added to (or deleted from) the
        typing set and the new set goes to everyone but the sender. */
    method Typing(conn: string, isTyping: bool) returns (events: seq<Event>)
      requires Valid()
      modifies this
      ensures Valid()
      ensures conn !in old(users) ==>
        events == [] && users == old(users) && messages == old(messages) && typingUsers == old(typingUsers)
      ensures conn in old(users) ==>
        var name := old(users)[conn].displayName;
        && typingUsers == (if isTyping then OrderedSet.Add(old(typingUsers), name)
                           else OrderedSet.Delete(old(typingUsers), name))
        && users == old(users) && messages == old(messages)
        && events == [Event(ToOthers, TypingUpdate(typingUsers))]
    {
      if conn !in users {
        events := [];
        return;
      }
      var name := users[conn].displayName;
      if isTyping {
        typingUsers := OrderedSet.Add(typingUsers, name);
      } else {
        typingUsers := OrderedSet.Delete(typingUsers, name);
      }
      events := [Event(ToOthers, TypingUpdate(typingUsers))];
    }

    /** The 'disconnect' handler. For a member, the entry and its display name
        in the typing set go in one step; the others hear who left, and
        everyone gets the member list and the typing set. An unknown
        connection changes nothing and emits nothing. */
    method Disconnect(conn: string) returns (events: seq<Event>)
      requires Valid()
      modifies this
      ensures Valid()
      ensures conn !in old(users) ==>
        events == [] && users == old(users) && messages == old(messages) && typingUsers == old(typingUsers)
      ensures conn in old(users) ==>
        var user := old(users)[conn];
        && users == old(users) - {conn}
        && |users| == old(|users|) - 1
        && typingUsers == OrderedSet.Delete(old(typingUsers), user.displayName)
        && user.displayName !in typingUsers
        && messages == old(messages)
        && events == [Event(ToOthers, UserLeft(user)),
                      Event(ToAll, UsersUpdate(users)),
                      Event(ToAll, TypingUpdate(typingUsers))]
    {
      if conn !in users {
        events := [];
        return;
      }
      var user := users[conn];
      users := users - {conn};
      typingUsers := OrderedSet.Delete(typingUsers, user.displayName);
      events := [Event(ToOthers, UserLeft(user)),
                 Event(ToAll, UsersUpdate(users)),
                 Event(ToAll, TypingUpdate(typingUsers))];
    }

    /** The message half of the daily cleanup job: the log keeps only the
        messages newer than the cutoff; the result is how many were dropped. */
    method DailyCleanup(cutoff: int) returns (removed: nat)
      requires Valid()
      modifies this
      ensures Valid()
      ensures messages == KeepRecent(old(messages), cutoff)
      ensures removed == old(|messages|) - |messages|
      ensures removed == 0 <==> forall i :: 0 <= i < old(|messages|) ==> old(messages)[i].timestamp > cutoff
      ensures users == old(users) && typingUsers == old(typingUsers)
    {
      var initial := |messages|;
      messages := KeepRecent(messages, cutoff);
      removed := initial - |messages|;
    }
  }

  /** The file part of a multipart POST /upload, as the browser sent it. */
  datatype FilePart = FilePart(field: string, originalName: string, size: nat, mimetype: string)

  /** The file as multer stored it: its name on disk is the fresh id, a dash
      and the original name. */
  datatype StoredFile = StoredFile(filename: string, originalName: string, size: nat, mimetype: string)

  /** Errors that reach the Express error handler. */
  datatype UploadError = MulterError(code: string) | OtherError

  datatype ResponseBody = ErrorBody(error: string) | InfoBody(info: FileInfo)

  datatype Response = Response(status: nat, body: ResponseBody)

  /** upload.single('file') with the 100 MiB limit and the disk storage's
      file name: a part in another field or a larger part is an error, no
      part at all leaves req.file unset. */
  function Multer(part: Option<FilePart>, storeId: string): (r: Result<Option<StoredFile>, UploadError>)
    ensures part.None? ==> r == Success(None)
    ensures part.Some? && part.value.field == "file" && part.value.size > FileSizeLimit ==>
      r == Failure(MulterError("LIMIT_FILE_SIZE"))
    ensures r.Success? && r.value.Some? ==>
      && part.Some? && part.value.field == "file" && part.value.size <= FileSizeLimit
      && r.value.value.filename == storeId + "-" + part.value.originalName
      && r.value.value.originalName == part.value.originalName
      && r.value.value.size == part.value.size
  {
    match part
    case None => Success(None)
    case Some(p) =>
      if p.field != "file" then Failure(MulterError("LIMIT_UNEXPECTED_FILE"))
      else if p.size > FileSizeLimit then Failure(MulterError("LIMIT_FILE_SIZE"))
      else Success(Some(StoredFile(storeId + "-" + p.originalName, p.originalName, p.size, p.mimetype)))
  }

  /** The POST /upload route handler: 400 without a file, otherwise the
      file's metadata with the url it is served from. */
  function UploadRoute(file: Option<StoredFile>, infoId: string, now: int): (res: Response)
    ensures file.None? <==> res.status == 400
    ensures file.None? ==> res.body == ErrorBody("No file uploaded")
    ensures file.Some? ==>
      && res.status == 200 && res.body.InfoBody?
      && res.body.info.filename == file.value.filename
      && res.body.info.url == "/uploads/" + file.value.filename
  {
    match file
    case None => Response(400, ErrorBody("No file uploaded"))
    case Some(f) =>
      Response(200, InfoBody(FileInfo(infoId, f.filename, f.originalName, f.size, f.mimetype, now,
                                      "/uploads/" + f.filename)))
  }

  /** The Express error handler: a size-limit error from multer is a 400,
      anything else a 500. */
  function HandleError(e: UploadError): (res: Response)
    ensures res.status == 400 <==> e == MulterError("LIMIT_FILE_SIZE")
    ensures res.status == 400 || res.status == 500
    ensures res.body.ErrorBody?
  {
    if e.MulterError? && e.code == "LIMIT_FILE_SIZE" then
      Response(400, ErrorBody("File too large. Maximum size is 100MB."))
    else
      Response(500, ErrorBody("Internal server error"))
  }

  /** POST /upload end to end: multer, then the route or the error handler.
      A file of at most 100 MiB is stored and described, with the url
      "/uploads/<id>-<original name>"; a larger one is refused with 400. */
  function PostUpload(part: Option<FilePart>, storeId: string, infoId: string, now: int): (res: Response)
    ensures part.None? ==> res == Response(400, ErrorBody("No file uploaded"))
    ensures part.Some? && part.value.field == "file" ==>
      (res.status == 200 <==> part.value.size <= FileSizeLimit)
    ensures part.Some? && part.value.field == "file" && part.value.size > FileSizeLimit ==>
      res == Response(400, ErrorBody("File too large. Maximum size is 100MB."))
    ensures part.Some? && part.value.field != "file" ==> res.status == 500
    ensures res.status == 200 ==>
      && part.Some? && res.body.InfoBody?
      && res.body.info.id == infoId
      && res.body.info.originalName == part.value.originalName
      && res.body.info.size == part.value.size <= FileSizeLimit
      && res.body.info.url == "/uploads/" + storeId + "-" + part.value.originalName
  {
    match Multer(part, storeId)
    case Success(file) => UploadRoute(file, infoId, now)
    case Failure(e) => HandleError(e)
  }

  /** The original name is what follows the fixed prefix, the id and the dash
      in the url of an upload. */
  lemma UploadUrlEndsWithName(part: FilePart, storeId: string, infoId: string, now: int)
    requires part.field == "file" && part.size <= FileSizeLimit
    ensures var res := PostUpload(Some(part), storeId, infoId, now);
      && res.status == 200
      && res.body.info.url[|"/uploads/"| + |storeId| + 1..] == part.originalName
  {
    var res := PostUpload(Some(part), storeId, infoId, now);
    assert res.body.info.url == "/uploads/" + storeId + "-" + part.originalName;
  }

  /** A fresh room joined by each connection in turn, all of them distinct
      and no more than the room holds. */
  method FillRoom(conns: seq<string>, names: seq<string>, now: int, cutoff: int) returns (room: Room)
    requires |conns| == |names| <= MaxUsers
    requires OrderedSet.Distinct(conns)
    ensures fresh(room) && room.Valid()
    ensures |room.users| == |conns|
  {
    room := new Room();
    var i := 0;
    while i < |conns|
      invariant 0 <= i <= |conns|
      invariant fresh(room) && room.Valid()
      invariant |room.users| == i
      invariant forall j :: i <= j < |conns| ==> conns[j] !in room.users
    {
      var _ := room.Join(conns[i], names[i], now, cutoff);
      i := i + 1;
    }
  }

  /** Four members join; a fifth connection is answered room-full alone, so
      the four members receive no users-update, and the room stays at four. */
  method FifthJoinRefused(conns: seq<string>, names: seq<string>, fifth: string, now: int, cutoff: int)
    returns (events: seq<Event>, size: nat)
    requires |conns| == 4 && |names| == 4
    requires OrderedSet.Distinct(conns)
    ensures events == [Event(ToSelf, RoomFull)]
    ensures size == MaxUsers
  {
    var room := FillRoom(conns, names, now, cutoff);
    events := room.Join(fifth, names[0], now, cutoff);
    size := |room.users|;
  }

  /** A fresh room where Alice has joined and said "hi". */
  method AliceSaysHi(alice: string, msgId: string, now: int, cutoff: int) returns (room: Room, posted: seq<Event>)
    ensures fresh(room) && room.Valid()
    ensures room.users == map[alice := User(alice, "Alice", now)]
    ensures room.messages == [Message(msgId, alice, "Alice", now, Text("hi"))]
    ensures posted == [Event(ToAll, NewMessage(Message(msgId, alice, "Alice", now, Text("hi"))))]
  {
    room := new Room();
    TrimOfTrimmed("Alice");
    assert |room.users| < MaxUsers;
    var _ := room.Join(alice, "Alice", now, cutoff);
    posted := room.Post(alice, Text("hi"), msgId, now);
  }

  /** Bob joins a room that is not full and whose log holds one recent
      message: his join-success carries exactly that message. */
  method BobJoins(room: Room, bob: string, m: Message, now: int, cutoff: int) returns (bobJoin: seq<Event>)
    requires room.Valid() && |room.users| < MaxUsers
    requires room.messages == [m] && IsRecent(m, cutoff)
    modifies room
    ensures |bobJoin| == 3 && bobJoin[0] == Event(ToSelf, JoinSuccess(User(bob, "Bob", now), [m]))
  {
    KeepRecentPush([], m, cutoff);
    assert [] + [m] == [m];
    TrimOfTrimmed("Bob");
    bobJoin := room.Join(bob, "Bob", now, cutoff);
  }

  /** Alice joins and says "hi"; Bob, joining later while the message is
      recent, finds it among the messages of his join-success, with Alice's
      name and type 'text'. */
  method LaterJoinerSeesHistory(alice: string, bob: string, msgId: string, now: int, cutoff: int)
    returns (posted: seq<Event>, bobJoin: seq<Event>)
    requires now > cutoff
    ensures var m := Message(msgId, alice, "Alice", now, Text("hi"));
      && posted == [Event(ToAll, NewMessage(m))] && |bobJoin| == 3
      && bobJoin[0] == Event(ToSelf, JoinSuccess(User(bob, "Bob", now), [m]))
  {
    var room;
    room, posted := AliceSaysHi(alice, msgId, now, cutoff);
    assert |room.users| == 1;
    bobJoin := BobJoins(room, bob, room.messages[0], now, cutoff);
  }
}
