/** The offline client (public/client-chat.js): the whole room runs inside
    one browser page. The class keeps its own member map, message log and
    typing set, and the scroll state of the message list. Ids, clocks, the
    confirm dialog and the stored snapshot are parameters. */
module ClientChat {
  import opened ChatTypes
  import opened JsString
  import OrderedSet
  import opened Retention
  import opened ClientCommon

  datatype JoinResult = JoinIgnored | JoinRefused(error: string) | Joined(user: User)

  const RoomFullError: string := "Room is full (4/4). Please try again later."

  /** The JSON snapshot saved in localStorage. */
  datatype StoredData = StoredData(
    users: map<string, User>,
    messages: seq<Message>,
    currentUser: Option<User>,
    timestamp: int)

  datatype LoadResult = NothingStored | Expired | Loaded

  class ClientChatApp {
    var currentUser: Option<User>
    var users: map<string, User>
    var messages: seq<Message>
    /** typingUsers: a Set of display names, in insertion order */
    var typingUsers: seq<string>
    var isAtBottom: bool
    var unreadMessages: nat

    ghost predicate Valid()
      reads this
    {
      OrderedSet.Distinct(typingUsers)
    }

    function Scroll(): ScrollState
      reads this
    {
      ScrollState(isAtBottom, unreadMessages)
    }

    /** The fields as the constructor leaves them, before stored data is read. */
    constructor ()
      ensures Valid()
      ensures currentUser == None && users == map[] && messages == [] && typingUsers == []
      ensures isAtBottom && unreadMessages == 0
    {
      currentUser := None;
      users := map[];
      messages := [];
      typingUsers := [];
      isAtBottom := true;
      unreadMessages := 0;
    }

    /** scrollToBottom */
    method ScrollToBottom()
      modifies this
      ensures isAtBottom && unreadMessages == old(unreadMessages)
      ensures currentUser == old(currentUser) && users == old(users)
      ensures messages == old(messages) && typingUsers == old(typingUsers)
    {
      isAtBottom := true;
    }

    /** addMessage: one more unread message, and the badge text, when the
        list is scrolled up and the message is someone else's; otherwise the
        list scrolls to the bottom. */
    method AddMessage(m: Message) returns (alert: Option<string>)
      modifies this
      ensures Scroll() == Receive(old(Scroll()), m, currentUser)
      ensures alert.Some? <==> unreadMessages == old(unreadMessages) + 1
      ensures alert.Some? ==> alert.value == AlertText(unreadMessages)
      ensures currentUser == old(currentUser) && users == old(users)
      ensures messages == old(messages) && typingUsers == old(typingUsers)
    {
      if !isAtBottom && !IsOwn(m, currentUser) {
        unreadMessages := unreadMessages + 1;
        alert := Some(AlertText(unreadMessages));
      } else {
        ScrollToBottom();
        alert := None;
      }
    }

    /** loadMessages: every logged message is added again, then the list is
        scrolled to the bottom. */
    method LoadMessages()
      modifies this
      ensures isAtBottom
      ensures unreadMessages == ReceiveAll(old(Scroll()), messages, currentUser).unread
      ensures currentUser == old(currentUser) && users == old(users)
      ensures messages == old(messages) && typingUsers == old(typingUsers)
    {
      var i := 0;
      while i < |messages|
        invariant 0 <= i <= |messages|
        invariant Scroll() == ReceiveAll(old(Scroll()), messages[..i], currentUser)
        invariant currentUser == old(currentUser) && users == old(users)
        invariant messages == old(messages) && typingUsers == old(typingUsers)
      {
        assert messages[..i + 1][..i] == messages[..i];
        var _ := AddMessage(messages[i]);
        i := i + 1;
      }
      assert messages[..i] == messages;
      ScrollToBottom();
    }

    /** joinChat. A blank name is ignored; a name over 20 characters or a
        full room is refused with an error and nothing changes. Otherwise a
        member under the fresh id becomes the current user and the log is
        shown again. */
    method JoinChat(input: string, freshId: string, now: int) returns (result: JoinResult)
      requires Valid()
      modifies this
      ensures Valid()
      ensures CheckDisplayName(input) == EmptyName ==> result == JoinIgnored
      ensures CheckDisplayName(input) == NameTooLong ==> result == JoinRefused(NameTooLongError)
      ensures CheckDisplayName(input).ValidName? && |old(users)| >= MaxUsers ==> result == JoinRefused(RoomFullError)
      ensures !result.Joined? ==>
        && currentUser == old(currentUser) && users == old(users)
        && isAtBottom == old(isAtBottom) && unreadMessages == old(unreadMessages)
      ensures result.Joined? <==> CheckDisplayName(input).ValidName? && |old(users)| < MaxUsers
      ensures result.Joined? ==>
        && result.user == User(freshId, Trim(input), now)
        && currentUser == Some(result.user)
        && users == old(users)[freshId := result.user]
        && |users| <= MaxUsers
        && isAtBottom
        && unreadMessages == ReceiveAll(old(Scroll()), messages, currentUser).unread
      ensures messages == old(messages) && typingUsers == old(typingUsers)
    {
      var check := CheckDisplayName(input);
      if check == EmptyName {
        return JoinIgnored;
      }
      if check == NameTooLong {
        return JoinRefused(NameTooLongError);
      }
      if |users| >= MaxUsers {
        return JoinRefused(RoomFullError);
      }
      var user := User(freshId, check.name, now);
      currentUser := Some(user);
      users := users[freshId := user];
      LoadMessages();
      result := Joined(user);
    }

    /** stopTyping: the current user's name leaves the typing set; the
        result is the indicator text. With nobody signed in the call throws
        before changing anything (None). */
    method StopTyping() returns (indicator: Option<Option<string>>)
      requires Valid()
      modifies this
      ensures Valid()
      ensures old(currentUser).None? ==> indicator.None? && typingUsers == old(typingUsers)
      ensures old(currentUser).Some? ==>
        && typingUsers == OrderedSet.Delete(old(typingUsers), old(currentUser).value.displayName)
        && old(currentUser).value.displayName !in typingUsers
        && indicator == Some(TypingText(typingUsers))
      ensures currentUser == old(currentUser) && users == old(users) && messages == old(messages)
      ensures isAtBottom == old(isAtBottom) && unreadMessages == old(unreadMessages)
    {
      if currentUser.None? {
        return None;
      }
      typingUsers := OrderedSet.Delete(typingUsers, currentUser.value.displayName);
      indicator := Some(TypingText(typingUsers));
    }

    /** handleTyping: the current user's name joins the typing set (once);
        the result is the indicator text. */
    method HandleTyping() returns (indicator: Option<Option<string>>)
      requires Valid()
      modifies this
      ensures Valid()
      ensures old(currentUser).None? ==> indicator.None? && typingUsers == old(typingUsers)
      ensures old(currentUser).Some? ==>
        && typingUsers == OrderedSet.Add(old(typingUsers), old(currentUser).value.displayName)
        && old(currentUser).value.displayName in typingUsers
        && indicator == Some(TypingText(typingUsers))
      ensures currentUser == old(currentUser) && users == old(users) && messages == old(messages)
      ensures isAtBottom == old(isAtBottom) && unreadMessages == old(unreadMessages)
    {
      if currentUser.None? {
        return None;
      }
      typingUsers := OrderedSet.Add(typingUsers, currentUser.value.displayName);
      indicator := Some(TypingText(typingUsers));
    }

    /** sendMessage: blank input sends nothing. Otherwise one text message
        with the current user's id and name is appended, the list scrolls to
        the bottom (the message is one's own) and the user stops typing. */
    method SendMessage(input: string, msgId: string, now: int) returns (sent: Option<Message>)
      requires Valid()
      modifies this
      ensures Valid()
      ensures sent.Some? <==> !IsBlank(input) && old(currentUser).Some?
      ensures sent.None? ==>
        && messages == old(messages) && typingUsers == old(typingUsers)
        && isAtBottom == old(isAtBottom) && unreadMessages == old(unreadMessages)
      ensures sent.Some? ==>
        var me := old(currentUser).value;
        && sent.value == Message(msgId, me.id, me.displayName, now, Text(Trim(input)))
        && messages == old(messages) + [sent.value]
        && typingUsers == OrderedSet.Delete(old(typingUsers), me.displayName)
        && isAtBottom && unreadMessages == old(unreadMessages)
      ensures currentUser == old(currentUser) && users == old(users)
    {
      var content := Trim(input);
      if content == [] || currentUser.None? {
        return None;
      }
      var me := currentUser.value;
      var m := Message(msgId, me.id, me.displayName, now, Text(content));
      messages := messages + [m];
      var _ := AddMessage(m);
      var _ := StopTyping();
      sent := Some(m);
    }

    /** The FileReader onload of uploadFile: a file message whose url is the
        data URL of the file is appended and shown; the file keeps its name
        both as filename and original name. */
    method FileLoaded(file: SelectedFile, dataUrl: string, fileId: string, msgId: string, now: int)
      returns (sent: Option<Message>)
      requires Valid()
      modifies this
      ensures Valid()
      ensures sent.Some? <==> old(currentUser).Some?
      ensures sent.None? ==> messages == old(messages) && Scroll() == old(Scroll())
      ensures sent.Some? ==>
        var me := old(currentUser).value;
        && sent.value == Message(msgId, me.id, me.displayName, now,
                                 File(FileInfo(fileId, file.name, file.name, file.size, file.mimetype, now, dataUrl)))
        && messages == old(messages) + [sent.value]
        && isAtBottom && unreadMessages == old(unreadMessages)
      ensures currentUser == old(currentUser) && users == old(users) && typingUsers == old(typingUsers)
    {
      if currentUser.None? {
        return None;
      }
      var me := currentUser.value;
      var info := FileInfo(fileId, file.name, file.name, file.size, file.mimetype, now, dataUrl);
      var m := Message(msgId, me.id, me.displayName, now, File(info));
      messages := messages + [m];
      var _ := AddMessage(m);
      sent := Some(m);
    }

    /** leaveChat: after confirmation the current user leaves the member map
        and nobody is signed in any more. */
    method LeaveChat(confirmed: bool)
      requires Valid()
      modifies this
      ensures Valid()
      ensures confirmed && old(currentUser).Some? ==>
        && users == old(users) - {old(currentUser).value.id}
        && old(currentUser).value.id !in users
        && currentUser == None
      ensures !(confirmed && old(currentUser).Some?) ==>
        users == old(users) && currentUser == old(currentUser)
      ensures messages == old(messages) && typingUsers == old(typingUsers) && Scroll() == old(Scroll())
    {
      if confirmed && currentUser.Some? {
        users := users - {currentUser.value.id};
        currentUser := None;
      }
    }

    /** The hourly cleanup: only messages newer than the cutoff stay, in
        order; the list is rebuilt only when something was dropped. */
    method CleanupTick(cutoff: int) returns (rerendered: bool)
      requires Valid()
      modifies this
      ensures Valid()
      ensures messages == KeepRecent(old(messages), cutoff)
      ensures rerendered <==> |messages| != old(|messages|)
      ensures rerendered <==> exists i :: 0 <= i < old(|messages|) && !IsRecent(old(messages)[i], cutoff)
      ensures !rerendered ==> messages == old(messages) && Scroll() == old(Scroll())
      ensures rerendered ==> isAtBottom && unreadMessages == ReceiveAll(old(Scroll()), messages, currentUser).unread
      ensures currentUser == old(currentUser) && users == old(users) && typingUsers == old(typingUsers)
    {
      var initialLength := |messages|;
      messages := KeepRecent(messages, cutoff);
      rerendered := |messages| != initialLength;
      if rerendered {
        LoadMessages();
      }
    }

    /** loadStoredData: a snapshot older than seven days is discarded and
        nothing is loaded; a younger one replaces the members, the log and
        the current user, and the log is shown when someone is signed in. */
    method LoadStoredData(stored: Option<StoredData>, now: int) returns (result: LoadResult)
      requires Valid()
      modifies this
      ensures Valid()
      ensures stored.None? <==> result == NothingStored
      ensures result == Expired <==> stored.Some? && now - stored.value.timestamp > WeekMs
      ensures result != Loaded ==>
        && currentUser == old(currentUser) && users == old(users)
        && messages == old(messages) && Scroll() == old(Scroll())
      ensures result == Loaded ==>
        && users == stored.value.users && messages == stored.value.messages
        && currentUser == stored.value.currentUser
        && (currentUser.None? ==> Scroll() == old(Scroll()))
        && (currentUser.Some? ==>
              isAtBottom && unreadMessages == ReceiveAll(old(Scroll()), messages, currentUser).unread)
      ensures typingUsers == old(typingUsers)
    {
      if stored.None? {
        return NothingStored;
      }
      var data := stored.value;
      if now - data.timestamp > WeekMs {
        return Expired;
      }
      users := data.users;
      messages := data.messages;
      currentUser := data.currentUser;
      if currentUser.Some? {
        LoadMessages();
      }
      result := Loaded;
    }

    /** handleScroll */
    method HandleScroll(scrollHeight: int, scrollTop: int, clientHeight: int)
      modifies this
      ensures Scroll() == Scrolled(old(Scroll()), scrollHeight, scrollTop, clientHeight)
      ensures currentUser == old(currentUser) && users == old(users)
      ensures messages == old(messages) && typingUsers == old(typingUsers)
    {
      isAtBottom := NearBottom(scrollHeight, scrollTop, clientHeight);
      if isAtBottom {
        unreadMessages := 0;
      }
    }
  }
}
