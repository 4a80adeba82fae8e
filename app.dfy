/** The networked client (public/app.js): input checks before something is
    emitted to the server, the scroll state of the message list, the reaction
    to the upload response, and the static-hosting detection. Emits are
    returned as lists of client events. */
module App {
  import opened ChatTypes
  import opened JsString
  import opened ClientCommon
  import Server

  /** What the client emits on its socket. */
  datatype ClientEvent =
    | JoinEmit(displayName: string, sessionId: string)
    | MessageEmit(content: string)
    | TypingEmit(isTyping: bool)
    | FileMessageEmit(info: FileInfo)

  class ChatApp {
    var currentUser: Option<User>
    var isAtBottom: bool
    var unreadMessages: nat
    /** The session id read from (or first written to) sessionStorage. */
    const sessionId: string

    function Scroll(): ScrollState
      reads this
    {
      ScrollState(isAtBottom, unreadMessages)
    }

    constructor (sessionId: string)
      ensures this.sessionId == sessionId
      ensures currentUser == None && isAtBottom && unreadMessages == 0
    {
      this.sessionId := sessionId;
      currentUser := None;
      isAtBottom := true;
      unreadMessages := 0;
    }

    /** joinChat: a blank name emits nothing; a name over 20 characters
        shows an error and emits nothing; otherwise the trimmed name is sent
        with the session id. */
    method JoinChat(input: string) returns (emitted: seq<ClientEvent>, error: Option<string>)
      ensures emitted != [] <==> 0 < |Trim(input)| <= MaxNameLength
      ensures emitted != [] ==> emitted == [JoinEmit(Trim(input), sessionId)] && error.None?
      ensures error.Some? <==> |Trim(input)| > MaxNameLength
      ensures error.Some? ==> error.value == NameTooLongError
    {
      match CheckDisplayName(input)
      case EmptyName =>
        emitted, error := [], None;
      case NameTooLong =>
        emitted, error := [], Some(NameTooLongError);
      case ValidName(name) =>
        emitted, error := [JoinEmit(name, sessionId)], None;
    }

    /** sendMessage: blank input emits nothing; otherwise the trimmed content
        is sent, followed by the end of typing. */
    method SendMessage(input: string) returns (emitted: seq<ClientEvent>)
      ensures emitted == [] <==> IsBlank(input)
      ensures emitted != [] ==> emitted == [MessageEmit(Trim(input)), TypingEmit(false)]
      ensures emitted != [] ==> var c := emitted[0].content; c != [] && !IsJsSpace(c[0]) && !IsJsSpace(c[|c| - 1])
    {
      var content := Trim(input);
      if content == [] {
        return [];
      }
      emitted := [MessageEmit(content)];
      emitted := emitted + [TypingEmit(false)];
    }

    /** handleFileSelect: a file of at most 100 MiB is previewed, a larger
        one refused with an error. */
    method HandleFileSelect(file: Option<SelectedFile>) returns (preview: Option<SelectedFile>, error: Option<string>)
      ensures preview.Some? <==> file.Some? && file.value.size <= FileSizeLimit
      ensures preview.Some? ==> preview == file
      ensures error.Some? <==> file.Some? && file.value.size > FileSizeLimit
      ensures error.Some? ==> error.value == FileTooLargeError
    {
      match SelectFile(file)
      case NoFile =>
        preview, error := None, None;
      case TooLarge =>
        preview, error := None, Some(FileTooLargeError);
      case Accepted(f) =>
        preview, error := Some(f), None;
    }

    /** scrollToBottom */
    method ScrollToBottom()
      modifies this
      ensures isAtBottom && unreadMessages == old(unreadMessages) && currentUser == old(currentUser)
    {
      isAtBottom := true;
    }

    /** addMessage: as in the offline client, an unread message (and the
        badge text) only for someone else's message while scrolled up. */
    method AddMessage(m: Message) returns (alert: Option<string>)
      modifies this
      ensures Scroll() == Receive(old(Scroll()), m, currentUser)
      ensures alert.Some? <==> unreadMessages == old(unreadMessages) + 1
      ensures alert.Some? ==> alert.value == AlertText(unreadMessages)
      ensures currentUser == old(currentUser)
    {
      if !isAtBottom && !IsOwn(m, currentUser) {
        unreadMessages := unreadMessages + 1;
        alert := Some(AlertText(unreadMessages));
      } else {
        ScrollToBottom();
        alert := None;
      }
    }

    /** loadMessages(messages): each message is added, then the list is
        scrolled to the bottom. */
    method LoadMessages(msgs: seq<Message>)
      modifies this
      ensures isAtBottom
      ensures unreadMessages == ReceiveAll(old(Scroll()), msgs, currentUser).unread
      ensures currentUser == old(currentUser)
    {
      var i := 0;
      while i < |msgs|
        invariant 0 <= i <= |msgs|
        invariant Scroll() == ReceiveAll(old(Scroll()), msgs[..i], currentUser)
        invariant currentUser == old(currentUser)
      {
        assert msgs[..i + 1][..i] == msgs[..i];
        var _ := AddMessage(msgs[i]);
        i := i + 1;
      }
      assert msgs[..i] == msgs;
      ScrollToBottom();
    }

    /** The join-success listener: the server's user becomes the current
        user and the recent messages are shown. */
    method OnJoinSuccess(user: User, recent: seq<Message>)
      modifies this
      ensures currentUser == Some(user)
      ensures isAtBottom
      ensures unreadMessages == ReceiveAll(old(Scroll()), recent, Some(user)).unread
    {
      currentUser := Some(user);
      LoadMessages(recent);
    }

    /** handleScroll */
    method HandleScroll(scrollHeight: int, scrollTop: int, clientHeight: int)
      modifies this
      ensures Scroll() == Scrolled(old(Scroll()), scrollHeight, scrollTop, clientHeight)
      ensures currentUser == old(currentUser)
    {
      isAtBottom := NearBottom(scrollHeight, scrollTop, clientHeight);
      if isAtBottom {
        unreadMessages := 0;
      }
    }
  }

  /** What uploadFile does with the reply to POST /upload: a reply outside
      200-299 shows its error text (or "Upload failed"), a successful one is
      shared as a file-message. */
  function AfterUpload(res: Server.Response): (outcome: (seq<ClientEvent>, Option<string>))
    requires 200 <= res.status <= 299 ==> res.body.InfoBody?
    ensures outcome.0 != [] <==> 200 <= res.status <= 299
    ensures outcome.0 != [] ==> outcome.0 == [FileMessageEmit(res.body.info)] && outcome.1.None?
    ensures outcome.0 == [] ==> outcome.1.Some? && outcome.1.value != []
    ensures !(200 <= res.status <= 299) && res.body.ErrorBody? && res.body.error != "" ==>
      outcome == ([], Some(res.body.error))
    ensures !(200 <= res.status <= 299) && !(res.body.ErrorBody? && res.body.error != "") ==>
      outcome == ([], Some("Upload failed"))
  {
    if 200 <= res.status <= 299 then ([FileMessageEmit(res.body.info)], None)
    else
      var message := if res.body.ErrorBody? && res.body.error != "" then res.body.error else "Upload failed";
      ([], Some(message))
  }

  /** The client's size check and the server's upload limit agree: a file the
      client lets through is stored by the server, and the only files the
      server refuses for size are those the client already refuses. */
  lemma SizeLimitsAgree(f: SelectedFile, storeId: string, infoId: string, now: int)
    ensures SelectFile(Some(f)).Accepted?
        <==> Server.PostUpload(Some(Server.FilePart("file", f.name, f.size, f.mimetype)), storeId, infoId, now).status == 200
  {
  }

  /** Uploading a file within the limit ends in a file-message that carries
      the server's metadata and the url under /uploads/; a larger file ends in
      the server's "too large" error and nothing is emitted. */
  lemma UploadThenShare(f: SelectedFile, storeId: string, infoId: string, now: int)
    ensures var res := Server.PostUpload(Some(Server.FilePart("file", f.name, f.size, f.mimetype)), storeId, infoId, now);
      && (f.size <= FileSizeLimit ==>
            AfterUpload(res).0
              == [FileMessageEmit(FileInfo(infoId, storeId + "-" + f.name, f.name, f.size, f.mimetype, now,
                                           "/uploads/" + storeId + "-" + f.name))])
      && (f.size > FileSizeLimit ==>
            AfterUpload(res) == ([], Some("File too large. Maximum size is 100MB.")))
  {
  }

  /** isLocalServerRunning: the page is served on port 3000 or 8080. */
  predicate IsLocalServerRunning(port: string) {
    port == "3000" || port == "8080"
  }

  /** isGitHubPages: a GitHub host, or localhost on a port no local server
      uses. */
  predicate IsGitHubPages(hostname: string, port: string) {
    || Contains(hostname, "github.io")
    || Contains(hostname, "github.com")
    || (hostname == "localhost" && !IsLocalServerRunning(port))
  }

  /** Any host name containing github.io or github.com counts as static
      hosting, whatever the port. */
  lemma GitHubHostsAreStatic(pre: string, post: string, port: string)
    ensures IsGitHubPages(pre + "github.io" + post, port)
    ensures IsGitHubPages(pre + "github.com" + post, port)
  {
    ContainsInfix(pre, "github.io", post);
    ContainsInfix(pre, "github.com", post);
  }

  /** localhost is static hosting exactly when the port is neither 3000 nor
      8080. */
  lemma LocalhostDependsOnPort(port: string)
    ensures IsGitHubPages("localhost", port) <==> port != "3000" && port != "8080"
  {
    var h := "localhost";
    assert h[0..9][0] == 'l' != "github.io"[0];
    assert !OccursAt(h, "github.io", 0);
  }

  /** Any other host is served by the chat server. */
  lemma OtherHostsAreServed(hostname: string, port: string)
    requires !Contains(hostname, "github.io") && !Contains(hostname, "github.com")
    requires hostname != "localhost"
    ensures !IsGitHubPages(hostname, port)
  {
  }
}
