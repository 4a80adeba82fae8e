/** Logic that the offline client (public/client-chat.js) and the networked
    client (public/app.js) each carry a copy of: display-name validation, the
    file-size check on selection, the file icon, the typing-indicator text,
    and the unread counter kept while the message list is scrolled up. */
module ClientCommon {
  import opened ChatTypes
  import opened JsString

  // ---------------------------------------------------------------- names

  datatype NameCheck = EmptyName | NameTooLong | ValidName(name: string)

  const NameTooLongError: string := "Display name must be 20 characters or less."

  /** The join form's checks: the trimmed name must be non-empty (otherwise
      the form is silently ignored) and at most 20 characters long. */
  function CheckDisplayName(input: string): (r: NameCheck)
    ensures r == EmptyName <==> IsBlank(input)
    ensures r == NameTooLong <==> !IsBlank(input) && |Trim(input)| > MaxNameLength
    ensures r.ValidName? <==> 0 < |Trim(input)| <= MaxNameLength
    ensures r.ValidName? ==> r.name == Trim(input) && !IsJsSpace(r.name[0]) && !IsJsSpace(r.name[|r.name| - 1])
  {
    var name := Trim(input);
    if name == [] then EmptyName
    else if |name| > MaxNameLength then NameTooLong
    else ValidName(name)
  }

  /** Surrounding whitespace never changes the verdict, and an accepted name
      is accepted again unchanged. */
  lemma CheckDisplayNameStable(input: string)
    ensures CheckDisplayName(Trim(input)) == CheckDisplayName(input)
  {
    TrimIdempotent(input);
  }

  // ---------------------------------------------------------------- file selection

  /** The first file of the file input. */
  datatype SelectedFile = SelectedFile(name: string, size: nat, mimetype: string)

  datatype FileChoice = NoFile | TooLarge | Accepted(file: SelectedFile)

  const FileTooLargeError: string := "File size must be less than 100MB."

  /** handleFileSelect: nothing selected is ignored, a file over 100 MiB is
      refused with an error, anything else goes on to upload or preview. */
  function SelectFile(file: Option<SelectedFile>): (c: FileChoice)
    ensures c == NoFile <==> file.None?
    ensures c == TooLarge <==> file.Some? && file.value.size > FileSizeLimit
    ensures c.Accepted? <==> file.Some? && file.value.size <= FileSizeLimit
    ensures c.Accepted? ==> file == Some(c.file)
  {
    match file
    case None => NoFile
    case Some(f) => if f.size > FileSizeLimit then TooLarge else Accepted(f)
  }

  // ---------------------------------------------------------------- file icon

  /** The CSS class and the Font Awesome glyph of a file message. */
  datatype Icon = Icon(cls: string, glyph: string)

  /** filename.split('.').pop().toLowerCase(): the lower-cased text after the
      last '.', or the whole lower-cased name when there is none. */
  function Extension(filename: string): (ext: string)
    ensures |ext| <= |filename|
    ensures ext == Lower(filename[|filename| - |ext|..])
    ensures forall i :: 0 <= i < |ext| ==> ext[i] != '.'
    ensures |ext| < |filename| ==> filename[|filename| - |ext| - 1] == '.'
  {
    Lower(LastSegment(filename))
  }

  /** The extension groups of getFileIcon, in the order its tests try them
      after the media types. */
  const ExtensionGroups: seq<(seq<string>, Icon)> := [
    (["pdf"], Icon("pdf", "file-pdf")),
    (["doc", "docx"], Icon("doc", "file-word")),
    (["xls", "xlsx"], Icon("xls", "file-excel")),
    (["ppt", "pptx"], Icon("ppt", "file-powerpoint")),
    (["zip", "rar", "7z", "tar", "gz"], Icon("zip", "file-archive")),
    (["js", "html", "css", "json", "xml", "py", "java", "cpp", "c"], Icon("code", "file-code")),
    (["txt", "md", "rtf"], Icon("text", "file-alt")),
    (["ai", "psd"], Icon("default", "palette"))
  ]

  /** The icon of an extension that no group lists. */
  const PlainFileIcon := Icon("default", "file")

  /** The first group, from index k on, that lists ext: the chain of
      else-if tests. */
  function FirstGroup(groups: seq<(seq<string>, Icon)>, ext: string, k: nat): (r: Option<nat>)
    requires k <= |groups|
    ensures r.Some? ==> k <= r.value < |groups| && ext in groups[r.value].0
    ensures forall i :: k <= i < |groups| && (r.None? || i < r.value) ==> ext !in groups[i].0
    decreases |groups| - k
  {
    if k == |groups| then None
    else if ext in groups[k].0 then Some(k)
    else FirstGroup(groups, ext, k + 1)
  }

  /** The icon chosen by the extension alone. */
  function IconForExtension(ext: string): (icon: Icon)
    ensures forall i :: 0 <= i < |ExtensionGroups| && ext in ExtensionGroups[i].0 ==> icon == ExtensionGroups[i].1
    ensures (forall i :: 0 <= i < |ExtensionGroups| ==> ext !in ExtensionGroups[i].0) ==> icon == PlainFileIcon
  {
    GroupsDisjoint();
    match FirstGroup(ExtensionGroups, ext, 0)
    case Some(i) => ExtensionGroups[i].1
    case None => PlainFileIcon
  }

  /** No extension is listed in two groups, so the order of the tests does
      not decide any icon. */
  lemma GroupsDisjoint()
    ensures forall i, j, ext :: 0 <= i < j < |ExtensionGroups| && ext in ExtensionGroups[i].0 ==> ext !in ExtensionGroups[j].0
  {
  }

  /** getFileIcon: the image/, video/ and audio/ MIME prefixes decide first;
      otherwise the extension does. */
  function FileIcon(mimetype: string, filename: string): (icon: Icon)
    ensures StartsWith(mimetype, "image/") ==> icon == Icon("image", "image")
    ensures !StartsWith(mimetype, "image/") && StartsWith(mimetype, "video/") ==> icon == Icon("video", "video")
    ensures !StartsWith(mimetype, "image/") && !StartsWith(mimetype, "video/") && StartsWith(mimetype, "audio/") ==>
      icon == Icon("audio", "music")
    ensures !IsMedia(mimetype) ==> icon == IconForExtension(Extension(filename))
  {
    if StartsWith(mimetype, "image/") then Icon("image", "image")
    else if StartsWith(mimetype, "video/") then Icon("video", "video")
    else if StartsWith(mimetype, "audio/") then Icon("audio", "music")
    else IconForExtension(Extension(filename))
  }

  predicate IsMedia(mimetype: string) {
    StartsWith(mimetype, "image/") || StartsWith(mimetype, "video/") || StartsWith(mimetype, "audio/")
  }

  lemma {:induction false} LowerIdempotent(s: string)
    ensures Lower(Lower(s)) == Lower(s)
  {
    assert forall i :: 0 <= i < |s| ==> LowerChar(LowerChar(s[i])) == LowerChar(s[i]);
  }

  /** The icon does not depend on the case of the file name. */
  lemma IconIgnoresCase(mimetype: string, filename: string)
    ensures FileIcon(mimetype, Lower(filename)) == FileIcon(mimetype, filename)
  {
    LastSegmentLower(filename);
    LowerIdempotent(LastSegment(filename));
  }

  /** Only the part after the last dot counts: "backup.tar.GZ" is an archive. */
  lemma IconOfLastExtension(mimetype: string, base: string, ext: string)
    requires !IsMedia(mimetype)
    requires '.' !in ext
    ensures FileIcon(mimetype, base + "." + ext) == IconForExtension(Lower(ext))
  {
    LastSegmentAfterDot(base, ext);
  }

  /** A name without a dot is matched as a whole: a file called "PDF" gets
      the PDF icon. */
  lemma IconOfDotlessName(mimetype: string, filename: string)
    requires !IsMedia(mimetype)
    requires '.' !in filename
    ensures FileIcon(mimetype, filename) == IconForExtension(Lower(filename))
  {
    LastSegmentWithoutDot(filename);
  }

  // ---------------------------------------------------------------- typing indicator

  /** updateTypingIndicator: hidden (None) when nobody types; one or two
      names are spelled out in order; from three on only the count is shown. */
  function TypingText(names: seq<string>): (text: Option<string>)
    ensures text.None? <==> names == []
    ensures |names| == 1 ==> text == Some(names[0] + " is typing...")
    ensures |names| == 2 ==> text == Some(names[0] + " and " + names[1] + " are typing...")
    ensures |names| >= 3 ==> text == Some(NatToString(|names|) + " people are typing...")
  {
    if |names| == 0 then None
    else if |names| == 1 then Some(names[0] + " is typing...")
    else if |names| == 2 then Some(names[0] + " and " + names[1] + " are typing...")
    else Some(NatToString(|names|) + " people are typing...")
  }

  /** With one or two typists, every one of them is named in the text. */
  lemma TypingTextNamesEveryone(names: seq<string>, i: nat)
    requires 1 <= |names| <= 2 && i < |names|
    ensures TypingText(names).Some? && Contains(TypingText(names).value, names[i])
  {
    if |names| == 1 {
      ContainsInfix([], names[0], " is typing...");
      assert [] + names[0] + " is typing..." == names[0] + " is typing...";
    } else if i == 0 {
      ContainsInfix([], names[0], " and " + names[1] + " are typing...");
      assert [] + names[0] + (" and " + names[1] + " are typing...") == names[0] + " and " + names[1] + " are typing...";
    } else {
      ContainsInfix(names[0] + " and ", names[1], " are typing...");
    }
  }

  /** With three or more typists, the number the text starts with is how many
      there are, and who they are makes no difference. */
  lemma TypingTextCount(names: seq<string>, others: seq<string>)
    requires |names| >= 3 && |others| == |names|
    ensures TypingText(names).Some?
    ensures ParseDecimal(LeadingDigits(TypingText(names).value)) == |names|
    ensures TypingText(others) == TypingText(names)
  {
    NumberAtHead(|names|, " people are typing...");
  }

  // ---------------------------------------------------------------- unread counter

  /** isAtBottom and unreadMessages of a client. */
  datatype ScrollState = ScrollState(atBottom: bool, unread: nat)

  /** message.userId === this.currentUser?.id: with nobody signed in no
      message is one's own. */
  predicate IsOwn(m: Message, me: Option<User>) {
    me.Some? && m.userId == me.value.id
  }

  /** addMessage's bookkeeping: a message from someone else while the list is
      scrolled up is one more unread; in every other case the list is
      scrolled to the bottom and the counter stays. */
  function Receive(s: ScrollState, m: Message, me: Option<User>): (t: ScrollState)
    ensures t.unread == s.unread + 1 <==> !s.atBottom && !IsOwn(m, me)
    ensures !s.atBottom && !IsOwn(m, me) ==> t == ScrollState(false, s.unread + 1)
    ensures t.unread != s.unread + 1 ==> t == ScrollState(true, s.unread)
    ensures !t.atBottom ==> !s.atBottom
  {
    if !s.atBottom && !IsOwn(m, me) then ScrollState(false, s.unread + 1)
    else ScrollState(true, s.unread)
  }

  /** Receive applied to each message in turn. */
  function ReceiveAll(s: ScrollState, msgs: seq<Message>, me: Option<User>): (t: ScrollState)
    ensures s.unread <= t.unread <= s.unread + |msgs|
    ensures t.unread > s.unread ==> !s.atBottom
    decreases |msgs|
  {
    if msgs == [] then s
    else Receive(ReceiveAll(s, msgs[..|msgs| - 1], me), msgs[|msgs| - 1], me)
  }

  /** How many messages, from the start, come from others before the first
      one of one's own. */
  function ForeignRun(msgs: seq<Message>, me: Option<User>): (n: nat)
    ensures n <= |msgs|
    ensures forall i :: 0 <= i < n ==> !IsOwn(msgs[i], me)
    ensures n < |msgs| ==> IsOwn(msgs[n], me)
    decreases |msgs|
  {
    if msgs == [] || IsOwn(msgs[0], me) then 0 else 1 + ForeignRun(msgs[1..], me)
  }

  /** Feeding a list of messages to a client: at the bottom nothing changes;
      scrolled up, each message before the first one of one's own is unread,
      and one's own message brings the list back to the bottom. */
  lemma {:induction false} ReceiveAllClosedForm(s: ScrollState, msgs: seq<Message>, me: Option<User>)
    ensures ReceiveAll(s, msgs, me)
         == if s.atBottom then s
            else var k := ForeignRun(msgs, me); ScrollState(k < |msgs|, s.unread + k)
    decreases |msgs|
  {
    if msgs != [] {
      var init := msgs[..|msgs| - 1];
      ReceiveAllClosedForm(s, init, me);
      var k := ForeignRun(init, me);
      var k' := ForeignRun(msgs, me);
      if k < |init| {
        assert msgs[k] == init[k];
        assert k' == k;
      } else {
        assert forall i :: 0 <= i < k ==> msgs[i] == init[i];
        if IsOwn(msgs[|msgs| - 1], me) {
          assert k' == k;
        } else {
          assert k' == |msgs|;
        }
      }
    }
  }

  /** Once the list is at the bottom, nothing received makes it unread. */
  lemma NothingUnreadAtBottom(s: ScrollState, msgs: seq<Message>, me: Option<User>)
    requires s.atBottom
    ensures ReceiveAll(s, msgs, me) == s
  {
    ReceiveAllClosedForm(s, msgs, me);
  }

  /** The messages-container is within 50 pixels of its end. */
  predicate NearBottom(scrollHeight: int, scrollTop: int, clientHeight: int) {
    scrollHeight - scrollTop - clientHeight < ScrollThreshold
  }

  /** handleScroll: the at-bottom flag follows the scroll position, and
      reaching the bottom clears the counter. */
  function Scrolled(s: ScrollState, scrollHeight: int, scrollTop: int, clientHeight: int): (t: ScrollState)
    ensures t.atBottom <==> NearBottom(scrollHeight, scrollTop, clientHeight)
    ensures t.unread == if t.atBottom then 0 else s.unread
  {
    if NearBottom(scrollHeight, scrollTop, clientHeight) then ScrollState(true, 0)
    else ScrollState(false, s.unread)
  }

  /** The new-messages badge: "1 new message", "N new messages" for N > 1. */
  function AlertText(n: nat): (text: string)
    ensures |text| > 0 && (text[|text| - 1] == 's' <==> n > 1)
  {
    NatToString(n) + " new message" + (if n > 1 then "s" else "")
  }

  /** The badge starts with the count it reports. */
  lemma AlertTextCount(n: nat)
    ensures ParseDecimal(LeadingDigits(AlertText(n))) == n
  {
    var rest := " new message" + (if n > 1 then "s" else "");
    assert AlertText(n) == NatToString(n) + rest;
    NumberAtHead(n, rest);
  }
}
