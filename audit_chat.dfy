/**
 * The issue-conversation view of the freight-audit inbox: the auditor picks an
 * issue, types a message, stages files, and sends. The view keeps three pieces
 * of state (the selected issue, the draft text, the staged files); sending
 * builds a message from the draft, appends it to the selected issue and
 * clears the draft.
 */
module AuditChat {
  import opened Wrappers
  import opened Text

  datatype Role = Auditor | Carrier | Client
  datatype Status = Open | Pending | Resolved | Closed
  datatype Priority = Low | Medium | High

  /** A file attached to a sent message; `url` is the preview link made for it. */
  datatype Attachment = Attachment(id: string, name: string, size: nat, mediaType: string, url: string)

  datatype Message = Message(
    sender: string,
    content: string,
    timestamp: string,
    role: Role,
    attachments: seq<Attachment>)

  datatype AuditIssue = AuditIssue(
    id: int,
    invoiceNumber: string,
    carrier: string,
    status: Status,
    priority: Priority,
    lastUpdate: string,
    messages: seq<Message>)

  /** A file picked in the browser's file chooser, as far as the view reads it. */
  datatype File = File(name: string, size: nat, mediaType: string)

  /** The issue list the sidebar shows; `now` is the time the list is built. */
  function InitialIssues(now: string): (issues: seq<AuditIssue>)
    ensures |issues| == 1 && issues[0].id == 1 && issues[0].messages == []
  {
    [AuditIssue(1, "INV-001", "Carrier A", Open, High, now, [])]
  }

  /** The record a staged file becomes when its message is sent. */
  function ToAttachment(file: File, id: string, url: string): Attachment
  {
    Attachment(id, file.name, file.size, file.mediaType, url)
  }

  /**
   * `attachments.map(...)` at send time: one record per staged file, in the
   * staged order, with the file's name, size and type, and the id and url
   * generated for that position.
   */
  function Attachments(files: seq<File>, ids: seq<string>, urls: seq<string>): (r: seq<Attachment>)
    requires |ids| == |files| && |urls| == |files|
    ensures |r| == |files|
    ensures forall i :: 0 <= i < |files| ==>
      && r[i].name == files[i].name
      && r[i].size == files[i].size
      && r[i].mediaType == files[i].mediaType
      && r[i].id == ids[i]
      && r[i].url == urls[i]
  {
    if files == [] then []
    else [ToAttachment(files[0], ids[0], urls[0])] + Attachments(files[1..], ids[1..], urls[1..])
  }

  /** Files staged in two batches become attachments in batch order. */
  lemma AttachmentsOfConcat(a: seq<File>, b: seq<File>, ids: seq<string>, urls: seq<string>)
    requires |ids| == |a| + |b| && |urls| == |a| + |b|
    ensures Attachments(a + b, ids, urls)
         == Attachments(a, ids[..|a|], urls[..|a|]) + Attachments(b, ids[|a|..], urls[|a|..])
  {
  }

  /**
   * The guard of the send handler: a message goes out only when an issue is
   * selected and the draft has non-blank text or at least one staged file.
   */
  predicate CanSend(selected: Option<AuditIssue>, input: string, staged: seq<File>)
    ensures CanSend(selected, input, staged) <==> selected.Some? && (!IsBlank(input) || staged != [])
  {
    TrimEmptyIffBlank(input);
    !((Trim(input) == "" && |staged| == 0) || selected.None?)
  }

  /**
   * The message the auditor sends: the untrimmed draft text, signed "Auditor"
   * with the auditor role, carrying the staged files in order.
   */
  function ComposeMessage(input: string, timestamp: string, staged: seq<File>, ids: seq<string>, urls: seq<string>): (m: Message)
    requires |ids| == |staged| && |urls| == |staged|
    ensures m.sender == "Auditor" && m.role == Auditor
    ensures m.content == input && m.timestamp == timestamp
    ensures |m.attachments| == |staged|
    ensures forall i :: 0 <= i < |staged| ==> m.attachments[i] == ToAttachment(staged[i], ids[i], urls[i])
  {
    Message("Auditor", input, timestamp, Auditor, Attachments(staged, ids, urls))
  }

  /**
   * The selected issue after a send: its history grows by exactly the new
   * message at the end, and no other field of the issue changes.
   */
  function AppendMessage(issue: AuditIssue, m: Message): (r: AuditIssue)
    ensures |r.messages| == |issue.messages| + 1
    ensures r.messages[..|issue.messages|] == issue.messages && r.messages[|issue.messages|] == m
    ensures r.id == issue.id && r.invoiceNumber == issue.invoiceNumber && r.carrier == issue.carrier
    ensures r.status == issue.status && r.priority == issue.priority && r.lastUpdate == issue.lastUpdate
  {
    issue.(messages := issue.messages + [m])
  }

  /**
   * `s.filter((_, i) => i !== index)`: the elements whose position is not
   * `index`. An index in range removes exactly that element and keeps the
   * others in order; any other index removes nothing.
   */
  function FilterIndex<T>(s: seq<T>, index: int): (r: seq<T>)
    ensures 0 <= index < |s| ==> r == s[..index] + s[index + 1..]
    ensures !(0 <= index < |s|) ==> r == s
  {
    if s == [] then []
    else
      var rest := FilterIndex(s[1..], index - 1);
      assert 0 < index < |s| ==> s[..index] == [s[0]] + s[1..][..index - 1] && s[index + 1..] == s[1..][index..];
      assert s == [s[0]] + s[1..];
      (if index == 0 then [] else [s[0]]) + rest
  }

  /** The component's state: the selected issue and the draft being composed for it. */
  class FreightAuditChat {
    var selectedIssue: Option<AuditIssue>
    var messageInput: string
    var attachments: seq<File>

    constructor ()
      ensures selectedIssue == None && messageInput == "" && attachments == []
    {
      selectedIssue := None;
      messageInput := "";
      attachments := [];
    }

    /** Clicking an issue card: the list entry replaces the selected issue; the draft is kept. */
    method SelectIssue(issues: seq<AuditIssue>, k: nat)
      requires k < |issues|
      modifies this`selectedIssue
      ensures selectedIssue == Some(issues[k])
      ensures messageInput == old(messageInput) && attachments == old(attachments)
    {
      selectedIssue := Some(issues[k]);
    }

    /** Typing in the message box replaces the draft text. */
    method EditMessage(value: string)
      modifies this`messageInput
      ensures messageInput == value
      ensures selectedIssue == old(selectedIssue) && attachments == old(attachments)
    {
      messageInput := value;
    }

    /** Picking files stages them after the files already staged, in the order picked. */
    method HandleFileSelect(files: seq<File>)
      modifies this`attachments
      ensures |attachments| == |old(attachments)| + |files|
      ensures attachments[..|old(attachments)|] == old(attachments)
      ensures attachments[|old(attachments)|..] == files
      ensures selectedIssue == old(selectedIssue) && messageInput == old(messageInput)
    {
      attachments := attachments + files;
    }

    /**
     * Removing a staged file by its position: an index in range removes that
     * file and keeps the others in order; any other index changes nothing.
     */
    method RemoveAttachment(index: int)
      modifies this`attachments
      ensures 0 <= index < |old(attachments)| ==>
        attachments == old(attachments)[..index] + old(attachments)[index + 1..]
      ensures !(0 <= index < |old(attachments)|) ==> attachments == old(attachments)
      ensures selectedIssue == old(selectedIssue) && messageInput == old(messageInput)
    {
      attachments := FilterIndex(attachments, index);
    }

    /**
     * The send button. `timestamp`, `ids` and `urls` are what the clock, the
     * random id generator and the object-URL factory return for this send,
     * one id and one url per staged file. A rejected send changes nothing; an
     * accepted one appends the composed message to the selected issue and
     * clears the draft. `sent` reports which of the two happened.
     */
    method HandleSendMessage(timestamp: string, ids: seq<string>, urls: seq<string>) returns (sent: bool)
      requires |ids| == |attachments| && |urls| == |attachments|
      modifies this
      ensures sent == CanSend(old(selectedIssue), old(messageInput), old(attachments))
      ensures !sent ==> selectedIssue == old(selectedIssue) && messageInput == old(messageInput)
                        && attachments == old(attachments)
      ensures sent ==> selectedIssue.Some? && old(selectedIssue).Some?
      ensures sent ==> selectedIssue.value == AppendMessage(old(selectedIssue).value,
                         ComposeMessage(old(messageInput), timestamp, old(attachments), ids, urls))
      ensures sent ==> messageInput == "" && attachments == []
    {
      if !CanSend(selectedIssue, messageInput, attachments) {
        return false;
      }
      var newMessage := ComposeMessage(messageInput, timestamp, attachments, ids, urls);
      var updated := AppendMessage(selectedIssue.value, newMessage);
      selectedIssue, messageInput, attachments := Some(updated), "", [];
      sent := true;
    }
  }

  /**
   * A walk-through: select the seeded issue, stage one PDF, type
   * a note, send. The sent message carries the file; choosing the same card
   * again brings back the seeded list entry, which never received the message.
   */
  method SendWithAttachmentScenario()
  {
    var chat := new FreightAuditChat();
    var issues := InitialIssues("2024-01-01T00:00:00.000Z");
    chat.SelectIssue(issues, 0);
    chat.HandleFileSelect([File("doc.pdf", 1024, "application/pdf")]);
    chat.EditMessage("see attached");
    var sent := chat.HandleSendMessage("2024-01-01T00:05:00.000Z", ["k2j4h5g6f"], ["blob:1"]);
    assert !IsBlank("see attached") by { assert !IsWhitespace("see attached"[0]); }
    assert sent;
    var issue := chat.selectedIssue.value;
    assert |issue.messages| == 1;
    var m := issue.messages[0];
    assert m.sender == "Auditor" && m.content == "see attached" && m.role == Auditor;
    assert m.attachments == [Attachment("k2j4h5g6f", "doc.pdf", 1024, "application/pdf", "blob:1")];
    assert chat.messageInput == "" && chat.attachments == [];

    var again := chat.HandleSendMessage("2024-01-01T00:06:00.000Z", [], []);
    assert !again;

    chat.SelectIssue(issues, 0);
    assert chat.selectedIssue.value.messages == [];
  }
}
