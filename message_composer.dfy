/**
  The bulk-message composer: the fixed template list, the recipients drawn
  from the roster by the selection, the four-token personalisation, the
  guarded send handler with its scheduled and immediate paths, and the
  simulated send loop that counts outcomes and prepends one history entry
  per recipient. The clock readings and the random outcome of each send
  attempt are inputs.
 */
module MessageComposer {
  import opened Seqs
  import opened Text
  import opened Page

  datatype MessageTemplate = MessageTemplate(id: string, name: string, content: string, category: string)

  /**
    The templates' message bodies. The promotional one starts with the four
    characters U+00F0 U+0178 U+017D U+2030 that its source text holds (the
    UTF-8 bytes of the party-popper emoji read as Windows-1252).
   */
  const WelcomeContent := "Welcome to our service! We're excited to have you on board. Feel free to reach out if you have any questions."
  const PromotionContent := "ðŸŽ‰ Special offer just for you! Get 20% off your next purchase. Use code SAVE20. Valid until {date}."
  const ReminderContent := "Don't forget! Our event is happening on {date} at {time}. We look forward to seeing you there!"
  const FollowUpContent := "Hi {name}, just following up on our previous conversation. Let me know if you need any assistance!"

  /** `messageTemplates`: id, name, body and category of each template. */
  const Templates: seq<MessageTemplate> := [
    MessageTemplate("1", "Welcome Message",
      WelcomeContent,
      "Welcome"),
    MessageTemplate("2", "Promotional Offer",
      PromotionContent,
      "Marketing"),
    MessageTemplate("3", "Event Reminder",
      ReminderContent,
      "Events"),
    MessageTemplate("4", "Follow Up",
      FollowUpContent,
      "Follow-up")
  ]

  function HasTemplateId(id: string): MessageTemplate -> bool
  {
    (t: MessageTemplate) => t.id == id
  }

  /**
    The compose buffer after `applyTemplate(id)`: a known id replaces the
    buffer wholesale with that template's content, an unknown id leaves it.
   */
  function TemplateApplied(buffer: string, templateId: string): (r: string)
    ensures forall k :: 0 <= k < |Templates| && Templates[k].id == templateId ==> r == Templates[k].content
    ensures (forall t :: t in Templates ==> t.id != templateId) ==> r == buffer
  {
    TemplateIdsDistinct();
    match Find(HasTemplateId(templateId), Templates)
    case Some(t) => t.content
    case None => buffer
  }

  /** No two templates share an id. */
  lemma TemplateIdsDistinct()
    ensures forall i, j :: 0 <= i < j < |Templates| ==> Templates[i].id != Templates[j].id
  {
  }

  function IsSelectedIn(selected: seq<string>): Contact -> bool
  {
    (c: Contact) => c.id in selected
  }

  /**
    `selectedContactsData`: the roster contacts whose id is selected, in
    roster order; selected ids with no roster contact are dropped.
   */
  function SelectedContactsData(roster: seq<Contact>, selected: seq<string>): (r: seq<Contact>)
    ensures forall c :: c in r <==> c in roster && c.id in selected
    ensures forall c :: multiset(r)[c] == if c.id in selected then multiset(roster)[c] else 0
    ensures IsSubsequence(r, roster)
  {
    FilterIsSubsequence(IsSelectedIn(selected), roster);
    FilterMultiplicity(IsSelectedIn(selected), roster);
    Filter(IsSelectedIn(selected), roster)
  }

  function ContactId(c: Contact): string
  {
    c.id
  }

  /** With no id twice in the roster, there are never more recipients than selected ids. */
  lemma RecipientsWithinSelection(roster: seq<Contact>, selected: seq<string>)
    requires KeysDistinct(ContactId, roster)
    ensures |SelectedContactsData(roster, selected)| <= |selected|
  {
    var r := SelectedContactsData(roster, selected);
    FilterKeysDistinct(IsSelectedIn(selected), ContactId, roster);
    var ids := set x | x in selected;
    forall i | 0 <= i < |r|
      ensures ContactId(r[i]) in ids
    {
      assert r[i] in r;
    }
    DistinctKeysBounded(ContactId, r, ids);
    SetCardinalityAtMostLength(selected);
  }

  const NameToken := "{name}"
  const PhoneToken := "{phone}"
  const DateToken := "{date}"
  const TimeToken := "{time}"

  /**
    `personalizeMessage`: every `{name}`, then every `{phone}`, `{date}` and
    `{time}` is replaced, in that order; `date` and `time` are the local
    date and time at the moment of sending.
   */
  function Personalize(body: string, c: Contact, date: string, time: string): string
  {
    var named := ReplaceAll(body, NameToken, c.name);
    var phoned := ReplaceAll(named, PhoneToken, c.phone);
    var dated := ReplaceAll(phoned, DateToken, date);
    ReplaceAll(dated, TimeToken, time)
  }

  /** A body holding none of the four tokens is sent as written. */
  lemma PersonalizeWithoutTokens(body: string, c: Contact, date: string, time: string)
    requires !Contains(body, NameToken) && !Contains(body, PhoneToken)
    requires !Contains(body, DateToken) && !Contains(body, TimeToken)
    ensures Personalize(body, c, date, time) == body
  {
    ReplaceAllAbsent(body, NameToken, c.name);
    ReplaceAllAbsent(body, PhoneToken, c.phone);
    ReplaceAllAbsent(body, DateToken, date);
    ReplaceAllAbsent(body, TimeToken, time);
  }

  /** The readings of the clock one iteration of the send loop takes. */
  datatype Clock = Clock(millis: string, iso: string, localDate: string, localTime: string)

  /** What the environment decides for one recipient: whether the simulated send succeeds, and the clock. */
  datatype Attempt = Attempt(success: bool, clock: Clock)

  datatype SendProgress = SendProgress(total: nat, sent: nat, failed: nat, isActive: bool)

  datatype HistoryEntry = HistoryEntry(
    id: string,
    contactId: string,
    contactName: string,
    contactPhone: string,
    message: string,
    status: string,
    sentAt: string,
    scheduled: bool)

  datatype ScheduledMessage = ScheduledMessage(
    id: string,
    message: string,
    contacts: seq<Contact>,
    scheduledFor: string,
    createdAt: string)

  /** The number of successful attempts. */
  function Successes(attempts: seq<Attempt>): (r: nat)
    ensures r <= |attempts|
  {
    if attempts == [] then 0
    else Successes(attempts[..|attempts| - 1]) + (if attempts[|attempts| - 1].success then 1 else 0)
  }

  /** The history entry iteration `i` of the send loop writes for contact `c`. */
  function SendEntry(c: Contact, message: string, a: Attempt, i: nat, scheduled: bool): HistoryEntry
  {
    HistoryEntry(
      a.clock.millis + NatToString(i),
      c.id, c.name, c.phone,
      Personalize(message, c, a.clock.localDate, a.clock.localTime),
      if a.success then "delivered" else "failed",
      a.clock.iso,
      scheduled)
  }

  /**
    What the send loop records for one recipient: the entry names it,
    carries the text personalised for it with that iteration's date and
    time, is "delivered" exactly when the attempt succeeded and "failed"
    otherwise, and carries the iteration's ISO time and the scheduled flag.
   */
  predicate EntryFor(e: HistoryEntry, c: Contact, message: string, a: Attempt, scheduled: bool)
  {
    && e.contactId == c.id && e.contactName == c.name && e.contactPhone == c.phone
    && e.message == Personalize(message, c, a.clock.localDate, a.clock.localTime)
    && (e.status == "delivered" <==> a.success)
    && (e.status == "failed" <==> !a.success)
    && e.sentAt == a.clock.iso && e.scheduled == scheduled
  }

  /** The entry the loop writes for a recipient is what it records for it. */
  lemma SendEntryIsEntryFor(c: Contact, message: string, a: Attempt, i: nat, scheduled: bool)
    ensures EntryFor(SendEntry(c, message, a, i, scheduled), c, message, a, scheduled)
  {
    assert |"delivered"| != |"failed"|;
  }

  /** The entries one send writes, in the order it writes them. */
  function SendLog(contacts: seq<Contact>, message: string, attempts: seq<Attempt>, scheduled: bool): (r: seq<HistoryEntry>)
    requires |attempts| == |contacts|
    ensures |r| == |contacts|
  {
    if contacts == [] then []
    else
      var n := |contacts| - 1;
      SendLog(contacts[..n], message, attempts[..n], scheduled) + [SendEntry(contacts[n], message, attempts[n], n, scheduled)]
  }

  /** Position `i` of the log is the entry iteration `i` writes for recipient `i`. */
  lemma {:induction false} SendLogAt(contacts: seq<Contact>, message: string, attempts: seq<Attempt>, scheduled: bool, i: nat)
    requires |attempts| == |contacts| && i < |contacts|
    ensures SendLog(contacts, message, attempts, scheduled)[i] == SendEntry(contacts[i], message, attempts[i], i, scheduled)
    decreases |contacts|
  {
    var n := |contacts| - 1;
    var prefix := SendLog(contacts[..n], message, attempts[..n], scheduled);
    var last := SendEntry(contacts[n], message, attempts[n], n, scheduled);
    assert SendLog(contacts, message, attempts, scheduled) == prefix + [last];
    if i < n {
      SendLogAt(contacts[..n], message, attempts[..n], scheduled, i);
      assert contacts[..n][i] == contacts[i] && attempts[..n][i] == attempts[i];
    }
  }

  /** Each recipient gets exactly one entry, at its own position, recording its attempt. */
  lemma SendLogEntries(contacts: seq<Contact>, message: string, attempts: seq<Attempt>, scheduled: bool)
    requires |attempts| == |contacts|
    ensures var r := SendLog(contacts, message, attempts, scheduled);
      forall i :: 0 <= i < |r| ==> EntryFor(r[i], contacts[i], message, attempts[i], scheduled)
  {
    var r := SendLog(contacts, message, attempts, scheduled);
    forall i | 0 <= i < |r|
      ensures EntryFor(r[i], contacts[i], message, attempts[i], scheduled)
    {
      SendLogAt(contacts, message, attempts, scheduled, i);
      SendEntryIsEntryFor(contacts[i], message, attempts[i], i, scheduled);
    }
  }

  predicate IsDelivered(e: HistoryEntry)
  {
    e.status == "delivered"
  }

  predicate IsFailed(e: HistoryEntry)
  {
    e.status == "failed"
  }

  /** The delivered entries of a send number exactly its successes, the failed ones the rest. */
  lemma {:induction false} SendLogCounts(contacts: seq<Contact>, message: string, attempts: seq<Attempt>, scheduled: bool)
    requires |attempts| == |contacts|
    ensures |Filter(IsDelivered, SendLog(contacts, message, attempts, scheduled))| == Successes(attempts)
    ensures |Filter(IsFailed, SendLog(contacts, message, attempts, scheduled))| == |contacts| - Successes(attempts)
    decreases |contacts|
  {
    if contacts != [] {
      var n := |contacts| - 1;
      var prefix := SendLog(contacts[..n], message, attempts[..n], scheduled);
      var e := SendEntry(contacts[n], message, attempts[n], n, scheduled);
      SendLogCounts(contacts[..n], message, attempts[..n], scheduled);
      SendEntryIsEntryFor(contacts[n], message, attempts[n], n, scheduled);
      FilterAppend(IsDelivered, prefix, [e]);
      FilterAppend(IsFailed, prefix, [e]);
    }
  }

  /** The history after a send that wrote `log`, each entry prepended in turn. */
  function HistoryAfter(history: seq<HistoryEntry>, log: seq<HistoryEntry>): seq<HistoryEntry>
  {
    Reverse(log) + history
  }

  /** The send's entries come first, last recipient first, ahead of the earlier history, which is kept whole. */
  lemma HistoryAfterOrder(history: seq<HistoryEntry>, log: seq<HistoryEntry>)
    ensures var r := HistoryAfter(history, log);
      && |r| == |log| + |history|
      && r[|log|..] == history
      && (forall k :: 0 <= k < |log| ==> r[k] == log[|log| - 1 - k])
      && (log != [] ==> r[0] == log[|log| - 1])
  {
  }

  /** One more attempt adds its outcome to the successes of the attempts before it. */
  lemma SuccessesStep(attempts: seq<Attempt>, i: nat)
    requires i < |attempts|
    ensures Successes(attempts[..i + 1]) == Successes(attempts[..i]) + (if attempts[i].success then 1 else 0)
  {
    assert attempts[..i + 1][..i] == attempts[..i];
  }

  /** One more iteration of the send loop appends its entry to the log. */
  lemma SendLogStep(contacts: seq<Contact>, message: string, attempts: seq<Attempt>, scheduled: bool, i: nat)
    requires |attempts| == |contacts| && i < |contacts|
    ensures SendLog(contacts[..i + 1], message, attempts[..i + 1], scheduled)
         == SendLog(contacts[..i], message, attempts[..i], scheduled) + [SendEntry(contacts[i], message, attempts[i], i, scheduled)]
  {
    assert attempts[..i + 1][..i] == attempts[..i];
    assert contacts[..i + 1][..i] == contacts[..i];
  }

  /** One more entry goes to the front of the history. */
  lemma HistoryAfterStep(history: seq<HistoryEntry>, log: seq<HistoryEntry>, e: HistoryEntry)
    ensures HistoryAfter(history, log + [e]) == [e] + HistoryAfter(history, log)
  {
    assert (log + [e])[..|log|] == log;
  }

  /** How a press of the send button is handled. */
  datatype SendDecision = Ignored | MissingSchedule | Schedule | SendNow

  /** The guards of `handleSendMessage`, in the order it tests them. */
  function Decide(message: string, selected: seq<string>, isScheduled: bool, date: string, time: string): SendDecision
  {
    if IsBlank(message) || |selected| == 0 then Ignored
    else if isScheduled && (date == "" || time == "") then MissingSchedule
    else if isScheduled then Schedule
    else SendNow
  }

  /** The send button is enabled unless the message is blank, nothing is selected or a send is running. */
  predicate SendEnabled(message: string, selected: seq<string>, isActive: bool)
  {
    !(IsBlank(message) || |selected| == 0 || isActive)
  }

  /** An enabled button is one whose press the handler does not ignore, while no send is running. */
  lemma EnabledMeansNotIgnored(message: string, selected: seq<string>, isActive: bool,
                               isScheduled: bool, date: string, time: string)
    ensures SendEnabled(message, selected, isActive) <==>
            !isActive && Decide(message, selected, isScheduled, date, time) != Ignored
  {
  }

  class Composer {
    var message: string
    var progress: SendProgress
    var selectedTemplate: string
    var scheduleDate: string
    var scheduleTime: string
    var isScheduled: bool
    /** The stored message history, newest first. */
    var history: seq<HistoryEntry>
    /** The stored scheduled messages, oldest first. */
    var scheduledMessages: seq<ScheduledMessage>

    /**
      Between handlers no send is in flight, and the progress never counts
      more outcomes than recipients.
     */
    ghost predicate Valid()
      reads this
    {
      !progress.isActive && progress.sent + progress.failed <= progress.total
    }

    /** A fresh composer over the stored history and scheduled messages. */
    constructor (history: seq<HistoryEntry>, scheduledMessages: seq<ScheduledMessage>)
      ensures Valid()
      ensures message == "" && progress == SendProgress(0, 0, 0, false) && selectedTemplate == ""
      ensures scheduleDate == "" && scheduleTime == "" && !isScheduled
      ensures this.history == history && this.scheduledMessages == scheduledMessages
    {
      message := "";
      progress := SendProgress(0, 0, 0, false);
      selectedTemplate, scheduleDate, scheduleTime := "", "", "";
      isScheduled := false;
      this.history := history;
      this.scheduledMessages := scheduledMessages;
    }

    /** `applyTemplate`: a known template replaces the message; an unknown id changes nothing. */
    method ApplyTemplate(templateId: string)
      requires Valid()
      modifies this`message
      ensures Valid()
      ensures message == TemplateApplied(old(message), templateId)
    {
      var i := 0;
      while i < |Templates| && Templates[i].id != templateId
        invariant 0 <= i <= |Templates|
        invariant forall j :: 0 <= j < i ==> Templates[j].id != templateId
      {
        i := i + 1;
      }
      if i < |Templates| {
        message := Templates[i].content;
      }
    }

    /**
      `simulateMessageSending`: one iteration per recipient, each counting
      its outcome as sent or failed and prepending that recipient's entry to
      the history; the progress ends inactive with every outcome counted.
     */
    method SimulateSending(contacts: seq<Contact>, msg: string, attempts: seq<Attempt>)
      requires Valid()
      requires |attempts| == |contacts|
      modifies this`progress, this`history
      ensures Valid()
      ensures progress == SendProgress(|contacts|, Successes(attempts), |contacts| - Successes(attempts), false)
      ensures progress.sent + progress.failed == progress.total
      ensures history == HistoryAfter(old(history), SendLog(contacts, msg, attempts, isScheduled))
    {
      var total := |contacts|;
      var before := history;
      var scheduled := isScheduled;
      var sent, failed := 0, 0;
      progress := SendProgress(total, sent, failed, true);
      ghost var log: seq<HistoryEntry> := [];
      for i := 0 to |contacts|
        invariant sent == Successes(attempts[..i]) && failed == i - sent
        invariant progress == SendProgress(total, sent, failed, true)
        invariant log == SendLog(contacts[..i], msg, attempts[..i], scheduled)
        invariant history == HistoryAfter(before, log)
      {
        SuccessesStep(attempts, i);
        SendLogStep(contacts, msg, attempts, scheduled, i);
        if attempts[i].success {
          sent := sent + 1;
        } else {
          failed := failed + 1;
        }
        progress := SendProgress(total, sent, failed, true);
        var entry := SendEntry(contacts[i], msg, attempts[i], i, scheduled);
        HistoryAfterStep(before, log, entry);
        history := [entry] + history;
        log := log + [entry];
      }
      assert attempts[..|contacts|] == attempts;
      assert contacts[..|contacts|] == contacts;
      progress := progress.(isActive := false);
    }

    /** The scheduled path: one scheduled message is stored and the form is reset. */
    method StoreScheduled(recipients: seq<Contact>, now: Clock, toIso: string -> string)
      requires Valid()
      modifies this`scheduledMessages, this`message, this`scheduleDate, this`scheduleTime, this`isScheduled
      ensures Valid()
      ensures scheduledMessages == old(scheduledMessages) + [ScheduledMessage(now.millis, old(message),
                recipients, toIso(old(scheduleDate) + "T" + old(scheduleTime)), now.iso)]
      ensures message == "" && scheduleDate == "" && scheduleTime == "" && !isScheduled
    {
      var entry := ScheduledMessage(now.millis, message, recipients,
                                    toIso(scheduleDate + "T" + scheduleTime), now.iso);
      scheduledMessages := scheduledMessages + [entry];
      message, scheduleDate, scheduleTime := "", "", "";
      isScheduled := false;
    }

    /** The immediate path: the send loop runs over the recipients, then the message is cleared. */
    method SendAndClear(recipients: seq<Contact>, attempts: seq<Attempt>)
      requires Valid()
      requires |attempts| == |recipients|
      modifies this`progress, this`history, this`message
      ensures Valid()
      ensures progress == SendProgress(|recipients|, Successes(attempts), |recipients| - Successes(attempts), false)
      ensures history == HistoryAfter(old(history), SendLog(recipients, old(message), attempts, isScheduled))
      ensures message == ""
    {
      SimulateSending(recipients, message, attempts);
      message := "";
    }

    /**
      `handleSendMessage`. A blank message or an empty selection, and a
      scheduled send without date or time, change nothing. A scheduled send
      stores one scheduled message (the unpersonalised text, the recipients,
      the time `toIso` makes of `date + "T" + time`, and the creation time)
      and resets the form. An immediate send runs the send loop over the
      recipients and then clears the message.
     */
    method HandleSendMessage(selected: seq<string>, roster: seq<Contact>, attempts: seq<Attempt>,
                             now: Clock, toIso: string -> string) returns (decision: SendDecision)
      requires Valid()
      requires |attempts| == |SelectedContactsData(roster, selected)|
      modifies this`message, this`progress, this`history, this`scheduledMessages
      modifies this`scheduleDate, this`scheduleTime, this`isScheduled
      ensures Valid()
      ensures decision == Decide(old(message), selected, old(isScheduled), old(scheduleDate), old(scheduleTime))
      ensures decision == Ignored || decision == MissingSchedule ==>
        && message == old(message) && progress == old(progress) && history == old(history)
        && scheduledMessages == old(scheduledMessages) && isScheduled == old(isScheduled)
        && scheduleDate == old(scheduleDate) && scheduleTime == old(scheduleTime)
      ensures decision == Schedule ==>
        && scheduledMessages == old(scheduledMessages) + [ScheduledMessage(now.millis, old(message),
             SelectedContactsData(roster, selected), toIso(old(scheduleDate) + "T" + old(scheduleTime)), now.iso)]
        && message == "" && scheduleDate == "" && scheduleTime == "" && !isScheduled
        && progress == old(progress) && history == old(history)
      ensures decision == SendNow ==>
        var recipients := SelectedContactsData(roster, selected);
        && progress == SendProgress(|recipients|, Successes(attempts), |recipients| - Successes(attempts), false)
        && history == HistoryAfter(old(history), SendLog(recipients, old(message), attempts, false))
        && message == "" && scheduledMessages == old(scheduledMessages) && !isScheduled
        && scheduleDate == old(scheduleDate) && scheduleTime == old(scheduleTime)
      ensures selectedTemplate == old(selectedTemplate)
    {
      if IsBlank(message) || |selected| == 0 {
        return Ignored;
      }
      if isScheduled && (scheduleDate == "" || scheduleTime == "") {
        return MissingSchedule;
      }
      var recipients := SelectedContactsData(roster, selected);
      if isScheduled {
        StoreScheduled(recipients, now, toIso);
        return Schedule;
      }
      SendAndClear(recipients, attempts);
      decision := SendNow;
    }
  }
}
