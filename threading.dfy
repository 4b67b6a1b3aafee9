/**
 * The threading headers of the mailer's discussion notifications (`notify_task`,
 * `notify_conversation`): Subject, Message-ID, In-Reply-To, From and Reply-To, as pure
 * functions of the project, the discussion with its comments, the sender's display
 * name, the mail domain and the "incoming email allowed" setting.
 *
 * Message-ID and In-Reply-To carry the meaning section 3.6.4 of RFC 5322 gives them.
 * Every notification is identified by its latest comment, and In-Reply-To names the
 * notification about the first comment (the thread's root), not the previous follow-up.
 */
module Threading {
  import opened Wrappers
  import opened Decimal

  /** The two kinds of discussion a notification can be about. */
  datatype Kind = Task | Conversation

  datatype Project = Project(id: nat, permalink: string)

  /** A comment; `createdAt` is its creation time in seconds. */
  datatype Comment = Comment(id: nat, createdAt: int)

  /** A task or a conversation with its comments in the order they were created. */
  datatype Discussion = Discussion(kind: Kind, id: nat, name: string, comments: seq<Comment>)

  /** A mailbox of the From header: an optional display name and an address. */
  datatype Mailbox = Mailbox(displayName: Option<string>, address: string)

  /** The headers of one notification; an absent Reply-To or In-Reply-To is `None`. */
  datatype Headers = Headers(
    from: Mailbox,
    replyTo: Option<seq<string>>,
    subject: string,
    messageId: string,
    inReplyTo: Option<string>)

  /** The word that names a kind of discussion inside a Message-ID. */
  function KindSegment(k: Kind): string {
    match k
    case Task => "task"
    case Conversation => "conversation"
  }

  lemma KindSegmentStart(k: Kind)
    ensures |KindSegment(k)| > 0 && KindSegment(k)[0] == (if k == Task then 't' else 'c')
  {
  }

  /** Comments strictly ordered by creation time. */
  predicate Chronological(cs: seq<Comment>) {
    forall i, j :: 0 <= i < j < |cs| ==> cs[i].createdAt < cs[j].createdAt
  }

  /**
   * The discussions the mailer is exercised on: at least one comment, and no two
   * comments created at the same time.
   */
  predicate WellFormed(d: Discussion) {
    |d.comments| >= 1 && Chronological(d.comments)
  }

  /** The two comments threading is anchored on. */
  datatype ThreadState = ThreadState(first: Comment, latest: Comment)

  /** Finds the earliest and the most recent comment of a discussion. */
  function Resolve(d: Discussion): (t: ThreadState)
    requires WellFormed(d)
    ensures t.first in d.comments && t.latest in d.comments
    ensures forall c :: c in d.comments ==> t.first.createdAt <= c.createdAt <= t.latest.createdAt
    ensures t.first == t.latest <==> |d.comments| == 1
  {
    ThreadState(d.comments[0], d.comments[|d.comments| - 1])
  }

  /** A comment created after every comment of `d` is added to it. */
  function AddComment(d: Discussion, c: Comment): (r: Discussion)
    requires WellFormed(d)
    requires Resolve(d).latest.createdAt < c.createdAt
    ensures WellFormed(r)
    ensures Resolve(r) == ThreadState(Resolve(d).first, c)
    ensures r.kind == d.kind && r.id == d.id && r.name == d.name
    ensures |r.comments| == |d.comments| + 1
  {
    d.(comments := d.comments + [c])
  }

  /** The Message-ID of the notification anchored on comment `commentId`. */
  function MessageIdFor(projectId: nat, kind: Kind, discussionId: nat, commentId: nat, domain: string): string {
    "project_" + (NatToString(projectId) + ("/" + (KindSegment(kind) + ("_" + (NatToString(discussionId)
      + ("/comment_" + (NatToString(commentId) + ("@" + domain))))))))
  }

  /** The subject shared by every notification of a discussion. */
  function BaseSubject(p: Project, d: Discussion): string {
    "[" + p.permalink + "] " + d.name
  }

  /** The address an inbound reply to a conversation is routed through. */
  function ConversationAddress(permalink: string, conversationId: nat, domain: string): string {
    permalink + "+conversation+" + NatToString(conversationId) + "@" + domain
  }

  function NoReplyAddress(domain: string): string {
    "no-reply@" + domain
  }

  /** The From header as the mail library decodes it for reading. */
  function Decoded(m: Mailbox): string {
    match m.displayName
    case Some(name) => name + " <" + m.address + ">"
    case None => m.address
  }

  /** The addresses of the From header, without display names. */
  function FromAddresses(h: Headers): seq<string> {
    [h.from.address]
  }

  /** The headers that place a notification in its discussion's thread. */
  datatype Thread = Thread(subject: string, messageId: string, inReplyTo: Option<string>)

  /** The headers that say who a notification is from and where replies go. */
  datatype Sender = Sender(from: Mailbox, replyTo: Option<seq<string>>)

  /**
   * Subject, Message-ID and In-Reply-To of a notification about `d` in project `p`,
   * for tasks and conversations alike.
   */
  function ThreadHeaders(p: Project, d: Discussion, domain: string): (th: Thread)
    requires WellFormed(d)
    ensures |d.comments| == 1 ==> th.subject == BaseSubject(p, d) && th.inReplyTo == None
    ensures |d.comments| > 1 ==>
      th.subject == "Re: " + BaseSubject(p, d) &&
      th.inReplyTo == Some(MessageIdFor(p.id, d.kind, d.id, d.comments[0].id, domain))
    ensures th.messageId == MessageIdFor(p.id, d.kind, d.id, d.comments[|d.comments| - 1].id, domain)
  {
    var t := Resolve(d);
    var subject := if t.first == t.latest then BaseSubject(p, d) else "Re: " + BaseSubject(p, d);
    var inReplyTo := if t.first == t.latest then None else Some(MessageIdFor(p.id, d.kind, d.id, t.first.id, domain));
    Thread(subject, MessageIdFor(p.id, d.kind, d.id, t.latest.id, domain), inReplyTo)
  }

  /**
   * From and Reply-To. With incoming email allowed, both carry the address that routes
   * a reply back to the conversation; otherwise mail comes from the no-reply address
   * and has no Reply-To.
   */
  function SenderHeaders(p: Project, d: Discussion, senderName: string, domain: string, allowIncoming: bool): (s: Sender)
    requires allowIncoming ==> d.kind == Conversation
    ensures allowIncoming ==>
      s.replyTo == Some([ConversationAddress(p.permalink, d.id, domain)]) &&
      Decoded(s.from) == senderName + " <" + ConversationAddress(p.permalink, d.id, domain) + ">"
    ensures !allowIncoming ==> s.replyTo == None && [s.from.address] == [NoReplyAddress(domain)]
  {
    if allowIncoming then
      var address := ConversationAddress(p.permalink, d.id, domain);
      Sender(Mailbox(Some(senderName), address), Some([address]))
    else
      Sender(Mailbox(None, NoReplyAddress(domain)), None)
  }

  /**
   * The headers of the notification sent about `d` in project `p`: the thread headers,
   * whatever the sender and the incoming-email setting, and the sender headers.
   */
  function Compose(p: Project, d: Discussion, senderName: string, domain: string, allowIncoming: bool): (h: Headers)
    requires WellFormed(d)
    requires allowIncoming ==> d.kind == Conversation
    ensures var th := ThreadHeaders(p, d, domain);
            h.subject == th.subject && h.messageId == th.messageId && h.inReplyTo == th.inReplyTo
    ensures var s := SenderHeaders(p, d, senderName, domain, allowIncoming);
            h.from == s.from && h.replyTo == s.replyTo && FromAddresses(h) == [s.from.address]
  {
    var th := ThreadHeaders(p, d, domain);
    var s := SenderHeaders(p, d, senderName, domain, allowIncoming);
    Headers(s.from, s.replyTo, th.subject, th.messageId, th.inReplyTo)
  }

  /**
   * A Message-ID determines everything it was built from: the project, the kind and id
   * of the discussion, the anchoring comment and the domain.
   */
  lemma MessageIdInjective(
    p1: nat, k1: Kind, d1: nat, c1: nat, dom1: string,
    p2: nat, k2: Kind, d2: nat, c2: nat, dom2: string)
    requires MessageIdFor(p1, k1, d1, c1, dom1) == MessageIdFor(p2, k2, d2, c2, dom2)
    ensures p1 == p2 && k1 == k2 && d1 == d2 && c1 == c2 && dom1 == dom2
  {
    var tail1 := "_" + (NatToString(d1) + ("/comment_" + (NatToString(c1) + ("@" + dom1))));
    var tail2 := "_" + (NatToString(d2) + ("/comment_" + (NatToString(c2) + ("@" + dom2))));
    CancelPrefix("project_",
      NatToString(p1) + ("/" + (KindSegment(k1) + tail1)),
      NatToString(p2) + ("/" + (KindSegment(k2) + tail2)));
    NumberThenSuffix(p1, "/" + (KindSegment(k1) + tail1), p2, "/" + (KindSegment(k2) + tail2));
    CancelPrefix("/", KindSegment(k1) + tail1, KindSegment(k2) + tail2);
    KindSegmentStart(k1);
    KindSegmentStart(k2);
    assert (KindSegment(k1) + tail1)[0] == KindSegment(k1)[0];
    assert (KindSegment(k2) + tail2)[0] == KindSegment(k2)[0];
    assert k1 == k2;
    CancelPrefix(KindSegment(k1), tail1, tail2);
    CancelPrefix("_",
      NatToString(d1) + ("/comment_" + (NatToString(c1) + ("@" + dom1))),
      NatToString(d2) + ("/comment_" + (NatToString(c2) + ("@" + dom2))));
    NumberThenSuffix(d1, "/comment_" + (NatToString(c1) + ("@" + dom1)),
                     d2, "/comment_" + (NatToString(c2) + ("@" + dom2)));
    CancelPrefix("/comment_", NatToString(c1) + ("@" + dom1), NatToString(c2) + ("@" + dom2));
    NumberThenSuffix(c1, "@" + dom1, c2, "@" + dom2);
    CancelPrefix("@", dom1, dom2);
  }

  /** Distinct conversations of one project reply through distinct addresses. */
  lemma ConversationAddressInjective(permalink: string, id1: nat, id2: nat, domain: string)
    requires ConversationAddress(permalink, id1, domain) == ConversationAddress(permalink, id2, domain)
    ensures id1 == id2
  {
    var prefix := permalink + "+conversation+";
    assert ConversationAddress(permalink, id1, domain) == prefix + (NatToString(id1) + ("@" + domain));
    assert ConversationAddress(permalink, id2, domain) == prefix + (NatToString(id2) + ("@" + domain));
    CancelPrefix(prefix, NatToString(id1) + ("@" + domain), NatToString(id2) + ("@" + domain));
    NumberThenSuffix(id1, "@" + domain, id2, "@" + domain);
  }

  /**
   * The follow-up scenario: after a later comment is added to a discussion that had a
   * single one, the new notification replies to the first notification's Message-ID,
   * carries a Message-ID of its own, and its subject is the first subject after "Re: ".
   */
  lemma FollowUpRepliesToFirst(p: Project, d: Discussion, c: Comment, domain: string)
    requires WellFormed(d) && |d.comments| == 1
    requires d.comments[0].createdAt < c.createdAt && d.comments[0].id != c.id
    ensures var first := ThreadHeaders(p, d, domain);
            var second := ThreadHeaders(p, AddComment(d, c), domain);
            second.inReplyTo == Some(first.messageId) &&
            second.messageId != first.messageId &&
            second.subject == "Re: " + first.subject &&
            first.inReplyTo == None
  {
    var first := ThreadHeaders(p, d, domain);
    var second := ThreadHeaders(p, AddComment(d, c), domain);
    if second.messageId == first.messageId {
      MessageIdInjective(p.id, d.kind, d.id, c.id, domain, p.id, d.kind, d.id, d.comments[0].id, domain);
    }
  }

  /**
   * However many comments follow, In-Reply-To names the Message-ID of the notification
   * about the first comment alone.
   */
  lemma InReplyToNamesFirstNotification(p: Project, d: Discussion, domain: string)
    requires WellFormed(d) && |d.comments| > 1
    ensures WellFormed(d.(comments := d.comments[..1]))
    ensures ThreadHeaders(p, d, domain).inReplyTo ==
            Some(ThreadHeaders(p, d.(comments := d.comments[..1]), domain).messageId)
  {
  }

  /** In-Reply-To is present exactly when the discussion has more than one comment. */
  lemma InReplyToPresence(p: Project, d: Discussion, domain: string)
    requires WellFormed(d)
    ensures ThreadHeaders(p, d, domain).inReplyTo.Some? <==> |d.comments| > 1
    ensures ThreadHeaders(p, d, domain).inReplyTo.Some? <==> Resolve(d).first != Resolve(d).latest
  {
  }

  /**
   * The "Re: " prefix is added once: once a discussion has a follow-up, further comments
   * leave the subject unchanged, while the Message-ID moves to the newest comment.
   */
  lemma SubjectStableAfterFollowUp(p: Project, d: Discussion, c: Comment, domain: string)
    requires WellFormed(d) && |d.comments| > 1
    requires Resolve(d).latest.createdAt < c.createdAt
    ensures var before := ThreadHeaders(p, d, domain);
            var after := ThreadHeaders(p, AddComment(d, c), domain);
            after.subject == before.subject &&
            after.inReplyTo == before.inReplyTo &&
            after.messageId == MessageIdFor(p.id, d.kind, d.id, c.id, domain)
  {
  }

  /**
   * The headers that thread a discussion are the same for every recipient and under
   * either setting of incoming email; only From and Reply-To differ.
   */
  lemma ThreadingIndependentOfSender(
    p: Project, d: Discussion, domain: string,
    name1: string, allow1: bool, name2: string, allow2: bool)
    requires WellFormed(d)
    requires allow1 ==> d.kind == Conversation
    requires allow2 ==> d.kind == Conversation
    ensures var h1 := Compose(p, d, name1, domain, allow1);
            var h2 := Compose(p, d, name2, domain, allow2);
            h1.subject == h2.subject && h1.messageId == h2.messageId && h1.inReplyTo == h2.inReplyTo
  {
  }

  /** Notifications anchored on different comments never share a Message-ID. */
  lemma DistinctAnchorsDistinctIds(p: Project, d1: Discussion, d2: Discussion, domain: string)
    requires WellFormed(d1) && WellFormed(d2)
    requires Resolve(d1).latest.id != Resolve(d2).latest.id || d1.kind != d2.kind || d1.id != d2.id
    ensures ThreadHeaders(p, d1, domain).messageId != ThreadHeaders(p, d2, domain).messageId
  {
    var c1 := d1.comments[|d1.comments| - 1];
    var c2 := d2.comments[|d2.comments| - 1];
    if ThreadHeaders(p, d1, domain).messageId == ThreadHeaders(p, d2, domain).messageId {
      MessageIdInjective(p.id, d1.kind, d1.id, c1.id, domain, p.id, d2.kind, d2.id, c2.id, domain);
    }
  }
}
