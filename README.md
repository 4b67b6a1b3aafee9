# Teambox mailer threading headers

This project models how Teambox's `Emailer` builds the threading headers of its
discussion notifications (`notify_task`, `notify_conversation`), and the two settings
helpers that the RSpec examples of `spec/models/emailer_spec.rb` run under. The
`Emailer` class itself is not part of this model. Every rule here comes from the exact
strings that the RSpec examples of emailer_spec.rb expect.

- `Decimal` (`decimal.dfy`) renders record ids in decimal, as Ruby's string
  interpolation does, with `ParseNat` as its inverse. Distinct ids therefore give
  distinct Message-IDs, and, within one project and domain, distinct routing
  addresses.
- `Threading` (`threading.dfy`) holds the entities as values: a project (id,
  permalink), a discussion (task or conversation, id, name, comments in creation
  order) and a comment (id, creation time). `Resolve` picks the first and the latest
  comment.
  - `ThreadHeaders` builds the headers that thread a notification, for tasks and
    conversations alike:
    - Subject is `[permalink] name`, with `Re: ` in front once a later comment exists.
    - Message-ID is `project_P/<kind>_D/comment_C@domain`, where C is the latest comment.
    - In-Reply-To is absent for a single comment. Otherwise it is the Message-ID built
      from the first comment: every follow-up names the notification about the first
      comment (the thread's root), not the previous follow-up. Section 3.6.4 of RFC 5322
      defines the meaning of the Message-ID and In-Reply-To fields.
  - `SenderHeaders` builds From and Reply-To. When incoming mail is allowed, both use
    the routing address `permalink+conversation+id@domain`. When it is not, From is
    `no-reply@domain` and Reply-To is absent.
  - `Compose` puts the two together.
- `Environment` (`environment.dfy`) is a class holding the two process-wide settings:
  the locale and the incoming-email flag. `WithLocale` and `AllowIncomingMail` set one
  setting, run a block, and put the old value back. `AllowIncomingMail` turns incoming
  mail on unless it is given `false`. Only `AllowIncomingMail` puts the old value back
  when the block raises. A block is a function from the settings it sees to the
  settings it leaves and how it ends.

The project passed to the composer is a separate argument, not the discussion's own
project. The threading examples for a conversation (lines 59 and 68) pass the task's
project (line 37) and expect its id and permalink in the headers.

## Model

| member | source | states |
|---|---|---|
| `Decimal.ParseNatToString` | spec/models/emailer_spec.rb:45 | Reading back the decimal text of an id gives the same id |
| `Decimal.NatToStringInjective` | spec/models/emailer_spec.rb:54 | Distinct ids are written as distinct digit strings |
| `Threading.Resolve` | spec/models/emailer_spec.rb:50-51 | The first comment is the earliest and the latest is the most recent by creation time. They are the same comment exactly when there is one comment |
| `Threading.AddComment` | spec/models/emailer_spec.rb:66-67 | Adding a comment created later keeps the discussion ordered, keeps its first comment and makes the new comment the latest |
| `Threading.ThreadHeaders` | spec/models/emailer_spec.rb:42-72 | For a task or a conversation, with one comment: subject `[permalink] name` and no In-Reply-To. With more comments: subject `Re: ` + that, and In-Reply-To is the Message-ID of the first comment. Message-ID is `project_P/kind_D/comment_C@domain` for the latest comment |
| `Threading.SenderHeaders` | spec/models/emailer_spec.rb:9-27 | Incoming mail on: Reply-To is exactly `[permalink+conversation+id@domain]` and From decodes to `name <that address>`. Off: the From addresses are `[no-reply@domain]` and Reply-To is absent |
| `Threading.Compose` | spec/models/emailer_spec.rb:13-72 | A notification's Subject, Message-ID and In-Reply-To are its thread headers, whatever the sender and the incoming-mail setting. Its From and Reply-To are its sender headers |
| `Threading.MessageIdInjective` | spec/models/emailer_spec.rb:54-55 | A Message-ID determines the project id, kind, discussion id, comment id and domain it was built from. The kind words `task` and `conversation` (lines 45 and 61) start with different letters, so they never collide |
| `Threading.ConversationAddressInjective` | spec/models/emailer_spec.rb:9 | With the permalink and domain fixed, distinct conversations have distinct routing addresses |
| `Threading.FollowUpRepliesToFirst` | spec/models/emailer_spec.rb:49-56 | After a later comment is added to a one-comment discussion, the new notification's In-Reply-To is the first notification's Message-ID. Its Message-ID differs from the first one, and its subject is `Re: ` + the first subject |
| `Threading.InReplyToNamesFirstNotification` | spec/models/emailer_spec.rb:65-71 | With any number of follow-ups, In-Reply-To is the Message-ID of the notification about the first comment alone |
| `Threading.InReplyToPresence` | spec/models/emailer_spec.rb:46-55 | In-Reply-To is present if and only if there is more than one comment, that is, if and only if the first and latest comments differ |
| `Threading.SubjectStableAfterFollowUp` | spec/models/emailer_spec.rb:69 | Once a discussion has a follow-up, more comments leave Subject and In-Reply-To unchanged (`Re: ` is never doubled). The Message-ID moves to the newest comment |
| `Threading.ThreadingIndependentOfSender` | spec/models/emailer_spec.rb:58-63 | Subject, Message-ID and In-Reply-To are the same for every sender name and under either incoming-mail setting |
| `Threading.DistinctAnchorsDistinctIds` | spec/models/emailer_spec.rb:54 | Notifications whose latest comment, kind or discussion id differ never share a Message-ID |
| `Environment.Environment.Yield` | spec/models/emailer_spec.rb:181 | Running a block leaves the settings the block produces and returns how the block ended |
| `Environment.Environment.WithLocale` | spec/models/emailer_spec.rb:170-175 | The block sees the new locale. On a normal return the old locale is restored and returned. When the block raises, the settings stay as the block left them |
| `Environment.Environment.AllowIncomingMail` | spec/models/emailer_spec.rb:177-185 | The block sees the given flag, which is on by default. Afterwards the old flag is restored whether or not the block raised, and the block's outcome is returned |
| `Environment.NotifyConversationWithIncomingMail` | spec/models/emailer_spec.rb:14-15 | A conversation notification composed inside `AllowIncomingMail(really)` is `Compose` with flag `really`, and the settings are unchanged afterwards |
| `Environment.SetsReplyToExample` | spec/models/emailer_spec.rb:13-19 | Inside `AllowIncomingMail` with its default flag, Reply-To is the routing address alone and From decodes to `name <routing address>`. The settings are unchanged afterwards |
| `Environment.NoReplyExample` | spec/models/emailer_spec.rb:21-27 | Inside `AllowIncomingMail(false)`, the From addresses are `[no-reply@domain]` and Reply-To is absent. The settings are unchanged afterwards |

## Left out

- Discussions with no comments, and comments created at the same instant, are excluded by `WellFormed`. The RSpec examples of emailer_spec.rb never use them.
- Threading.ThreadHeaders: the Subject and `Re: ` rules are pinned down only under the `en` locale (lines 32-34). The model reads no locale and assumes the threading headers are the same in every locale.
- Threading.SenderHeaders: defined for a task only when incoming mail is off, because the task form of the routing address never appears in the RSpec examples of emailer_spec.rb. `Compose` inherits this. The thread headers of a task (`ThreadHeaders`) have no such restriction.
- Threading.SenderHeaders: the sender's display name is a single argument. In the Reply-To example the recipient and the conversation's author are the same user (lines 7 and 15), so the model does not say which of them is named.
- Threading.SenderHeaders: when incoming mail is off, the RSpec examples of emailer_spec.rb check only the From address list. The model's no-reply From has no display name, and no claim rests on that.
- One `domain` argument stands both for the literal `domain.com` of lines 9 and 24 and for the configured SMTP domain of line 35. emailer_spec.rb does not show that the two are equal; the model assumes they are.
- Decoding the routing address of an inbound reply. No parser for it appears in emailer_spec.rb.
- The mail library's encoding of header values, such as RFC 2047 words or quoting of display names. `Decoded` shows the From header in its readable form only.
- Locale-specific body rendering, and the "does not raise" examples for every mail type (lines 76-168). These depend on templates and translation files.
- The mail types without threading headers: daily task reminder, signup and project invitations, password reset and recovery, email confirmation, public download.
- Factories, database lookups by id and the SMTP domain setting (line 35). The entities and the domain are passed in as values.
- SMTP delivery.
