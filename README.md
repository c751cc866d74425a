# Fido notification mailer, modelled in Dafny

This project models `Email_Send.Send` from Fido's notification component. It composes one HTML email from an address set (`EmailAddressInfo`: To, From, CC) and a content record (`EmailContent`: subject, body, a file attachment, and a list of gauge chart image paths, of which the first four are linked into the HTML body), hands it to the SMTP client, and, on any exception, sends a "Fido Error" report to the error mailbox and rethrows.

Layout:

- `mail.dfy`, module `Mail`: the parts of System.Net.Mail the mailer touches, as values. This covers nullable strings (`Option`), `string.IsNullOrEmpty`, `String.Trim` and its white-space set, `LinkedResource`, `AlternateView`, `MailMessage` (its `Body` getter reads back `""` for null) and `NetworkCredential`.
- `email_send.dfy`, module `EmailSend`:
  - the two argument records;
  - the fixed slot table for the gauge images;
  - composition, written as imperative methods that rebuild the message value step by step, with the gauge `for` loop kept as a loop in `LinkGaugeImages`;
  - `Send`, a method that returns how the call ends (`Ok` or `Raise(kind)`) and the trace of events it caused (`Notify(notice)` for each nested 7-argument `Send` call, `Transport(delivery)` for `SmtpClient.Send`).

What the code cannot know is passed in as an `Environment`:

- the configuration store, as a map with defaults;
- whether the mail library accepts an address (`addressParses`);
- whether a file can be opened (`fileReadable`), which covers both `new LinkedResource(path, type)` and `new Attachment(path)`;
- whether the SMTP server accepts a delivery (`transportAccepts`);
- whether a nested notification send throws (`notifyRaises`);
- the text of an exception (`describe`).

`SendRun` is the reference behaviour and `Send` is proved equal to it. The lemmas after `SendRun` state what the source promises about the trace and the outcome.

Three places where the code does something a reader may not expect; the model follows the code:

- A missing To does not end the call. The code sends the "No sender specified" report (line 79), then keeps composing and still calls `SmtpClient.Send`. When CC is also missing, the message reaches the SMTP client with no recipient at all. `NoRecipientRaises` shows that the call then raises, because SmtpClient refuses a message without recipients, and that the refusal is reported through the catch block like any other exception.
- The guard `mMessage.Body != null` (line 92) reads the message's `Body` property. System.Net.Mail's getter returns `""` for a null body, so the guard never fails. The HTML view is therefore added exactly when `GaugeAttachments` is non-null, and a null body gives a view with empty text.
- Line 71 reads `Icontent.BodyHtml = true`. It is modelled as the evidently intended `IsBodyHtml = true`.

## Model

| member | source | states |
|---|---|---|
| `Mail.TrimStart` | Notification/Email/Email_Send.cs:94 | the result is a suffix of the input, it does not start with white space, and everything removed is white space |
| `Mail.TrimEnd` | Notification/Email/Email_Send.cs:94 | the result is a prefix of the input, it does not end with white space, and everything removed is white space |
| `Mail.Trim` | Notification/Email/Email_Send.cs:94 | the view text is a contiguous piece of the body with no white space at either end; everything cut away is white space; a body without edge white space is kept unchanged |
| `Mail.TrimmedAtLeadingCount` | Notification/Email/Email_Send.cs:94 | the trimmed text starts in the body right after the leading white space |
| `Mail.IsWhiteSpace` | Notification/Email/Email_Send.cs:94 | defines the characters `String.Trim` removes: the Unicode White_Space set that `Char.IsWhiteSpace` accepts |
| `Mail.IsNullOrEmpty` | Notification/Email/Email_Send.cs:73-123 | defines `string.IsNullOrEmpty` as used by the guards at lines 73, 82 and 123: the string is null or has no characters |
| `Mail.EmptyHtmlMessage` | Notification/Email/Email_Send.cs:71 | defines the freshly created message: HTML body flag set, no recipients, sender, body, subject, views or attachments |
| `EmailSend.GetAsString` | Notification/Email/Email_Send.cs:65-67 | defines `Object_Fido_Configs.GetAsString` (also used at lines 133-134): the configured value for the key, or the given default when the key is absent |
| `EmailSend.ErrorEmail` | Notification/Email/Email_Send.cs:65 | defines the error mailbox as the configured `fido.email.erroremail` value, null (the lookup default) when it is absent; `ReportsAddressedFromConfig` states what this means for the reports |
| `EmailSend.FidoEmail` | Notification/Email/Email_Send.cs:66 | defines Fido's own mailbox as the configured `fido.email.fidoemail` value, null when it is absent |
| `EmailSend.SmtpServer` | Notification/Email/Email_Send.cs:67 | defines the SMTP host as the configured `fido.email.smtpsvr` value, null when it is absent; `DeliveriesUseConfig` and `NoHostRaises` state what this means for delivery |
| `EmailSend.SmtpCredentials` | Notification/Email/Email_Send.cs:133-135 | defines the credentials as the configured SMTP user and password, each with the empty string as its lookup default; `DeliveriesUseConfig` states what this means for delivery |
| `EmailSend.SlotTable` | Notification/Email/Email_Send.cs:97-115 | a slot exists exactly for indices 0 to 3; slot 0 is `image/jpg` and slots 1 to 3 are `image/png` |
| `EmailSend.SlotResource` | Notification/Email/Email_Send.cs:100-113 | defines the `new LinkedResource(path, type) { ContentId = … }` of a switch case: the image path with the content-ID and media type of its slot |
| `EmailSend.SlotContentIdsDistinct` | Notification/Email/Email_Send.cs:97-115 | the four content-IDs (totalscore, userscore, machinescore, threatscore) are pairwise different |
| `EmailSend.GaugeResources` | Notification/Email/Email_Send.cs:95-116 | for n gauge paths the loop links exactly min(n, 4) resources; resource k has path k and the content-ID and media type of slot k |
| `EmailSend.GaugeResourcesIgnoreOverflow` | Notification/Email/Email_Send.cs:95-116 | the linked resources depend only on the first four paths |
| `EmailSend.GaugeContentIdsDistinct` | Notification/Email/Email_Send.cs:95-119 | no two linked images of a view share a content-ID |
| `EmailSend.MissingRecipientNotice` | Notification/Email/Email_Send.cs:79 | defines the missing-recipient report: to the error mailbox, an empty (not null) CC, from Fido's mailbox, subject "Fido Error", body "Fido Failed: No sender specified in email." |
| `EmailSend.FailureNotice` | Notification/Email/Email_Send.cs:142 | defines the failure report: to the error mailbox, Fido's mailbox as CC and sender, subject "Fido Error", body "Fido Failed: Generic error sending email." followed by the exception's text |
| `EmailSend.Escaping` | Notification/Email/Email_Send.cs:140-144 | defines the exception that leaves the catch block: the caught one, unless the failure report itself throws; `FailureReportedOnceThenRethrown` states this of every raising run |
| `Mail.MailMessage.BodyText` | Notification/Email/Email_Send.cs:92-94 | defines the Body property as read back: the assigned body, or the empty string when null was assigned; `HtmlViews` and `ComposedMessageShape` state its consequence that a null body still gets a view |
| `EmailSend.HtmlViews` | Notification/Email/Email_Send.cs:90-121 | a message gets exactly one HTML view when gauge images are given and none otherwise; the view's text has no white space at its ends; a null body still gives a view, with empty text |
| `EmailSend.EntryIfSet` | Notification/Email/Email_Send.cs:73-85 | defines what a guarded `Add` puts in a list: nothing for a null or empty string, otherwise that one string; `ComposedMessageShape` states it for To, CC and the attachments |
| `EmailSend.FromParses` | Notification/Email/Email_Send.cs:86 | defines when `new MailAddress(From)` succeeds: From is neither null nor empty (both are refused outright) and the library accepts it |
| `EmailSend.GaugeImagesReadable` | Notification/Email/Email_Send.cs:95-116 | defines which files the gauge loop opens and needs: the images at indices 0 to 3, those that get a slot |
| `EmailSend.LeadingEvents` | Notification/Email/Email_Send.cs:77-80 | defines the events composition emits: the missing-recipient report when To is null or empty, and nothing otherwise |
| `EmailSend.OverflowGaugesRaiseNothing` | Notification/Email/Email_Send.cs:95-116 | paths at index 4 and later are never opened, so they cannot make composition raise |
| `EmailSend.HeaderFault` | Notification/Email/Email_Send.cs:73-86 | the address steps complete exactly when a set To is accepted (or, with To missing, the report does not throw), a set CC is accepted and From is set and accepted; they raise a notification failure exactly when the missing-recipient report throws, and otherwise only address errors |
| `EmailSend.ContentFault` | Notification/Email/Email_Send.cs:90-128 | the image and attachment steps complete exactly when every slotted image (if gauges are given) and the named attachment (if any) can be opened; otherwise they raise an attachment error |
| `EmailSend.ComposeFault` | Notification/Email/Email_Send.cs:73-128 | composition never raises a delivery error; a fault of the address steps is the one raised, since they run before any file is opened; composition completes exactly when both groups of steps complete |
| `EmailSend.ComposeFaultCauses` | Notification/Email/Email_Send.cs:73-128 | composition never raises a delivery error; it raises a notification failure exactly when the missing-recipient report throws; an address error only for a set address or a From that the library rejects; an attachment error only for an opened file that cannot be read; it completes exactly when all of the addresses are accepted, the report (if sent) does not throw, and every file it opens can be read |
| `EmailSend.Composed` | Notification/Email/Email_Send.cs:71-128 | the composed message is an HTML message with at most one To, one CC, one alternate view and one attachment |
| `EmailSend.ComposedMessageShape` | Notification/Email/Email_Send.cs:71-128 | the composed message is HTML; To and CC each get the given address exactly when it is set and nothing else; From, Body and Subject are the inputs unchanged; there is one HTML view of the trimmed body exactly when gauge images are given, with the images in slot order; there is one file attachment exactly when one is named |
| `EmailSend.OverflowGaugesIgnored` | Notification/Email/Email_Send.cs:95-116 | gauge paths after the fourth do not change the composed message |
| `EmailSend.LinkGaugeImages` | Notification/Email/Email_Send.cs:95-116 | the loop succeeds exactly when every image that gets a slot can be opened, and then appends exactly the slot resources to the view |
| `EmailSend.ComposeHeaders` | Notification/Email/Email_Send.cs:71-88 | To is added when set, and the missing-recipient report is emitted otherwise; then CC, From, Body and Subject; it raises at exactly the first address step that fails |
| `EmailSend.AddHtmlView` | Notification/Email/Email_Send.cs:90-121 | when gauges are given, one view of the trimmed Body with the slot resources is appended; it raises exactly when a slotted image cannot be opened |
| `EmailSend.AddAttachment` | Notification/Email/Email_Send.cs:123-128 | the attachment is appended exactly when it is named; it raises exactly when that file cannot be opened |
| `EmailSend.Compose` | Notification/Email/Email_Send.cs:71-128 | composition emits the missing-recipient report exactly when To is missing; it raises exactly the first fault of the steps in source order; otherwise it yields the composed message |
| `EmailSend.MissingRecipientReportedFirst` | Notification/Email/Email_Send.cs:73-80 | with To missing, the first event is the "Fido Error" report to the error mailbox; when nothing else raises, the next event is still the delivery, with an empty To list |
| `EmailSend.SendRun` | Notification/Email/Email_Send.cs:63-145 | every call emits at least one event; the trace opens with the missing-recipient report when To is missing; the last event is a report exactly when the call raises |
| `EmailSend.DeliveryOf` | Notification/Email/Email_Send.cs:130-136 | defines what `SmtpClient.Send` receives for a message: the configured host, the configured credentials and the message |
| `EmailSend.PrimaryDelivery` | Notification/Email/Email_Send.cs:130-136 | defines the one delivery Send may attempt: the composed message with the configured host and credentials |
| `EmailSend.DeliveryPosition` | Notification/Email/Email_Send.cs:73-138 | an event is a delivery exactly when it directly follows the missing-recipient report (or comes first, when To is set) and composition succeeded; every delivery carries the composed message with the configured host and credentials |
| `EmailSend.AtMostOneDelivery` | Notification/Email/Email_Send.cs:130-138 | the SMTP server is given at most one message, always the fully composed one with the configured host and credentials |
| `EmailSend.DeliveredExactlyWhenComposed` | Notification/Email/Email_Send.cs:71-138 | the composed message is handed to the SMTP server exactly when composition succeeded |
| `EmailSend.OkExactlyWhenDelivered` | Notification/Email/Email_Send.cs:130-144 | the call ends normally exactly when composition succeeds and the server accepts the delivery, and the delivery is then the last event |
| `EmailSend.FailureReportedOnceThenRethrown` | Notification/Email/Email_Send.cs:140-144 | on an exception the last event is the one generic "Fido Error" report (body starting "Fido Failed: Generic error sending email.") naming the original fault; no other failure report is sent; the original error is rethrown unless the report itself throws, whose error then escapes |
| `EmailSend.ReportsAreKnown` | Notification/Email/Email_Send.cs:77-142 | every report in a run is either the missing-recipient report or the failure report for the exception the try block raised |
| `EmailSend.ReportsAddressedFromConfig` | Notification/Email/Email_Send.cs:65-66 | every report is sent to the configured error mailbox and from Fido's configured mailbox (null when unconfigured), with subject "Fido Error", and its body is the missing-recipient text or starts with the generic failure text |
| `EmailSend.DeliveriesUseConfig` | Notification/Email/Email_Send.cs:130-136 | every delivery uses the configured server host (null when unconfigured) and the configured SMTP user and password, each the empty string when unconfigured |
| `EmailSend.NoRecipientRaises` | Notification/Email/Email_Send.cs:73-144 | with To and CC both missing, and a server that refuses messages without recipients, the call raises after a trace of exactly: the missing-recipient report, the delivery, the failure report |
| `EmailSend.RefusesRecipientlessMessages` | Notification/Email/Email_Send.cs:136 | defines the assumption that `SmtpClient.Send` refuses any message with neither a To nor a CC recipient |
| `EmailSend.ValidInputsDelivered` | Notification/Email/Email_Send.cs:63-138 | with accepted addresses, a set From, a missing-recipient report (if sent) that does not throw, readable files and a server that accepts the message, the call ends normally after exactly the report (if any) and the delivery |
| `EmailSend.NoHostRaises` | Notification/Email/Email_Send.cs:67-144 | without a configured server host, and a server that refuses deliveries without a host, the call raises; when composition succeeded, the delivery attempt is followed by the failure report |
| `EmailSend.RefusesMissingHost` | Notification/Email/Email_Send.cs:136 | defines the assumption that `SmtpClient.Send` refuses any delivery whose host is null or empty, that is, that no fallback host is configured for the application |
| `EmailSend.Send` | Notification/Email/Email_Send.cs:63-145 | the outcome and trace of the method are those of the reference behaviour `SendRun` |

## Left out

- SMTP networking, the `SmtpClient` connection and its disposal (lines 130, 137). Construction and sending are one oracle, `transportAccepts`, which also sees the host. The oracle may refuse a delivery without a host; `NoHostRaises` shows that when it does, the call raises. That refusal (`RefusesMissingHost`) assumes no fallback host is configured: SmtpClient replaces a null or empty host with the application's `<mailSettings>` host when one is configured, so a missing `fido.email.smtpsvr` does not by itself leave SmtpClient without a host. The scoped release and the second `Dispose` have no observable effect in the model.
- Address parsing by `MailAddress` and `MailAddressCollection.Add`. Parsing is the `addressParses` oracle, except that a null or empty From is refused outright. A comma-separated To or CC string is recorded as one entry rather than split into several addresses. One oracle serves both the list parser behind `To.Add`/`CC.Add` and the single-address parser behind `new MailAddress(From)`, so the model cannot express a string that the list parser accepts and the single-address parser rejects.
- Reading image and attachment files from disk. This is the `fileReadable` oracle.
- `Object_Fido_Configs.GetAsString`. It is a map lookup with the given default, and a lookup never fails.
- The 7-argument `Send` overload called at lines 79 and 142 is not part of this model. Each call is one `Notify` event, and the `notifyRaises` oracle says whether it throws. Its own behaviour and its re-entry into the mailer are not modelled.
- The text of the caught exception appended to the failure report (line 142). It is the `describe` oracle and depends only on the error kind.
- The identity of exceptions. The four error kinds merge distinct .NET exceptions: argument, null-argument and format exceptions from the address steps; file-not-found and access exceptions from opening files; SMTP and invalid-operation exceptions from delivery. `throw;` rethrows the very exception object caught, and the model keeps only its kind.
- `Console.WriteLine` (line 132, logging only) and the MIME wire format.
- What System.Net.Mail does to Body and Subject on assignment and read-back, apart from the Body getter's null-to-empty rule. The model stores both unchanged and never raises. It does not model the `Subject` setter's refusal of line breaks, its normalisation of the subject to Unicode NFC, or the `Subject` getter returning the empty string for null.
- Null `emailAddressInfo` or `content` arguments, and null entries in `GaugeAttachments`. These would raise a null-reference or argument exception. The model's records and path strings are never null.
- Determinism of composition (the same inputs give the same message) is not stated as a separate member. It follows from `Compose`'s postcondition, which fixes its result as a function of the inputs.
