/**
 * Email_Send.Send: composes a notification email from an address set and a
 * content record, hands it to the SMTP transport, and on any exception
 * reports the failure to the error mailbox and rethrows.
 *
 * What the library and the outside world decide (address parsing, reading
 * files, the SMTP server, the nested notification sends) is supplied as an
 * Environment of oracles; what Send does is recorded as a trace of events.
 */
module EmailSend {
  import opened Mail

  // ---------------------------------------------------------------- entities

  /** EmailAddressInfo(to, from, cc): any of the three may be null. */
  datatype EmailAddressInfo = EmailAddressInfo(to: Option<string>, from: Option<string>, cc: Option<string>)

  /** EmailContent(attachment, body, subject, gaugeAttachments). */
  datatype EmailContent = EmailContent(
    emailAttachment: Option<string>,
    body: Option<string>,
    subject: Option<string>,
    gaugeAttachments: Option<seq<string>>)

  /** The exceptions that can leave the try block, and the one a nested send raises. */
  datatype ErrorKind =
    | AddressFormatError   // To.Add, CC.Add or new MailAddress(From) rejects its argument
    | AttachmentError      // an inline image or the attachment file cannot be opened
    | DeliveryError        // SmtpClient.Send fails
    | NotificationFailure  // a nested error-notification Send throws

  /** How a call ends: normally, or by an exception of the given kind. */
  datatype Outcome = Ok | Raise(kind: ErrorKind)

  /** The arguments of one nested 7-argument Send call (both attachment arguments are null). */
  datatype Notice = Notice(to: Option<string>, cc: Option<string>, from: Option<string>, subject: string, body: string)

  /** What SmtpClient.Send is given: the server host, the credentials and the message. */
  datatype Delivery = Delivery(host: Option<string>, credentials: Credentials, message: MailMessage)

  /** The observable side effects of Send, in order. */
  datatype Event = Notify(notice: Notice) | Transport(delivery: Delivery)

  /**
   * Everything Send learns from outside: the configuration store and the
   * behaviour of the library, the file system, the SMTP server and the
   * nested notification sends.
   */
  datatype Environment = Environment(
    config: map<string, string>,
    addressParses: string -> bool,
    fileReadable: string -> bool,
    transportAccepts: Delivery -> bool,
    notifyRaises: Notice -> bool,
    describe: ErrorKind -> string)

  // ----------------------------------------------------------- configuration

  const ErrorEmailKey := "fido.email.erroremail"
  const FidoEmailKey := "fido.email.fidoemail"
  const SmtpServerKey := "fido.email.smtpsvr"
  const SmtpUserKey := "fido.smtp.smtpuserid"
  const SmtpPasswordKey := "fido.smtp.smtppwd"

  /** Object_Fido_Configs.GetAsString(key, default): the stored value, else the default. */
  function GetAsString(config: map<string, string>, key: string, default: Option<string>): Option<string> {
    if key in config then Some(config[key]) else default
  }

  /** The error mailbox; null when it is not configured. */
  function ErrorEmail(env: Environment): Option<string> {
    GetAsString(env.config, ErrorEmailKey, None)
  }

  /** Fido's own mailbox; null when it is not configured. */
  function FidoEmail(env: Environment): Option<string> {
    GetAsString(env.config, FidoEmailKey, None)
  }

  /** The SMTP server host; null when it is not configured. */
  function SmtpServer(env: Environment): Option<string> {
    GetAsString(env.config, SmtpServerKey, None)
  }

  /** The SMTP credentials; user and password default to the empty string. */
  function SmtpCredentials(env: Environment): Credentials {
    Credentials(GetAsString(env.config, SmtpUserKey, Some("")).value,
                GetAsString(env.config, SmtpPasswordKey, Some("")).value)
  }

  // ----------------------------------------------------------- notifications

  const FidoErrorSubject := "Fido Error"
  const NoSenderBody := "Fido Failed: No sender specified in email."
  const GenericErrorBody := "Fido Failed: Generic error sending email."

  /** The report sent when To is missing: to the error mailbox, empty CC, from the Fido mailbox. */
  function MissingRecipientNotice(env: Environment): Notice {
    Notice(ErrorEmail(env), Some(""), FidoEmail(env), FidoErrorSubject, NoSenderBody)
  }

  /** The report sent from the catch block: the generic text followed by the exception's text. */
  function FailureNotice(env: Environment, kind: ErrorKind): Notice {
    Notice(ErrorEmail(env), FidoEmail(env), FidoEmail(env), FidoErrorSubject, GenericErrorBody + env.describe(kind))
  }

  /** The exception that leaves Send after the catch block reported `kind`. */
  function Escaping(env: Environment, kind: ErrorKind): ErrorKind {
    if env.notifyRaises(FailureNotice(env, kind)) then NotificationFailure else kind
  }

  /** The events composition emits: the missing-recipient report when To is null or empty (:77-80), otherwise none. */
  function LeadingEvents(info: EmailAddressInfo, env: Environment): seq<Event> {
    if IsNullOrEmpty(info.to) then [Notify(MissingRecipientNotice(env))] else []
  }

  // --------------------------------------------------------------- slot table

  /** A content-ID and a MIME type for an inline image. */
  datatype Slot = Slot(contentId: string, mediaType: string)

  const SlotCount: nat := 4

  function Min(a: int, b: int): int {
    if a <= b then a else b
  }

  /**
   * The fixed positional table of inline image slots: index 0 is the total
   * score (JPEG), 1 to 3 the user, machine and threat scores (PNG); there is
   * no slot for any other index.
   */
  function SlotTable(i: nat): (r: Option<Slot>)
    ensures r.Some? <==> i < SlotCount
    ensures r.Some? ==> r.value.mediaType == (if i == 0 then "image/jpg" else "image/png")
  {
    match i
    case 0 => Some(Slot("totalscore", "image/jpg"))
    case 1 => Some(Slot("userscore", "image/png"))
    case 2 => Some(Slot("machinescore", "image/png"))
    case 3 => Some(Slot("threatscore", "image/png"))
    case _ => None
  }

  /** The linked resource for the image at `path` in slot i. */
  function SlotResource(path: string, i: nat): LinkedResource
    requires i < SlotCount
  {
    LinkedResource(path, SlotTable(i).value.contentId, SlotTable(i).value.mediaType)
  }

  /** Every slot has its own content-ID, so each cid: reference in the HTML names one image. */
  lemma SlotContentIdsDistinct(i: nat, j: nat)
    requires i < SlotCount && j < SlotCount && i != j
    ensures SlotTable(i).value.contentId != SlotTable(j).value.contentId
  {
  }

  /**
   * The linked resources the gauge loop attaches for `paths`: one per path
   * while a slot exists, in input order, and nothing for later paths.
   */
  function GaugeResources(paths: seq<string>): (rs: seq<LinkedResource>)
    ensures |rs| == Min(|paths|, SlotCount)
    ensures forall k :: 0 <= k < |rs| ==> rs[k] == SlotResource(paths[k], k)
    decreases |paths|
  {
    if paths == [] then []
    else
      var i := |paths| - 1;
      match SlotTable(i)
      case Some(_) => GaugeResources(paths[..i]) + [SlotResource(paths[i], i)]
      case None => GaugeResources(paths[..i])
  }

  /** Paths after the last slot add nothing. */
  lemma GaugeResourcesIgnoreOverflow(paths: seq<string>)
    ensures GaugeResources(paths) == GaugeResources(paths[..Min(|paths|, SlotCount)])
  {
  }

  /** The content-IDs of the attached inline images are pairwise distinct. */
  lemma GaugeContentIdsDistinct(paths: seq<string>, j: nat, k: nat)
    requires j < k < |GaugeResources(paths)|
    ensures GaugeResources(paths)[j].contentId != GaugeResources(paths)[k].contentId
  {
    SlotContentIdsDistinct(j, k);
  }

  // -------------------------------------------------------------- composition

  /** new MailAddress(from) succeeds: null and "" are refused before parsing. */
  predicate FromParses(from: Option<string>, env: Environment) {
    from.Some? && from.value != "" && env.addressParses(from.value)
  }

  /** Every image that gets a slot can be opened. */
  predicate GaugeImagesReadable(paths: seq<string>, env: Environment) {
    forall k :: 0 <= k < Min(|paths|, SlotCount) ==> env.fileReadable(paths[k])
  }

  /** Zero entries for a null or empty string, otherwise the string itself. */
  function EntryIfSet(s: Option<string>): seq<string> {
    if IsNullOrEmpty(s) then [] else [s.value]
  }

  /**
   * The HTML view added to message m when gauge images are given (:90-121).
   * Its text is the trimmed Body property of m as read back, which is never
   * null, so a null body gives a view with empty text rather than no view.
   */
  function HtmlViews(m: MailMessage, gauges: Option<seq<string>>): (views: seq<AlternateView>)
    ensures |views| == (if gauges.Some? then 1 else 0)
    ensures views != [] ==> HasNoEdgeWhiteSpace(views[0].content) && views[0].mediaType == "text/html"
    ensures views != [] && m.body.None? ==> views[0].content == ""
  {
    match gauges
    case None => []
    case Some(paths) => [AlternateView(Trim(m.BodyText()), "text/html", GaugeResources(paths))]
  }

  /**
   * The first exception the composition steps (:71-128) raise, in the order
   * the code performs them, or None when composition completes.
   */
  function ComposeFault(info: EmailAddressInfo, content: EmailContent, env: Environment): (fault: Option<ErrorKind>)
    ensures fault != Some(DeliveryError)
    ensures HeaderFault(info, env).Some? ==> fault == HeaderFault(info, env)
    ensures fault.None? <==> HeaderFault(info, env).None? && ContentFault(content, env).None?
  {
    match HeaderFault(info, env)
    case Some(kind) => Some(kind)
    case None => ContentFault(content, env)
  }

  /** The first exception raised while the addresses are set (:73-86). */
  function HeaderFault(info: EmailAddressInfo, env: Environment): (fault: Option<ErrorKind>)
    ensures fault.None? <==>
              && (IsNullOrEmpty(info.to) ==> !env.notifyRaises(MissingRecipientNotice(env)))
              && (!IsNullOrEmpty(info.to) ==> env.addressParses(info.to.value))
              && (!IsNullOrEmpty(info.cc) ==> env.addressParses(info.cc.value))
              && FromParses(info.from, env)
    ensures fault == Some(NotificationFailure) <==> IsNullOrEmpty(info.to) && env.notifyRaises(MissingRecipientNotice(env))
    ensures fault.Some? ==> fault.value in {AddressFormatError, NotificationFailure}
  {
    if !IsNullOrEmpty(info.to) && !env.addressParses(info.to.value) then Some(AddressFormatError)
    else if IsNullOrEmpty(info.to) && env.notifyRaises(MissingRecipientNotice(env)) then Some(NotificationFailure)
    else if !IsNullOrEmpty(info.cc) && !env.addressParses(info.cc.value) then Some(AddressFormatError)
    else if !FromParses(info.from, env) then Some(AddressFormatError)
    else None
  }

  /** The first exception raised while images and the attachment are opened (:90-128). */
  function ContentFault(content: EmailContent, env: Environment): (fault: Option<ErrorKind>)
    ensures fault.None? <==>
              && (content.gaugeAttachments.Some? ==> GaugeImagesReadable(content.gaugeAttachments.value, env))
              && (!IsNullOrEmpty(content.emailAttachment) ==> env.fileReadable(content.emailAttachment.value))
    ensures fault.Some? ==> fault == Some(AttachmentError)
  {
    if content.gaugeAttachments.Some? && !GaugeImagesReadable(content.gaugeAttachments.value, env) then Some(AttachmentError)
    else if !IsNullOrEmpty(content.emailAttachment) && !env.fileReadable(content.emailAttachment.value) then Some(AttachmentError)
    else None
  }

  /** The message composition builds when no step raises. */
  function Composed(info: EmailAddressInfo, content: EmailContent): (m: MailMessage)
    ensures m.isBodyHtml
    ensures |m.to| <= 1 && |m.cc| <= 1 && |m.alternateViews| <= 1 && |m.attachments| <= 1
  {
    var headed := MailMessage(true, EntryIfSet(info.to), EntryIfSet(info.cc), info.from, content.body, content.subject, [], []);
    headed.(alternateViews := HtmlViews(headed, content.gaugeAttachments),
            attachments := EntryIfSet(content.emailAttachment))
  }

  /** Images after the fourth are never opened, so they cannot make composition raise. */
  lemma OverflowGaugesRaiseNothing(info: EmailAddressInfo, content: EmailContent, env: Environment)
    requires content.gaugeAttachments.Some?
    ensures var paths := content.gaugeAttachments.value;
            ComposeFault(info, content.(gaugeAttachments := Some(paths[..Min(|paths|, SlotCount)])), env)
            == ComposeFault(info, content, env)
  {
  }


  /**
   * What each exception of composition reveals about the inputs: composition
   * never raises a delivery error, raises a notification failure exactly when
   * the missing-recipient report throws, raises an address error only for an
   * address that is set and rejected (or a From that is not set), and an
   * attachment error only for a file that is opened and cannot be read;
   * it completes exactly when every step it performs succeeds.
   */
  lemma ComposeFaultCauses(info: EmailAddressInfo, content: EmailContent, env: Environment)
    ensures ComposeFault(info, content, env) != Some(DeliveryError)
    ensures ComposeFault(info, content, env) == Some(NotificationFailure) <==> IsNullOrEmpty(info.to) && env.notifyRaises(MissingRecipientNotice(env))
    ensures ComposeFault(info, content, env) == Some(AddressFormatError) ==>
              (!IsNullOrEmpty(info.to) && !env.addressParses(info.to.value))
              || (!IsNullOrEmpty(info.cc) && !env.addressParses(info.cc.value))
              || !FromParses(info.from, env)
    ensures ComposeFault(info, content, env) == Some(AttachmentError) ==>
              (content.gaugeAttachments.Some? && !GaugeImagesReadable(content.gaugeAttachments.value, env))
              || (!IsNullOrEmpty(content.emailAttachment) && !env.fileReadable(content.emailAttachment.value))
    ensures ComposeFault(info, content, env).None? <==>
              && (IsNullOrEmpty(info.to) ==> !env.notifyRaises(MissingRecipientNotice(env)))
              && (!IsNullOrEmpty(info.to) ==> env.addressParses(info.to.value))
              && (!IsNullOrEmpty(info.cc) ==> env.addressParses(info.cc.value))
              && FromParses(info.from, env)
              && (content.gaugeAttachments.Some? ==> GaugeImagesReadable(content.gaugeAttachments.value, env))
              && (!IsNullOrEmpty(content.emailAttachment) ==> env.fileReadable(content.emailAttachment.value))
  {
  }

  /**
   * The message composition builds when no step raises: an HTML message whose
   * To and CC hold the given address exactly when it is set, whose From, Body
   * and Subject are the inputs unchanged, with one HTML view of the trimmed
   * body exactly when gauge images are given, holding the images in slot
   * order, and with one file attachment exactly when one is named.
   */
  lemma ComposedMessageShape(info: EmailAddressInfo, content: EmailContent)
    ensures var m := Composed(info, content);
            && m.isBodyHtml
            && (m.to == [] <==> IsNullOrEmpty(info.to))
            && (m.to != [] ==> m.to == [info.to.value])
            && (m.cc == [] <==> IsNullOrEmpty(info.cc))
            && (m.cc != [] ==> m.cc == [info.cc.value])
            && m.from == info.from && m.body == content.body && m.subject == content.subject
    ensures var m := Composed(info, content);
            && |m.alternateViews| == (if content.gaugeAttachments.Some? then 1 else 0)
            && (content.gaugeAttachments.Some? ==>
                  var paths := content.gaugeAttachments.value;
                  var view := m.alternateViews[0];
                  && view.content == Trim(m.BodyText())
                  && view.mediaType == "text/html"
                  && |view.linkedResources| == Min(|paths|, SlotCount)
                  && (forall k :: 0 <= k < |view.linkedResources| ==>
                        view.linkedResources[k] == SlotResource(paths[k], k)))
    ensures var m := Composed(info, content);
            && (m.attachments == [] <==> IsNullOrEmpty(content.emailAttachment))
            && (m.attachments != [] ==> m.attachments == [content.emailAttachment.value])
  {
  }

  /** Gauge paths after the fourth do not change the composed message. */
  lemma OverflowGaugesIgnored(info: EmailAddressInfo, content: EmailContent)
    requires content.gaugeAttachments.Some?
    ensures var paths := content.gaugeAttachments.value;
            Composed(info, content.(gaugeAttachments := Some(paths[..Min(|paths|, SlotCount)])))
            == Composed(info, content)
  {
    var paths := content.gaugeAttachments.value;
    var cut := content.(gaugeAttachments := Some(paths[..Min(|paths|, SlotCount)]));
    GaugeResourcesIgnoreOverflow(paths);
    var headed := Composed(info, content).(alternateViews := [], attachments := []);
    assert HtmlViews(headed, cut.gaugeAttachments) == HtmlViews(headed, content.gaugeAttachments);
  }

  /**
   * The gauge loop (:95-116): link each image that has a slot to the view, in
   * order, and stop at the first one that cannot be opened.
   */
  method LinkGaugeImages(view: AlternateView, paths: seq<string>, env: Environment)
    returns (ok: bool, linked: AlternateView)
    ensures ok <==> GaugeImagesReadable(paths, env)
    ensures ok ==> linked == view.(linkedResources := view.linkedResources + GaugeResources(paths))
  {
    var resources: seq<LinkedResource> := [];
    for i := 0 to |paths|
      invariant |resources| == Min(i, SlotCount)
      invariant forall k :: 0 <= k < |resources| ==> resources[k] == SlotResource(paths[k], k)
      invariant forall k :: 0 <= k < |resources| ==> env.fileReadable(paths[k])
    {
      match SlotTable(i) {
        case Some(_) =>
          if !env.fileReadable(paths[i]) {
            return false, view.(linkedResources := view.linkedResources + resources);
          }
          resources := resources + [SlotResource(paths[i], i)];
        case None =>
      }
    }
    assert resources == GaugeResources(paths);
    ok, linked := true, view.(linkedResources := view.linkedResources + resources);
  }

  /**
   * The first part of the try block (:71-88): a new HTML message, To (or the
   * missing-recipient report instead), CC, From, Body and Subject, stopping
   * at the first step that raises.
   */
  method ComposeHeaders(info: EmailAddressInfo, content: EmailContent, env: Environment)
    returns (r: Result, events: seq<Event>)
    ensures events == LeadingEvents(info, env)
    ensures r.Failure? <==> HeaderFault(info, env).Some?
    ensures r.Failure? ==> r.error == HeaderFault(info, env).value
    ensures r.Success? ==> r.message == Composed(info, content).(alternateViews := [], attachments := [])
  {
    var msg := EmptyHtmlMessage;
    events := [];

    if !IsNullOrEmpty(info.to) {
      if !env.addressParses(info.to.value) {
        return Failure(AddressFormatError), events;
      }
      msg := msg.(to := msg.to + [info.to.value]);
    } else {
      var notice := MissingRecipientNotice(env);
      events := events + [Notify(notice)];
      if env.notifyRaises(notice) {
        return Failure(NotificationFailure), events;
      }
    }

    if !IsNullOrEmpty(info.cc) {
      if !env.addressParses(info.cc.value) {
        return Failure(AddressFormatError), events;
      }
      msg := msg.(cc := msg.cc + [info.cc.value]);
    }
    if !FromParses(info.from, env) {
      return Failure(AddressFormatError), events;
    }
    msg := msg.(from := info.from, body := content.body, subject := content.subject);
    r := Success(msg);
  }

  /**
   * The inline-image step (:90-121): when gauge images are given, wrap the
   * trimmed body in an HTML view, link the images to it and add it to the
   * message.
   */
  method AddHtmlView(msg: MailMessage, gauges: Option<seq<string>>, env: Environment) returns (r: Result)
    ensures r.Failure? <==> gauges.Some? && !GaugeImagesReadable(gauges.value, env)
    ensures r.Failure? ==> r.error == AttachmentError
    ensures r.Success? ==> r.message == msg.(alternateViews := msg.alternateViews + HtmlViews(msg, gauges))
  {
    if gauges.None? {
      return Success(msg);
    }
    var view := AlternateView(Trim(msg.BodyText()), "text/html", []);
    var ok;
    ok, view := LinkGaugeImages(view, gauges.value, env);
    if !ok {
      return Failure(AttachmentError);
    }
    assert [] + GaugeResources(gauges.value) == GaugeResources(gauges.value);
    r := Success(msg.(alternateViews := msg.alternateViews + [view]));
  }

  /** The attachment step (:123-128): attach the named file, if one is named. */
  method AddAttachment(msg: MailMessage, attachment: Option<string>, env: Environment) returns (r: Result)
    ensures r.Failure? <==> !IsNullOrEmpty(attachment) && !env.fileReadable(attachment.value)
    ensures r.Failure? ==> r.error == AttachmentError
    ensures r.Success? ==> r.message == msg.(attachments := msg.attachments + EntryIfSet(attachment))
  {
    if IsNullOrEmpty(attachment) {
      return Success(msg);
    }
    if !env.fileReadable(attachment.value) {
      return Failure(AttachmentError);
    }
    r := Success(msg.(attachments := msg.attachments + [attachment.value]));
  }

  /**
   * The try block up to the transport (:71-128): build the message step by
   * step, firing the missing-recipient report on the way. It stops at the
   * first step that raises.
   */
  method Compose(info: EmailAddressInfo, content: EmailContent, env: Environment)
    returns (r: Result, events: seq<Event>)
    ensures events == LeadingEvents(info, env)
    ensures r.Failure? <==> ComposeFault(info, content, env).Some?
    ensures r.Failure? ==> r.error == ComposeFault(info, content, env).value
    ensures r.Success? ==> r.message == Composed(info, content)
  {
    r, events := ComposeHeaders(info, content, env);
    if r.Success? {
      r := AddHtmlView(r.message, content.gaugeAttachments, env);
    }
    if r.Success? {
      r := AddAttachment(r.message, content.emailAttachment, env);
    }
  }

  /** A composed message, or the exception that stopped composition. */
  datatype Result = Success(message: MailMessage) | Failure(error: ErrorKind)

  // --------------------------------------------------------------------- send

  /** What one call of Send does: how it ends and the events it emitted. */
  datatype Run = Run(outcome: Outcome, trace: seq<Event>)

  /** What SmtpClient.Send is given for message m (:130-136): the configured host and credentials. */
  function DeliveryOf(env: Environment, m: MailMessage): Delivery {
    Delivery(SmtpServer(env), SmtpCredentials(env), m)
  }

  /** The delivery Send attempts once composition succeeds. */
  function PrimaryDelivery(info: EmailAddressInfo, content: EmailContent, env: Environment): Delivery {
    DeliveryOf(env, Composed(info, content))
  }

  /**
   * The reference behaviour of Send (:63-145). The trace is the
   * missing-recipient report (when To is null or empty), then the delivery
   * of the composed message (when composition did not raise), then the
   * failure report (when anything raised).
   */
  function SendRun(info: EmailAddressInfo, content: EmailContent, env: Environment): (run: Run)
    ensures |run.trace| >= 1
    ensures run.trace[..|LeadingEvents(info, env)|] == LeadingEvents(info, env)
    ensures run.outcome.Raise? <==> run.trace[|run.trace| - 1].Notify?
  {
    var lead := LeadingEvents(info, env);
    match ComposeFault(info, content, env)
    case Some(kind) =>
      Run(Raise(Escaping(env, kind)), lead + [Notify(FailureNotice(env, kind))])
    case None =>
      var delivery := PrimaryDelivery(info, content, env);
      if env.transportAccepts(delivery) then
        Run(Ok, lead + [Transport(delivery)])
      else
        Run(Raise(Escaping(env, DeliveryError)), lead + [Transport(delivery), Notify(FailureNotice(env, DeliveryError))])
  }

  /** A missing To is reported first, and composition carries on after the report. */
  lemma MissingRecipientReportedFirst(info: EmailAddressInfo, content: EmailContent, env: Environment)
    requires IsNullOrEmpty(info.to)
    ensures var trace := SendRun(info, content, env).trace;
            && |trace| >= 1
            && trace[0] == Notify(MissingRecipientNotice(env))
            && trace[0].notice.subject == FidoErrorSubject
            && trace[0].notice.to == ErrorEmail(env)
    ensures ComposeFault(info, content, env).None? ==>
              var trace := SendRun(info, content, env).trace;
              && |trace| >= 2
              && trace[1] == Transport(PrimaryDelivery(info, content, env))
              && (IsNullOrEmpty(info.cc) ==> trace[1].delivery.message.to + trace[1].delivery.message.cc == [])
  {
  }

  /**
   * The only event that can be a delivery is the one right after the
   * missing-recipient report (or the first event, when To is set); it is
   * one exactly when composition succeeded, and it delivers the composed
   * message.
   */
  lemma DeliveryPosition(info: EmailAddressInfo, content: EmailContent, env: Environment)
    ensures var trace := SendRun(info, content, env).trace;
            forall k :: 0 <= k < |trace| ==>
              (trace[k].Transport? <==> k == |LeadingEvents(info, env)| && ComposeFault(info, content, env).None?)
    ensures var trace := SendRun(info, content, env).trace;
            forall k :: 0 <= k < |trace| && trace[k].Transport? ==> trace[k].delivery == PrimaryDelivery(info, content, env)
  {
    var lead := LeadingEvents(info, env);
    assert forall k :: 0 <= k < |lead| ==> lead[k].Notify?;
  }

  /** The SMTP server is given at most one message, and it is the composed one. */
  lemma AtMostOneDelivery(info: EmailAddressInfo, content: EmailContent, env: Environment)
    ensures var trace := SendRun(info, content, env).trace;
            forall i, j :: 0 <= i < |trace| && 0 <= j < |trace| && trace[i].Transport? && trace[j].Transport? ==> i == j
    ensures forall e :: e in SendRun(info, content, env).trace && e.Transport? ==> e.delivery == PrimaryDelivery(info, content, env)
  {
    DeliveryPosition(info, content, env);
  }

  /** The composed message is handed to the SMTP server exactly when composition succeeded. */
  lemma DeliveredExactlyWhenComposed(info: EmailAddressInfo, content: EmailContent, env: Environment)
    ensures Transport(PrimaryDelivery(info, content, env)) in SendRun(info, content, env).trace
            <==> ComposeFault(info, content, env).None?
  {
    DeliveryPosition(info, content, env);
  }

  /** Send ends normally exactly when composition and delivery both succeed, with the delivery last. */
  lemma OkExactlyWhenDelivered(info: EmailAddressInfo, content: EmailContent, env: Environment)
    ensures SendRun(info, content, env).outcome == Ok <==>
              ComposeFault(info, content, env).None? && env.transportAccepts(PrimaryDelivery(info, content, env))
    ensures var run := SendRun(info, content, env);
            run.outcome == Ok ==> |run.trace| >= 1 && run.trace[|run.trace| - 1].Transport?
  {
  }

  /**
   * An exception is reported exactly once, by the last event, to the error
   * mailbox; then it is rethrown, unless the report itself throws, whose
   * exception then escapes instead.
   */
  lemma FailureReportedOnceThenRethrown(info: EmailAddressInfo, content: EmailContent, env: Environment)
    requires SendRun(info, content, env).outcome.Raise?
    ensures var run := SendRun(info, content, env);
            && |run.trace| >= 1
            && run.trace[|run.trace| - 1].Notify?
            && var notice := run.trace[|run.trace| - 1].notice;
            && notice.subject == FidoErrorSubject
            && notice.to == ErrorEmail(env)
            && notice.body[..|GenericErrorBody|] == GenericErrorBody
            && (forall k :: 0 <= k < |run.trace| - 1 && run.trace[k].Notify? ==>
                  k == 0 && run.trace[k] == Notify(MissingRecipientNotice(env)))
            && var original := if ComposeFault(info, content, env).Some? then ComposeFault(info, content, env).value
                               else DeliveryError;
            && notice == FailureNotice(env, original)
            && run.outcome.kind == (if env.notifyRaises(notice) then NotificationFailure else original)
  {
  }

  /** SmtpClient.Send refuses a message that has no To, CC or BCC recipient. */
  ghost predicate RefusesRecipientlessMessages(env: Environment) {
    forall d: Delivery :: d.message.to == [] && d.message.cc == [] ==> !env.transportAccepts(d)
  }

  /**
   * With To and CC both missing, the call does not end normally when the
   * transport refuses recipient-less messages: the composed message reaches
   * the transport with no recipient, and the refusal is reported and rethrown.
   */
  lemma NoRecipientRaises(info: EmailAddressInfo, content: EmailContent, env: Environment)
    requires IsNullOrEmpty(info.to) && IsNullOrEmpty(info.cc)
    requires RefusesRecipientlessMessages(env)
    ensures SendRun(info, content, env).outcome.Raise?
    ensures ComposeFault(info, content, env).None? ==>
              SendRun(info, content, env).trace ==
                [Notify(MissingRecipientNotice(env)),
                 Transport(PrimaryDelivery(info, content, env)),
                 Notify(FailureNotice(env, DeliveryError))]
  {
    var d := PrimaryDelivery(info, content, env);
    assert d.message.to == [] && d.message.cc == [];
  }

  /**
   * Every report goes to the configured error mailbox, from Fido's configured
   * mailbox (each null when not configured), under the subject "Fido Error",
   * and its body is either the missing-recipient text or starts with the
   * generic failure text.
   */
  lemma ReportsAddressedFromConfig(info: EmailAddressInfo, content: EmailContent, env: Environment)
    ensures forall e :: e in SendRun(info, content, env).trace && e.Notify? ==>
              && (ErrorEmailKey in env.config ==> e.notice.to == Some(env.config[ErrorEmailKey]))
              && (ErrorEmailKey !in env.config ==> e.notice.to == None)
              && (FidoEmailKey in env.config ==> e.notice.from == Some(env.config[FidoEmailKey]))
              && (FidoEmailKey !in env.config ==> e.notice.from == None)
              && e.notice.subject == "Fido Error"
              && (e.notice.body == "Fido Failed: No sender specified in email."
                  || "Fido Failed: Generic error sending email." <= e.notice.body)
  {
    var original := if ComposeFault(info, content, env).Some? then ComposeFault(info, content, env).value else DeliveryError;
    ReportsAreKnown(info, content, env, original);
    var missing := MissingRecipientNotice(env);
    var failure := FailureNotice(env, original);
    assert missing.to == failure.to == ErrorEmail(env) && missing.from == failure.from == FidoEmail(env);
    assert GenericErrorBody <= failure.body;
  }

  /** Each report in the trace is the missing-recipient report or the failure report for `original`. */
  lemma ReportsAreKnown(info: EmailAddressInfo, content: EmailContent, env: Environment, original: ErrorKind)
    requires original == if ComposeFault(info, content, env).Some? then ComposeFault(info, content, env).value else DeliveryError
    ensures forall e :: e in SendRun(info, content, env).trace && e.Notify? ==>
              e.notice == MissingRecipientNotice(env) || e.notice == FailureNotice(env, original)
  {
    var lead := LeadingEvents(info, env);
    var trace := SendRun(info, content, env).trace;
    var tail := trace[|lead|..];
    assert trace == lead + tail;
    assert forall e :: e in lead ==> e == Notify(MissingRecipientNotice(env));
    assert forall e :: e in tail && e.Notify? ==> e == Notify(FailureNotice(env, original));
  }

  /**
   * Every delivery goes to the configured server host (null when not
   * configured) with the configured SMTP user and password, each of which is
   * the empty string when not configured.
   */
  lemma DeliveriesUseConfig(info: EmailAddressInfo, content: EmailContent, env: Environment)
    ensures forall e :: e in SendRun(info, content, env).trace && e.Transport? ==>
              && (SmtpServerKey in env.config ==> e.delivery.host == Some(env.config[SmtpServerKey]))
              && (SmtpServerKey !in env.config ==> e.delivery.host == None)
              && e.delivery.credentials.user == (if SmtpUserKey in env.config then env.config[SmtpUserKey] else "")
              && e.delivery.credentials.password == (if SmtpPasswordKey in env.config then env.config[SmtpPasswordKey] else "")
  {
    AtMostOneDelivery(info, content, env);
    var d := PrimaryDelivery(info, content, env);
    assert d.host == SmtpServer(env) && d.credentials == SmtpCredentials(env);
  }

  /**
   * With valid addresses, readable files and a server that accepts the
   * message, the call ends normally after delivering the composed message.
   */
  lemma ValidInputsDelivered(info: EmailAddressInfo, content: EmailContent, env: Environment)
    requires IsNullOrEmpty(info.to) ==> !env.notifyRaises(MissingRecipientNotice(env))
    requires !IsNullOrEmpty(info.to) ==> env.addressParses(info.to.value)
    requires !IsNullOrEmpty(info.cc) ==> env.addressParses(info.cc.value)
    requires FromParses(info.from, env)
    requires content.gaugeAttachments.Some? ==> GaugeImagesReadable(content.gaugeAttachments.value, env)
    requires !IsNullOrEmpty(content.emailAttachment) ==> env.fileReadable(content.emailAttachment.value)
    requires env.transportAccepts(PrimaryDelivery(info, content, env))
    ensures SendRun(info, content, env) ==
              Run(Ok, LeadingEvents(info, env) + [Transport(PrimaryDelivery(info, content, env))])
  {
  }

  /**
   * SmtpClient.Send refuses to send when no server host is set. This assumes
   * no fallback host is configured for the application: otherwise SmtpClient
   * replaces a null or empty host with the configured one.
   */
  ghost predicate RefusesMissingHost(env: Environment) {
    forall d: Delivery :: IsNullOrEmpty(d.host) ==> !env.transportAccepts(d)
  }

  /**
   * Without a configured server host, the call does not end normally when the
   * transport refuses host-less deliveries; a composed message still reaches
   * the transport, and the refusal is reported last.
   */
  lemma NoHostRaises(info: EmailAddressInfo, content: EmailContent, env: Environment)
    requires SmtpServerKey !in env.config || env.config[SmtpServerKey] == ""
    requires RefusesMissingHost(env)
    ensures SendRun(info, content, env).outcome.Raise?
    ensures ComposeFault(info, content, env).None? ==>
              SendRun(info, content, env).trace ==
                LeadingEvents(info, env)
                + [Transport(PrimaryDelivery(info, content, env)), Notify(FailureNotice(env, DeliveryError))]
  {
    assert IsNullOrEmpty(PrimaryDelivery(info, content, env).host);
  }

  /**
   * Email_Send.Send (:63-145): the try block (composition, then the
   * transport), and the catch block that reports the exception and rethrows.
   */
  method Send(info: EmailAddressInfo, content: EmailContent, env: Environment)
    returns (outcome: Outcome, trace: seq<Event>)
    ensures Run(outcome, trace) == SendRun(info, content, env)
  {
    var composed, events := Compose(info, content, env);
    trace := events;

    var fault: Option<ErrorKind>;
    match composed {
      case Failure(kind) =>
        fault := Some(kind);
      case Success(msg) =>
        var delivery := DeliveryOf(env, msg);
        trace := trace + [Transport(delivery)];
        fault := if env.transportAccepts(delivery) then None else Some(DeliveryError);
    }

    match fault {
      case None =>
        outcome := Ok;
      case Some(kind) =>
        var notice := FailureNotice(env, kind);
        trace := trace + [Notify(notice)];
        outcome := if env.notifyRaises(notice) then Raise(NotificationFailure) else Raise(kind);
    }
  }
}
