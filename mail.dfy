/**
 * An abstract view of the parts of System.Net.Mail that the notification
 * mailer uses: nullable strings, String.Trim, and the message, alternate
 * view and linked resource objects, all as plain values.
 */
module Mail {

  /** A .NET reference that may be null. */
  datatype Option<T> = None | Some(value: T)

  /** string.IsNullOrEmpty */
  predicate IsNullOrEmpty(s: Option<string>) {
    s.None? || s.value == ""
  }

  /**
   * Char.IsWhiteSpace: the Unicode White_Space characters, which are the
   * characters String.Trim() removes.
   */
  predicate IsWhiteSpace(c: char) {
    || ('\U{0009}' <= c <= '\U{000D}')
    || c == ' '
    || c == '\U{0085}'
    || c == '\U{00A0}'
    || c == '\U{1680}'
    || ('\U{2000}' <= c <= '\U{200A}')
    || c == '\U{2028}'
    || c == '\U{2029}'
    || c == '\U{202F}'
    || c == '\U{205F}'
    || c == '\U{3000}'
  }

  /** Neither the first nor the last character of s is white space. */
  predicate HasNoEdgeWhiteSpace(s: string) {
    s == [] || (!IsWhiteSpace(s[0]) && !IsWhiteSpace(s[|s| - 1]))
  }

  /** String.TrimStart(): drops the leading white space, and only that. */
  function TrimStart(s: string): (r: string)
    ensures |r| <= |s| && r == s[|s| - |r|..]
    ensures r != [] ==> !IsWhiteSpace(r[0])
    ensures forall k :: 0 <= k < |s| - |r| ==> IsWhiteSpace(s[k])
    decreases |s|
  {
    if s != [] && IsWhiteSpace(s[0]) then TrimStart(s[1..]) else s
  }

  /** String.TrimEnd(): drops the trailing white space, and only that. */
  function TrimEnd(s: string): (r: string)
    ensures |r| <= |s| && r == s[..|r|]
    ensures r != [] ==> !IsWhiteSpace(r[|r| - 1])
    ensures forall k :: |r| <= k < |s| ==> IsWhiteSpace(s[k])
    decreases |s|
  {
    if s != [] && IsWhiteSpace(s[|s| - 1]) then TrimEnd(s[..|s| - 1]) else s
  }

  /**
   * r is the piece of s that starts at i, and everything before and after
   * that piece is white space.
   */
  predicate IsTrimmedAt(r: string, s: string, i: nat) {
    && i + |r| <= |s|
    && r == s[i..i + |r|]
    && (forall k :: 0 <= k < i ==> IsWhiteSpace(s[k]))
    && (forall k :: i + |r| <= k < |s| ==> IsWhiteSpace(s[k]))
  }

  /**
   * String.Trim(): the result is a contiguous piece of s with no white space
   * at either end, everything cut away is white space, and a string that
   * has no white space at its ends is returned unchanged.
   */
  function Trim(s: string): (r: string)
    ensures HasNoEdgeWhiteSpace(r)
    ensures exists i :: IsTrimmedAt(r, s, i)
    ensures HasNoEdgeWhiteSpace(s) ==> r == s
  {
    TrimmedAtLeadingCount(s);
    TrimEnd(TrimStart(s))
  }

  /** Trim's result sits in s right after the leading white space. */
  lemma TrimmedAtLeadingCount(s: string)
    ensures IsTrimmedAt(TrimEnd(TrimStart(s)), s, |s| - |TrimStart(s)|)
  {
    var t := TrimStart(s);
    var r := TrimEnd(t);
    var i := |s| - |t|;
    assert t == s[i..];
    assert r == t[..|r|];
    forall k | i + |r| <= k < |s| ensures IsWhiteSpace(s[k]) {
      assert s[k] == t[k - i];
    }
  }

  /** The content-ID and media type under which an inline image is linked. */
  datatype LinkedResource = LinkedResource(path: string, contentId: string, mediaType: string)

  /** An alternate view of the body: its text, media type and inline resources. */
  datatype AlternateView = AlternateView(content: string, mediaType: string, linkedResources: seq<LinkedResource>)

  /**
   * A MailMessage. Body and subject hold what was assigned (null included);
   * to, cc and attachments hold the address strings and file paths added.
   */
  datatype MailMessage = MailMessage(
    isBodyHtml: bool,
    to: seq<string>,
    cc: seq<string>,
    from: Option<string>,
    body: Option<string>,
    subject: Option<string>,
    alternateViews: seq<AlternateView>,
    attachments: seq<string>)
  {
    /** The Body property as read back: the getter never returns null. */
    function BodyText(): string {
      if body.Some? then body.value else ""
    }
  }

  /** new MailMessage { IsBodyHtml = true } */
  const EmptyHtmlMessage := MailMessage(true, [], [], None, None, None, [], [])

  /** NetworkCredential(user, password) */
  datatype Credentials = Credentials(user: string, password: string)
}
