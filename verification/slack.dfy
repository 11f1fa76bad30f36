/**
 The Slack side of the service: `Format` turns one audit event into a webhook message with a
 coloured attachment, and `ProcessAudit` decides whether that message is posted or suppressed
 by the configured ignore list.

 The Go `Message` is mutated through a pointer receiver, so the attachment of one call is the
 starting point of the next; here `Format` takes the message and returns the updated one.
 Rendered text bodies are abstracted to the template chosen, its "Aqua Response" label and the
 failed-controls list; the one-line captions are rendered as strings.
 */
module Slack {
  import opened Optional
  import opened GoInt
  import opened GoStrings
  import opened Aqua
  import opened Controls

  const Fallback: string := "Aqua Security Audit Events"
  const AuthorName: string := "aqua-events"
  const AuthorSubname: string := "AquaEvents"
  const AuthorIcon: string := "https://www.aquasec.com/wp-content/themes/aqua3/favicon.ico"

  const AlreadyRunning: string := "non-compliant container(s) already running"
  const NonCompliant: string := "non-compliant"

  /** The rendering templates of the formatter. */
  datatype Template =
    | Administration        // success of an administrative action
    | CleanScan             // success of an image scan
    | HostAction            // success of a container or image action on a host
    | VulnerabilitySummary  // detect: an image scan found vulnerabilities
    | RuntimeEvent          // detect or block of a runtime container, file or secret event
    | PolicyViolation       // alert: an image violates an assurance policy

  /** Which way an audit is rendered: a template, the raw JSON dump of the record, or nothing at
      all for a result code outside 1..4. */
  datatype Branch = Templated(template: Template) | JsonDump | Unclassified

  /** The attachment text. A `Body` records the template, the literal "Aqua Response" label it
      prints and, for `PolicyViolation`, the joined failed controls ("" for the other templates). */
  datatype Text =
    | Body(template: Template, response: string, failedControls: string)
    | RawDump
    | Empty

  datatype Attachment = Attachment(
    fallback: string,
    color: string,
    authorName: string,
    authorSubname: string,   // the caption line
    authorIcon: string,
    text: Text
  )

  datatype WebhookMessage = WebhookMessage(attachments: seq<Attachment>)

  /** The formatter's configuration and its attachment, which persists between calls. */
  datatype Message = Message(attachment: Attachment, webhook: string, ignoreList: seq<string>)

  datatype Formatted = Formatted(message: Message, webhook: WebhookMessage)

  /** What `ProcessAudit` leaves behind: the updated message and what was posted, if anything. */
  datatype Outcome = Outcome(message: Message, posted: Option<WebhookMessage>)

  // ---------------------------------------------------------------------------------------
  // Classification as a first-match rule table

  /** A rule fires for an audit with result `result` whose type is in `types` or whose category
      is in `categories`. */
  datatype Rule = Rule(result: int, types: set<string>, categories: set<string>, template: Template)

  predicate Fires(rule: Rule, a: Audit) {
    a.result == rule.result && (a.auditType in rule.types || a.category in rule.categories)
  }

  const RuntimeCategories: set<string> := {"container", "file", "secret"}

  /** The templates in order of precedence. */
  const Rules: seq<Rule> := [
    Rule(1, {"Administration"}, {}, Administration),
    Rule(1, {"CVE"}, {"CVE"}, CleanScan),
    Rule(1, {"Docker"}, {"container", "image"}, HostAction),
    Rule(3, {}, {"CVE"}, VulnerabilitySummary),
    Rule(3, {}, RuntimeCategories, RuntimeEvent),
    Rule(2, {}, RuntimeCategories, RuntimeEvent),
    Rule(4, {}, {"image"}, PolicyViolation)
  ]

  /** The template of the first rule from index `i` on that fires for `a`, if any. */
  function FirstMatch(rules: seq<Rule>, a: Audit, i: nat): Option<Template>
    requires i <= |rules|
    decreases |rules| - i
  {
    if i == |rules| then None
    else if Fires(rules[i], a) then Some(rules[i].template)
    else FirstMatch(rules, a, i + 1)
  }

  /** The branch the formatter takes, read off the rule table: the first rule that fires, the
      raw dump when none does, and no output for a result code outside 1..4. */
  function Classify(a: Audit): (b: Branch)
    ensures b == Unclassified <==> !(1 <= a.result <= 4)
    ensures b == Templated(Administration) <==> a.result == 1 && a.auditType == "Administration"
    ensures b == Templated(CleanScan) <==>
              && a.result == 1 && a.auditType != "Administration"
              && (a.auditType == "CVE" || a.category == "CVE")
    ensures b == Templated(HostAction) <==>
              && a.result == 1 && a.auditType != "Administration"
              && a.auditType != "CVE" && a.category != "CVE"
              && (a.auditType == "Docker" || a.category == "container" || a.category == "image")
    ensures b == Templated(VulnerabilitySummary) <==> a.result == 3 && a.category == "CVE"
    ensures b == Templated(RuntimeEvent) <==>
              (a.result == 2 || a.result == 3) && a.category in {"container", "file", "secret"}
    ensures b == Templated(PolicyViolation) <==> a.result == 4 && a.category == "image"
    ensures b == JsonDump <==>
              || (&& a.result == 1 && a.auditType !in {"Administration", "CVE", "Docker"}
                  && a.category !in {"CVE", "container", "image"})
              || (a.result == 3 && a.category !in {"CVE", "container", "file", "secret"})
              || (a.result == 2 && a.category !in {"container", "file", "secret"})
              || (a.result == 4 && a.category != "image")
  {
    if !(1 <= a.result <= 4) then Unclassified
    else
      // the table, rule by rule from the last
      assert FirstMatch(Rules, a, 6) == if Fires(Rules[6], a) then Some(PolicyViolation) else None;
      assert FirstMatch(Rules, a, 5) == if Fires(Rules[5], a) then Some(RuntimeEvent) else FirstMatch(Rules, a, 6);
      assert FirstMatch(Rules, a, 4) == if Fires(Rules[4], a) then Some(RuntimeEvent) else FirstMatch(Rules, a, 5);
      assert FirstMatch(Rules, a, 3) == if Fires(Rules[3], a) then Some(VulnerabilitySummary) else FirstMatch(Rules, a, 4);
      assert FirstMatch(Rules, a, 2) == if Fires(Rules[2], a) then Some(HostAction) else FirstMatch(Rules, a, 3);
      assert FirstMatch(Rules, a, 1) == if Fires(Rules[1], a) then Some(CleanScan) else FirstMatch(Rules, a, 2);
      assert FirstMatch(Rules, a, 0) == if Fires(Rules[0], a) then Some(Administration) else FirstMatch(Rules, a, 1);
      match FirstMatch(Rules, a, 0)
      case Some(t) => Templated(t)
      case None => JsonDump
  }

  // ---------------------------------------------------------------------------------------
  // Derived values

  /** The vulnerability total of the detect caption: Go's `Critical+High+Medium+Low` on `int`,
      added left to right with wrap-around. It is the one int64 congruent to the exact sum modulo
      2^64, and the exact sum whenever that fits. */
  function SeverityTotal(a: Audit): (t: Int64)
    ensures (t - (a.critical + a.high + a.medium + a.low)) % TwoTo64 == 0
    ensures MinInt64 <= a.critical + a.high + a.medium + a.low <= MaxInt64 ==>
              t == a.critical + a.high + a.medium + a.low
  {
    AddFour(a.critical, a.high, a.medium, a.low);
    Add(Add(Add(a.critical, a.high), a.medium), a.low)
  }

  /** The status of an image that violates a policy. */
  function StatusPhrase(d: Data): (s: string)
    ensures s == AlreadyRunning <==> d.blocking && d.pending
    ensures s == AlreadyRunning || s == NonCompliant
  {
    if d.blocking && d.pending then AlreadyRunning else NonCompliant
  }

  // Captions, as the `AuthorSubname` format strings print them.

  function AdministrationCaption(a: Audit): string {
    "User " + a.user + " performed " + a.action + " on " + a.category + " " + a.adjective
  }

  function CleanScanCaption(a: Audit): string {
    "Scan of image " + a.image + " from registry " + a.registry + " revealed no security issues"
  }

  function HostActionCaption(a: Audit): string {
    "User ran action " + a.action + " on host " + a.host
  }

  function VulnerabilityCaption(a: Audit): string {
    "Scan of image " + a.image + " from registry " + a.registry + " revealed "
      + FormatInt(SeverityTotal(a)) + " total vulnerabilities"
  }

  function CommandCaption(a: Audit): string {
    "User ran command " + a.action + " on host " + a.host
  }

  function PolicyCaption(a: Audit): string {
    "Image " + a.image + " is " + StatusPhrase(a.data)
  }

  // ---------------------------------------------------------------------------------------
  // Format

  /** The "Aqua Response" label every template of a result code prints. */
  function ResponseLabel(result: int): string {
    if result == 1 then "Success" else if result == 4 then "Alert" else "Detect"
  }

  /** The text of a branch: the template with its label (and, for the policy template, the
      joined failed controls), the raw dump, or nothing. */
  function TextOf(b: Branch, a: Audit): Text {
    match b
    case Templated(t) =>
      Body(t, ResponseLabel(a.result), if t == PolicyViolation then JoinControls(a.data.controls) else "")
    case JsonDump => RawDump
    case Unclassified => Empty
  }

  /** The caption of a branch; the default author subname when no template applies. */
  function CaptionOf(b: Branch, a: Audit): string {
    match b
    case Templated(Administration) => AdministrationCaption(a)
    case Templated(CleanScan) => CleanScanCaption(a)
    case Templated(HostAction) => HostActionCaption(a)
    case Templated(VulnerabilitySummary) => VulnerabilityCaption(a)
    case Templated(RuntimeEvent) => CommandCaption(a)
    case Templated(PolicyViolation) => PolicyCaption(a)
    case _ => AuthorSubname
  }

  /** The attachment `c` with the text and caption of the branch `Classify` picks for `a`. */
  predicate Rendered(c: Attachment, att: Attachment, a: Audit) {
    att == c.(text := TextOf(Classify(a), a), authorSubname := CaptionOf(Classify(a), a))
  }

  /** A success event (result 1): administration, then image scan, then host action, else the dump. */
  function FormatSuccess(c: Attachment, a: Audit): (att: Attachment)
    requires a.result == 1 && c.authorSubname == AuthorSubname
    ensures Rendered(c, att, a)
  {
    if a.auditType == "Administration" then
      c.(text := Body(Administration, "Success", ""), authorSubname := AdministrationCaption(a))
    else if a.auditType == "CVE" || a.category == "CVE" then
      c.(text := Body(CleanScan, "Success", ""), authorSubname := CleanScanCaption(a))
    else if a.auditType == "Docker" || a.category == "container" || a.category == "image" then
      c.(text := Body(HostAction, "Success", ""), authorSubname := HostActionCaption(a))
    else
      c.(text := RawDump)
  }

  /** A detect event (result 3): image scan findings, then runtime events, else the dump. */
  function FormatDetect(c: Attachment, a: Audit): (att: Attachment)
    requires a.result == 3 && c.authorSubname == AuthorSubname
    ensures Rendered(c, att, a)
  {
    if a.category == "CVE" then
      c.(text := Body(VulnerabilitySummary, "Detect", ""), authorSubname := VulnerabilityCaption(a))
    else if a.category == "container" || a.category == "file" || a.category == "secret" then
      c.(text := Body(RuntimeEvent, "Detect", ""), authorSubname := CommandCaption(a))
    else
      c.(text := RawDump)
  }

  /** A block event (result 2): runtime events, with the detect template and label, else the dump. */
  function FormatBlock(c: Attachment, a: Audit): (att: Attachment)
    requires a.result == 2 && c.authorSubname == AuthorSubname
    ensures Rendered(c, att, a)
  {
    if a.category == "container" || a.category == "file" || a.category == "secret" then
      c.(text := Body(RuntimeEvent, "Detect", ""), authorSubname := CommandCaption(a))
    else
      c.(text := RawDump)
  }

  /** An alert event (result 4): image policy violations, else the dump. */
  function FormatAlert(c: Attachment, a: Audit): (att: Attachment)
    requires a.result == 4 && c.authorSubname == AuthorSubname
    ensures Rendered(c, att, a)
  {
    if a.category == "image" then
      c.(text := Body(PolicyViolation, "Alert", JoinControls(a.data.controls)),
         authorSubname := PolicyCaption(a))
    else
      c.(text := RawDump)
  }

  /** Formats one audit: sets the static author fields, then colour, caption and text by result
      code and category. A result code outside 1..4 leaves the colour of the previous call. */
  function Format(m: Message, a: Audit): (r: Formatted)
    ensures r.webhook == WebhookMessage([r.message.attachment])
    ensures r.message.webhook == m.webhook && r.message.ignoreList == m.ignoreList
    ensures r.message.attachment.fallback == Fallback
    ensures r.message.attachment.authorName == AuthorName
    ensures r.message.attachment.authorIcon == AuthorIcon
    ensures a.result == 1 ==> r.message.attachment.color == "good"
    ensures a.result == 3 ==> r.message.attachment.color == "warning"
    ensures a.result == 2 || a.result == 4 ==> r.message.attachment.color == "danger"
    ensures !(1 <= a.result <= 4) ==> r.message.attachment.color == m.attachment.color
    ensures r.message.attachment.text == TextOf(Classify(a), a)
    ensures r.message.attachment.authorSubname == CaptionOf(Classify(a), a)
  {
    var base := m.attachment.(fallback := Fallback, authorName := AuthorName,
                              authorSubname := AuthorSubname, authorIcon := AuthorIcon);
    var att :=
      if a.result == 1 then FormatSuccess(base.(color := "good"), a)
      else if a.result == 3 then FormatDetect(base.(color := "warning"), a)
      else if a.result == 2 then FormatBlock(base.(color := "danger"), a)
      else if a.result == 4 then FormatAlert(base.(color := "danger"), a)
      else base.(text := Empty);
    Formatted(m.(attachment := att), WebhookMessage([att]))
  }

  // ---------------------------------------------------------------------------------------
  // Suppression

  /** Whether `word` is an entry of `list`, looking at the entries in order. */
  function Contains(list: seq<string>, word: string): (b: bool)
    ensures b <==> exists i :: 0 <= i < |list| && list[i] == word
  {
    if |list| == 0 then false
    else if list[0] == word then true
    else
      var b := Contains(list[1..], word);
      assert forall i :: 1 <= i < |list| ==> list[i] == list[1..][i - 1];
      b
  }

  /** `sliceContains`: whether some entry of `list` equals the trimmed key (the key is trimmed
      afresh on every iteration, always to the same value). The entries are compared as they
      are, character for character and case-sensitively. */
  function SliceContains(list: seq<string>, key: string): (b: bool)
    ensures b <==> TrimSpace(key) in list
  {
    Contains(list, TrimSpace(key))
  }

  const SuccessKeyword: string := "success"
  const BlockKeyword: string := "block"
  const DetectKeyword: string := "detect"
  const AlertKeyword: string := "alert"

  /** The ignore-list keyword of a result code. */
  function Keyword(result: int): Option<string> {
    if result == 1 then Some(SuccessKeyword)
    else if result == 2 then Some(BlockKeyword)
    else if result == 3 then Some(DetectKeyword)
    else if result == 4 then Some(AlertKeyword)
    else None
  }

  /** Formats the audit, then posts it unless the keyword of its result code is in the ignore
      list. */
  function ProcessAudit(m: Message, a: Audit): (o: Outcome)
    ensures o.message == Format(m, a).message
    ensures o.posted.None? <==> Keyword(a.result).Some? && Keyword(a.result).value in m.ignoreList
    ensures o.posted.Some? ==> o.posted.value == WebhookMessage([o.message.attachment])
  {
    var f := Format(m, a);
    var ignore :=
      if a.result == 2 then SliceContains(m.ignoreList, BlockKeyword)
      else if a.result == 1 then SliceContains(m.ignoreList, SuccessKeyword)
      else if a.result == 3 then SliceContains(m.ignoreList, DetectKeyword)
      else if a.result == 4 then SliceContains(m.ignoreList, AlertKeyword)
      else false;
    KeywordIsTrimmed(a.result);
    if ignore then Outcome(f.message, None) else Outcome(f.message, Some(f.webhook))
  }

  /** The keywords have no white space to trim. */
  lemma KeywordIsTrimmed(result: int)
    ensures Keyword(result).Some? ==> TrimSpace(Keyword(result).value) == Keyword(result).value
  {
    if Keyword(result).Some? {
      var k := Keyword(result).value;
      assert NoEdgeSpace(k);
      TrimSpaceNoOp(k);
    }
  }
}
