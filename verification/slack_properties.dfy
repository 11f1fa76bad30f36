/**
 Properties of the Slack formatter that relate several calls or several inputs: what decides the
 colour, how the templates take precedence, what the captions report, how the failed controls can
 be read back, and which events the ignore list suppresses.
 */
module SlackProperties {
  import opened Optional
  import opened GoInt
  import opened GoStrings
  import opened Aqua
  import opened Slack
  import opened Controls

  function Caption(m: Message, a: Audit): string {
    Format(m, a).message.attachment.authorSubname
  }

  predicate EndsWith(s: string, suffix: string) {
    |suffix| <= |s| && s[|s| - |suffix|..] == suffix
  }

  // ---------------------------------------------------------------------------------------
  // Colour

  /** Two audits with the same result code get the same colour, whatever else they carry. */
  lemma ColorDependsOnlyOnResult(m: Message, a1: Audit, a2: Audit)
    requires a1.result == a2.result
    ensures Format(m, a1).message.attachment.color == Format(m, a2).message.attachment.color
  {
  }

  /** An audit with an unknown result code keeps the colour left by the previous call, posts an
      empty text and shows the default caption. */
  lemma UnknownResultKeepsPreviousColor(m: Message, previous: Audit, a: Audit)
    requires !(1 <= a.result <= 4)
    ensures var m1 := Format(m, previous).message;
            && Format(m1, a).message.attachment.color == m1.attachment.color
            && Format(m1, a).message.attachment.text == Empty
            && Format(m1, a).message.attachment.authorSubname == AuthorSubname
  {
  }

  // ---------------------------------------------------------------------------------------
  // Precedence and labels

  /** An administration event is rendered as such even when its category also says CVE. */
  lemma AdministrationOutranksCve(m: Message, a: Audit)
    requires a.result == 1 && a.auditType == "Administration" && a.category == "CVE"
    ensures Format(m, a).message.attachment.text == Body(Administration, "Success", "")
    ensures Caption(m, a) == "User " + a.user + " performed " + a.action + " on CVE " + a.adjective
  {
  }

  /** A blocked runtime event is rendered with the detect template, and its "Aqua Response"
      label says "Detect", not "Block". */
  lemma BlockedEventSaysDetect(m: Message, a: Audit)
    requires a.result == 2 && a.category in {"container", "file", "secret"}
    ensures Format(m, a).message.attachment.text == Body(RuntimeEvent, "Detect", "")
    ensures Format(m, a).message.attachment.color == "danger"
  {
  }

  // ---------------------------------------------------------------------------------------
  // Captions

  /** The detect caption of an image scan reports the sum of the four severity counts: read back
      from the caption, the number is congruent to the sum modulo 2^64 (the sum wrapped to int64),
      and is exactly the sum when that fits. */
  lemma VulnerabilityCaptionReportsTotal(m: Message, a: Audit)
    requires a.result == 3 && a.category == "CVE"
    ensures var n := FormatInt(SeverityTotal(a));
            && Caption(m, a) == "Scan of image " + a.image + " from registry " + a.registry
                                + " revealed " + n + " total vulnerabilities"
            && ParseInt(n).Some?
            && (ParseInt(n).value - (a.critical + a.high + a.medium + a.low)) % TwoTo64 == 0
            && (MinInt64 <= a.critical + a.high + a.medium + a.low <= MaxInt64 ==>
                  ParseInt(n) == Some(a.critical + a.high + a.medium + a.low))
  {
    FormatIntRoundTrip(SeverityTotal(a));
  }

  lemma EndsWithConcat(x: string, y: string)
    ensures EndsWith(x + y, y)
    ensures |y| > 0 ==> (x + y)[|x + y| - 1] == y[|y| - 1]
  {
    assert (x + y)[|x|..] == y;
  }

  /** The status caption ends with "already running" exactly for blocking and pending data. */
  lemma StatusCaptionSuffix(image: string, d: Data)
    ensures EndsWith("Image " + image + " is " + StatusPhrase(d), "already running") <==> (d.blocking && d.pending)
  {
    var prefix := "Image " + image + " is ";
    var running := "already running";
    var c := prefix + StatusPhrase(d);
    if d.blocking && d.pending {
      var head := prefix + "non-compliant container(s) ";
      assert AlreadyRunning == "non-compliant container(s) " + running;
      assert c == head + running;
      EndsWithConcat(head, running);
    } else {
      EndsWithConcat(prefix, NonCompliant);
    }
  }

  /** The policy caption ends with "already running" exactly when the policy data says the image
      is both blocking and pending, whatever the image is called; otherwise it says the image is
      non-compliant. */
  lemma PolicyCaptionReportsRunningContainers(m: Message, a: Audit)
    requires a.result == 4 && a.category == "image"
    ensures EndsWith(Caption(m, a), "already running") <==> a.data.blocking && a.data.pending
    ensures !(a.data.blocking && a.data.pending) ==> Caption(m, a) == "Image " + a.image + " is " + NonCompliant
  {
    assert Classify(a) == Templated(PolicyViolation);
    assert Caption(m, a) == PolicyCaption(a);
    StatusCaptionSuffix(a.image, a.data);
  }

  /** The alert text of an image policy violation carries the failed controls, joined. */
  lemma PolicyTextCarriesControls(m: Message, a: Audit)
    requires a.result == 4 && a.category == "image"
    ensures Format(m, a).message.attachment.text ==
              Body(PolicyViolation, "Alert", JoinControls(a.data.controls))
  {
  }

  /** A clean scan of nginx:latest from docker.io. */
  lemma CleanScanExample(m: Message)
    ensures var a := Audit(action := "", adjective := "", category := "", critical := 0,
                           data := Data(blocking := false, controls := [], pending := false),
                           high := 0, host := "", image := "nginx:latest", low := 0, medium := 0,
                           registry := "docker.io", result := 1, auditType := "CVE",
                           user := "alice");
            && Caption(m, a) == "Scan of image " + "nginx:latest" + " from registry " + "docker.io"
                                + " revealed no security issues"
            && Format(m, a).message.attachment.color == "good"
  {
  }

  // ---------------------------------------------------------------------------------------
  // Suppression

  /** An audit with an unknown result code is never suppressed; it is posted with an empty text. */
  lemma UnknownResultIsPosted(m: Message, a: Audit)
    requires !(1 <= a.result <= 4)
    ensures ProcessAudit(m, a).posted.Some?
    ensures ProcessAudit(m, a).posted.value.attachments[0].text == Empty
  {
  }

  /** With "block" in the ignore list no blocked event is posted, and events of other result
      codes are not affected by that entry. */
  lemma BlockEntrySuppressesBlocks(m: Message, a: Audit)
    requires m.ignoreList == ["block"]
    ensures ProcessAudit(m, a).posted.None? <==> a.result == 2
  {
  }

  /** Only the key is trimmed: a key without surrounding white space matches exactly the entries
      equal to it, so an entry with surrounding spaces or in another letter case never matches. */
  lemma EntriesAreNotTrimmed(list: seq<string>, key: string)
    requires NoEdgeSpace(key)
    ensures SliceContains(list, key) <==> key in list
  {
    TrimSpaceNoOp(key);
  }

  /** A key padded with white space matches the bare entry. */
  lemma PaddedKeyMatches(list: seq<string>, pre: string, key: string, post: string)
    requires AllSpace(pre) && AllSpace(post) && NoEdgeSpace(key)
    ensures SliceContains(list, pre + key + post) <==> key in list
  {
    TrimSpacePadding(pre, key, post);
  }
}
