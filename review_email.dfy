/** The support-review mail (src/constructs/knowlegeBaseEmailQuery/functions/sendEmailToSupport.py):
    pick the original message's body, compose the review text around the generated response,
    send it to the review address and mark the stored email's disposition. */
module SupportReview {
  import opened Outcomes

  /** One part of a parsed message, its payload already decoded to text. */
  datatype Part = Part(contentType: string, payload: string)

  /** A parsed message: whether it is multipart, its parts in walk order (the message itself
      first), its own payload, and its headers. */
  datatype Message = Message(multipart: bool, walk: seq<Part>, payload: string, headers: map<string, string>)

  /** A header as an f-string renders it: an absent header reads as `None`. */
  function Header(message: Message, name: string): (h: string)
    ensures name in message.headers ==> h == message.headers[name]
    ensures name !in message.headers ==> h == "None"
  {
    if name in message.headers then message.headers[name] else "None"
  }

  predicate IsPlainText(part: Part) {
    part.contentType == "text/plain"
  }

  /** The payload of the last text/plain part, if there is one. */
  function LastPlainText(parts: seq<Part>): (r: Option<string>)
    ensures r.None? <==> forall i | 0 <= i < |parts| :: !IsPlainText(parts[i])
  {
    if parts == [] then None
    else if IsPlainText(parts[|parts| - 1]) then Some(parts[|parts| - 1].payload)
    else
      var r := LastPlainText(parts[..|parts| - 1]);
      assert forall i | 0 <= i < |parts| - 1 :: parts[..|parts| - 1][i] == parts[i];
      r
  }

  /** What is selected is the payload of a text/plain part that no other text/plain part follows. */
  lemma {:induction false} LastPlainTextIsLast(parts: seq<Part>)
    requires LastPlainText(parts).Some?
    ensures exists i | 0 <= i < |parts| ::
              && IsPlainText(parts[i]) && parts[i].payload == LastPlainText(parts).value
              && forall j | i < j < |parts| :: !IsPlainText(parts[j])
  {
    var last := |parts| - 1;
    if IsPlainText(parts[last]) {
      assert IsPlainText(parts[last]) && parts[last].payload == LastPlainText(parts).value;
    } else {
      var init := parts[..last];
      LastPlainTextIsLast(init);
      var i :| 0 <= i < |init| && IsPlainText(init[i]) && init[i].payload == LastPlainText(init).value
               && forall j | i < j < |init| :: !IsPlainText(init[j]);
      assert forall j | i < j < |parts| :: !IsPlainText(parts[j]) by {
        forall j | i < j < |parts| ensures !IsPlainText(parts[j]) {
          if j < last { assert parts[j] == init[j]; }
        }
      }
      assert IsPlainText(parts[i]) && parts[i].payload == LastPlainText(parts).value;
    }
  }

  /** Conversely, the payload of the text/plain part that no other follows is the one selected. */
  lemma {:induction false} LastPlainTextAt(parts: seq<Part>, i: nat)
    requires i < |parts| && IsPlainText(parts[i])
    requires forall j | i < j < |parts| :: !IsPlainText(parts[j])
    ensures LastPlainText(parts) == Some(parts[i].payload)
  {
    if i < |parts| - 1 {
      var init := parts[..|parts| - 1];
      assert !IsPlainText(parts[|parts| - 1]);
      assert forall j | i < j < |init| :: init[j] == parts[j];
      LastPlainTextAt(init, i);
    }
  }

  /** `email_body`: for a multipart message the last text/plain part in walk order, which Python
      leaves unbound when there is none; otherwise the message's own payload. */
  function BodyOf(message: Message): Result<string> {
    if !message.multipart then Ok(message.payload)
    else
      match LastPlainText(message.walk)
      case None => Err(Unbound("email_body"))
      case Some(body) => Ok(body)
  }

  /** The body-selection loop: every text/plain part overwrites what an earlier one chose. */
  method SelectBody(message: Message) returns (r: Result<string>)
    ensures r == BodyOf(message)
  {
    if !message.multipart {
      r := Ok(message.payload);
      return;
    }
    var walk := message.walk;
    var found: Option<string> := None;
    for i := 0 to |walk|
      invariant found == LastPlainText(walk[..i])
    {
      assert walk[..i + 1][..i] == walk[..i];
      if IsPlainText(walk[i]) {
        found := Some(walk[i].payload);
      }
    }
    assert walk[..|walk|] == walk;
    if found.None? {
      r := Err(Unbound("email_body"));
    } else {
      r := Ok(found.value);
    }
  }

  const Banner: string := "******** Email response review ********"
  const NoResponseHeading: string := "\n\n--------No Generated Response Message--------"
  const ResponseHeading: string := "\n\n--------Generated Response Message--------"
  const SignOff: string := "\n\nSincerely,\nHR Email Assistant\n\n"
  const AutogeneratedNote: string :=
    "Note: This email response was autogenerated, if you need further information please reach out to your local HR contact directly."
  const OriginalHeading: string := "\n\n--------Original Message--------"

  /** The fixed wording of a review mail. The layout lemmas below hold for any wording; the
      handler uses `Review`. */
  datatype Wording = Wording(banner: string, noResponseHeading: string, responseHeading: string,
                             signOff: string, note: string, originalHeading: string)

  const Review: Wording :=
    Wording(Banner, NoResponseHeading, ResponseHeading, SignOff, AutogeneratedNote, OriginalHeading)

  /** Python truthiness of `event["response"]`: None (JSON null) and the empty string are false. */
  predicate Truthy(response: Option<string>) {
    response.Some? && response.value != ""
  }

  /** The review text up to the original message: the banner, then a fixed heading when there is
      no response, otherwise the response under its heading, signed off and followed by the
      autogenerated note. */
  function Opening(w: Wording, response: Option<string>): string {
    if !Truthy(response) then w.banner + w.noResponseHeading
    else w.banner + w.responseHeading + ("\n" + response.value + w.signOff) + w.note
  }

  function FromLine(message: Message): string { "\nFrom: " + Header(message, "From") }
  function SentLine(message: Message): string { "\nSent: " + Header(message, "Date") }
  function ToLine(message: Message): string { "\nTo: " + Header(message, "To") }
  function SubjectLine(message: Message): string { "\nSubject: " + Header(message, "Subject") }
  function BodyLine(body: string): string { "\n\n" + body }

  /** The original message's From, Date, To and Subject headers, each on its own line. */
  function HeaderLines(message: Message): string {
    FromLine(message) + SentLine(message) + ToLine(message) + SubjectLine(message)
  }

  /** `email_body_new`: the opening, the original message's headers under their heading, then the
      original body after a blank line. */
  function ReviewBody(w: Wording, response: Option<string>, message: Message, body: string): string {
    Opening(w, response) + w.originalHeading + HeaderLines(message) + BodyLine(body)
  }

  /** Appending four pieces one at a time appends their concatenation. */
  lemma AppendFour(p: string, a: string, b: string, c: string, d: string)
    ensures p + a + b + c + d == p + (a + b + c + d)
  {
  }

  /** The composition, by successive concatenation as the handler builds it. */
  method ComposeReviewBody(response: Option<string>, message: Message, body: string) returns (text: string)
    ensures text == ReviewBody(Review, response, message, body)
  {
    text := Banner;
    if !Truthy(response) {
      text := text + NoResponseHeading;
    } else {
      text := text + ResponseHeading;
      text := text + ("\n" + response.value + SignOff);
      text := text + AutogeneratedNote;
    }
    text := text + OriginalHeading;
    ghost var head := text;
    text := text + FromLine(message);
    text := text + SentLine(message);
    text := text + ToLine(message);
    text := text + SubjectLine(message);
    AppendFour(head, FromLine(message), SentLine(message), ToLine(message), SubjectLine(message));
    text := text + BodyLine(body);
  }

  /** `piece` occurs in `s` at `offset`. */
  predicate At(s: string, offset: nat, piece: string) {
    offset + |piece| <= |s| && s[offset..offset + |piece|] == piece
  }

  /** Both halves of a concatenation occur in it, at their offsets. */
  lemma AtHalves(a: string, b: string)
    ensures At(a + b, 0, a) && At(a + b, |a|, b)
  {
    assert (a + b)[..|a|] == a;
    assert (a + b)[|a|..|a| + |b|] == b;
  }

  /** What occurs inside a piece occurs in the text around it, shifted by the piece's offset. */
  lemma AtWithin(s: string, offset: nat, piece: string, inner: nat, part: string)
    requires At(s, offset, piece) && At(piece, inner, part)
    ensures At(s, offset + inner, part)
  {
    forall k | 0 <= k < |part|
      ensures s[offset + inner..offset + inner + |part|][k] == part[k]
    {
      assert part[k] == piece[inner..inner + |part|][k] == piece[inner + k];
      assert piece[inner + k] == s[offset..offset + |piece|][inner + k];
    }
  }

  /** Each of three concatenated pieces occurs at the sum of the lengths before it. */
  lemma AtThirds(a: string, b: string, c: string)
    ensures At(a + b + c, 0, a) && At(a + b + c, |a|, b) && At(a + b + c, |a| + |b|, c)
  {
    AtHalves(a + b, c);
    AtHalves(a, b);
    AtWithin(a + b + c, 0, a + b, 0, a);
    AtWithin(a + b + c, 0, a + b, |a|, b);
  }

  /** Each of four concatenated pieces occurs at the sum of the lengths before it. */
  lemma AtQuarters(a: string, b: string, c: string, d: string)
    ensures var s := a + b + c + d;
            && |s| == |a| + |b| + |c| + |d|
            && At(s, 0, a) && At(s, |a|, b) && At(s, |a| + |b|, c) && At(s, |a| + |b| + |c|, d)
  {
    AtHalves(a + b + c, d);
    AtThirds(a, b, c);
    AtWithin(a + b + c + d, 0, a + b + c, 0, a);
    AtWithin(a + b + c + d, 0, a + b + c, |a|, b);
    AtWithin(a + b + c + d, 0, a + b + c, |a| + |b|, c);
  }

  /** The review text is the opening, the heading of the original message, its header lines and
      the body line, one after another. */
  lemma ReviewLayout(w: Wording, response: Option<string>, message: Message, body: string)
    ensures var text := ReviewBody(w, response, message, body);
            var opening := Opening(w, response);
            var headers := |opening| + |w.originalHeading|;
            && |text| == headers + |HeaderLines(message)| + |BodyLine(body)|
            && At(text, 0, opening)
            && At(text, |opening|, w.originalHeading)
            && At(text, headers, HeaderLines(message))
            && At(text, headers + |HeaderLines(message)|, BodyLine(body))
  {
    AtQuarters(Opening(w, response), w.originalHeading, HeaderLines(message), BodyLine(body));
  }

  /** The review text ends with the original body after a blank line, whatever the response. */
  lemma ReviewEndsWithBody(w: Wording, response: Option<string>, message: Message, body: string)
    ensures var text := ReviewBody(w, response, message, body);
            && |text| >= 2 + |body|
            && At(text, |text| - |body| - 2, "\n\n")
            && At(text, |text| - |body|, body)
  {
    var text := ReviewBody(w, response, message, body);
    var at := |text| - |BodyLine(body)|;
    ReviewLayout(w, response, message, body);
    AtHalves("\n\n", body);
    AtWithin(text, at, BodyLine(body), 0, "\n\n");
    AtWithin(text, at, BodyLine(body), 2, body);
  }

  /** The opening starts with the banner. Without a response (None or empty) the no-response
      heading follows it; with one, the response heading follows, then the response itself
      starting the next line, then the sign-off and the autogenerated note. */
  lemma OpeningLayout(w: Wording, response: Option<string>)
    ensures var opening := Opening(w, response);
            && At(opening, 0, w.banner)
            && (!Truthy(response) ==> At(opening, |w.banner|, w.noResponseHeading)
                                      && |opening| == |w.banner| + |w.noResponseHeading|)
            && (Truthy(response) ==>
                  var at := |w.banner| + |w.responseHeading| + 1;
                  var v := response.value;
                  && |opening| == at + |v| + |w.signOff| + |w.note|
                  && At(opening, |w.banner|, w.responseHeading)
                  && At(opening, at, v)
                  && At(opening, at + |v|, w.signOff)
                  && At(opening, at + |v| + |w.signOff|, w.note))
  {
    if !Truthy(response) {
      AtHalves(w.banner, w.noResponseHeading);
    } else {
      var v := response.value;
      var line := "\n" + v + w.signOff;
      var opening := w.banner + w.responseHeading + line + w.note;
      AtQuarters(w.banner, w.responseHeading, line, w.note);
      AtThirds("\n", v, w.signOff);
      AtWithin(opening, |w.banner| + |w.responseHeading|, line, 1, v);
      AtWithin(opening, |w.banner| + |w.responseHeading|, line, 1 + |v|, w.signOff);
    }
  }

  /** The review text starts with the banner, whatever the response. */
  lemma ReviewStartsWithBanner(w: Wording, response: Option<string>, message: Message, body: string)
    ensures At(ReviewBody(w, response, message, body), 0, w.banner)
  {
    ReviewLayout(w, response, message, body);
    OpeningLayout(w, response);
    AtWithin(ReviewBody(w, response, message, body), 0, Opening(w, response), 0, w.banner);
  }

  /** The two headings differ, so the review text's response section is never ambiguous. */
  lemma HeadingsDiffer()
    ensures !At(NoResponseHeading, 0, ResponseHeading)
  {
    assert NoResponseHeading[12] != ResponseHeading[12];
  }

  /** The header lines come in the order From, Sent, To, Subject, each a label and the header's
      value (`None` when the message lacks it). */
  lemma HeaderLinesLayout(message: Message)
    ensures var h := HeaderLines(message);
            var sent := |FromLine(message)|;
            var to := sent + |SentLine(message)|;
            var subject := to + |ToLine(message)|;
            && |h| == subject + |SubjectLine(message)|
            && At(h, 0, FromLine(message)) && At(h, sent, SentLine(message))
            && At(h, to, ToLine(message)) && At(h, subject, SubjectLine(message))
  {
    AtQuarters(FromLine(message), SentLine(message), ToLine(message), SubjectLine(message));
  }

  /** The environment the handler reads: the sender, the review address and the table; each is
      None when its variable is unset. */
  datatype Environment = Environment(emailSource: Option<string>, reviewDestination: Option<string>,
                                     table: Option<string>)

  /** The event the handler receives: the raw email already parsed, the generated response, and
      the id of the stored email. */
  datatype ReviewEvent = ReviewEvent(message: Message, response: Option<string>, emailId: string)

  /** The service requests the handler makes. */
  datatype ServiceCall =
    | SendEmail(source: Option<string>, toAddresses: seq<Option<string>>, subject: string, body: string)
    | UpdateDisposition(table: Option<string>, emailId: string, disposition: string, dispositionTs: string)

  /** What the handler returns: the mail service's HTTP status and the review text. */
  datatype Reply = Reply(statusCode: int, body: string)

  const ReviewDisposition: string := "Email Review"

  function ReviewSubject(message: Message): string {
    "Email review - " + Header(message, "Subject")
  }

  /** `handler`. `sendStatus` is the mail service's status code, None when the send throws;
      `updated` is false when the disposition update throws; `now` is the clock's reading. */
  method ReviewHandler(env: Environment, event: ReviewEvent, sendStatus: Option<int>, updated: bool, now: string)
    returns (r: Result<Reply>, calls: seq<ServiceCall>)
    ensures BodyOf(event.message).Err? ==> r == Err(Unbound("email_body")) && calls == []
    ensures BodyOf(event.message).Ok? ==>
              && |calls| >= 1
              && calls[0] == SendEmail(env.emailSource, [env.reviewDestination], ReviewSubject(event.message),
                                       ReviewBody(Review, event.response, event.message, BodyOf(event.message).value))
    ensures BodyOf(event.message).Ok? && sendStatus.None? ==> r == Err(ProviderFault("SendEmail")) && |calls| == 1
    ensures BodyOf(event.message).Ok? && sendStatus.Some? ==>
              |calls| == 2 && calls[1] == UpdateDisposition(env.table, event.emailId, ReviewDisposition, now)
    ensures BodyOf(event.message).Ok? && sendStatus.Some? && !updated ==> r == Err(ProviderFault("UpdateItem"))
    ensures r.Ok? <==> BodyOf(event.message).Ok? && sendStatus.Some? && updated
    ensures r.Ok? ==> r.value == Reply(sendStatus.value, calls[0].body)
  {
    calls := [];
    var body := SelectBody(event.message);
    if body.Err? {
      r := Err(body.error);
      return;
    }
    var text := ComposeReviewBody(event.response, event.message, body.value);
    calls := calls + [SendEmail(env.emailSource, [env.reviewDestination], ReviewSubject(event.message), text)];
    if sendStatus.None? {
      r := Err(ProviderFault("SendEmail"));
      return;
    }
    calls := calls + [UpdateDisposition(env.table, event.emailId, ReviewDisposition, now)];
    if !updated {
      r := Err(ProviderFault("UpdateItem"));
      return;
    }
    r := Ok(Reply(sendStatus.value, text));
  }
}
