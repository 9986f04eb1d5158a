/** The upload-confirmation conversation of handlers.py: a document upload,
    then a yes/no question about shortening the Drive link, then a yes/no
    question about posting it to the channel. A python-telegram-bot
    ConversationHandler routes each update to the handler of the current state
    and stores the state the handler returns. The results of the external
    calls (download, Drive upload, shortener, channel send) are inputs. */
module Conversation {
  import opened Wrappers
  import opened Json
  import opened HandlerLinks

  /** END is also the state of a user with no conversation in progress: then
      only the entry point (a document message) is listened to. */
  datatype State = AskShortenConfirmation | AskPostConfirmation | End

  /** context.user_data: a per-user dictionary that outlives a conversation. */
  type UserData = map<string, JsonValue>

  const DriveLinkKey := "drive_link"
  const ShortLinkKey := "short_link"

  /** context.user_data.get(key): None when the key is absent. */
  function Lookup(userData: UserData, key: string): JsonValue {
    GetOr(userData, key, JNull)
  }

  /** What a step does to the outside world, in order. */
  datatype Effect =
    | Reply(text: string)
      /** a reply "<prefix><value>" formatting a user_data value */
    | ReplyWithLink(prefix: string, link: JsonValue)
    | ShortenerRequest(apiUrl: string)
      /** a call of post_to_channel, with the message that reached the channel */
    | ChannelPost(target: JsonValue, sent: Option<string>)

  const ProcessingText := "Processing your file, please wait..."
  const UploadErrorText := "An error occurred while uploading your file. Please try again later."
  const ProcessingErrorText := "An error occurred while processing your file. Please try again later."
  const AskShortenText := "Do you want to shorten this link? (yes/no)"
  const AskPostText := "Do you want to post this link to the channel? (yes/no)"
  const RepromptText := "Please respond with \"yes\" or \"no\"."
  const PostedText := "File posted to channel successfully."
  const NotPostedText := "The file was not posted."
  const ShortenedLabel := "Shortened link: "
  const DriveLinkLabel := "Your Google Drive link: "

  function UploadedText(link: string): string {
    "File uploaded successfully. Here is your Google Drive link: " + link
  }

  function LowerChar(c: char): char {
    if 'A' <= c <= 'Z' then (c as int + 32) as char else c
  }

  /** str.lower() on ASCII letters. */
  function Lower(s: string): (r: string)
    ensures |r| == |s|
    ensures forall i :: 0 <= i < |s| ==> r[i] == LowerChar(s[i])
  {
    if s == [] then [] else [LowerChar(s[0])] + Lower(s[1..])
  }

  predicate IsYes(text: string) { Lower(text) == "yes" }

  predicate IsNo(text: string) { Lower(text) == "no" }

  /** The reply matches "yes" exactly up to letter case: no trimming, no punctuation. */
  lemma IsYesExactly(text: string)
    ensures IsYes(text) <==> |text| == 3 && text[0] in "yY" && text[1] in "eE" && text[2] in "sS"
  {
    if |text| == 3 && text[0] in "yY" && text[1] in "eE" && text[2] in "sS" {
      assert Lower(text) == [Lower(text)[0], Lower(text)[1], Lower(text)[2]];
    }
  }

  lemma IsNoExactly(text: string)
    ensures IsNo(text) <==> |text| == 2 && text[0] in "nN" && text[1] in "oO"
  {
    if |text| == 2 && text[0] in "nN" && text[1] in "oO" {
      assert Lower(text) == [Lower(text)[0], Lower(text)[1]];
    }
  }

  /** What fetching the document did: get_file or the download raised, or the
      bytes arrived and the Drive upload had the given outcome. */
  datatype IngestOutcome = FetchFailed | Fetched(drive: DriveOutcome)

  /** The configuration handlers.py imports from app.py. */
  datatype Config = Config(apiToken: string, botUsername: string)

  /** The result of a handler: the state it returned, or an exception that
      escaped it (the ConversationHandler then keeps the current state). */
  datatype Outcome = Next(state: State) | Raised

  datatype Reaction = Reaction(outcome: Outcome, userData: UserData, effects: seq<Effect>)

  /** handle_document: store the Drive link and ask about shortening when the
      upload gives a truthy link; end otherwise. Every exception is caught. */
  function DocumentReaction(userData: UserData, ingest: IngestOutcome): Reaction {
    match ingest
    case FetchFailed =>
      Reaction(Next(End), userData, [Reply(ProcessingText), Reply(ProcessingErrorText)])
    case Fetched(drive) =>
      match UploadToDrive(drive)
      case Some(link) =>
        if link != "" then
          Reaction(Next(AskShortenConfirmation), userData[DriveLinkKey := JString(link)],
                   [Reply(ProcessingText), Reply(UploadedText(link)), Reply(AskShortenText)])
        else Reaction(Next(End), userData, [Reply(ProcessingText), Reply(UploadErrorText)])
      case None =>
        Reaction(Next(End), userData, [Reply(ProcessingText), Reply(UploadErrorText)])
  }

  /** ask_shorten_confirmation. quote() raises TypeError for a non-string link. */
  function ShortenReplyReaction(userData: UserData, text: string, config: Config, response: HttpOutcome): Reaction {
    if IsYes(text) then
      var driveLink := Lookup(userData, DriveLinkKey);
      if driveLink.JString? then
        var request := ShortenerRequest(ShortenerApiUrl(config.apiToken, driveLink.s));
        match ShortenUrl(driveLink.s, response)
        case Raises => Reaction(Raised, userData, [request])
        case Returns(shortLink) =>
          Reaction(Next(AskPostConfirmation), userData[ShortLinkKey := shortLink],
                   [request, ReplyWithLink(ShortenedLabel, shortLink), Reply(AskPostText)])
      else Reaction(Raised, userData, [])
    else if IsNo(text) then
      var driveLink := Lookup(userData, DriveLinkKey);
      Reaction(Next(AskPostConfirmation), userData[ShortLinkKey := driveLink],
               [ReplyWithLink(DriveLinkLabel, driveLink), Reply(AskPostText)])
    else Reaction(Next(AskShortenConfirmation), userData, [Reply(RepromptText)])
  }

  /** ask_post_confirmation: post_to_channel swallows its own errors, so the
      success reply follows every "yes". */
  function PostReplyReaction(userData: UserData, text: string, config: Config, delivered: bool): Reaction {
    if IsYes(text) then
      var target := Lookup(userData, ShortLinkKey);
      Reaction(Next(End), userData,
               [ChannelPost(target, PostToChannel(target, config.botUsername, delivered)), Reply(PostedText)])
    else if IsNo(text) then Reaction(Next(End), userData, [Reply(NotPostedText)])
    else Reaction(Next(AskPostConfirmation), userData, [Reply(RepromptText)])
  }

  /** One incoming update. Commands and non-text messages are filtered out of
      the choice states; documents are the only entry point. */
  datatype Event = DocumentMessage | TextMessage(text: string) | CommandMessage(text: string) | OtherMessage

  /** What the external calls made while handling an update return. */
  datatype World = World(ingest: IngestOutcome, shortener: HttpOutcome, delivered: bool)

  datatype Session = Session(state: State, userData: UserData)

  datatype StepResult = StepResult(session: Session, effects: seq<Effect>)

  function Apply(s: Session, r: Reaction): StepResult {
    var state := match r.outcome case Next(next) => next case Raised => s.state;
    StepResult(Session(state, r.userData), r.effects)
  }

  /** The ConversationHandler's dispatch of one update (the states map). */
  function Step(config: Config, s: Session, event: Event, world: World): StepResult {
    match s.state
    case End =>
      if event.DocumentMessage? then Apply(s, DocumentReaction(s.userData, world.ingest))
      else StepResult(s, [])
    case AskShortenConfirmation =>
      if event.TextMessage? then Apply(s, ShortenReplyReaction(s.userData, event.text, config, world.shortener))
      else StepResult(s, [])
    case AskPostConfirmation =>
      if event.TextMessage? then Apply(s, PostReplyReaction(s.userData, event.text, config, world.delivered))
      else StepResult(s, [])
  }

  datatype Input = Input(event: Event, world: World)

  /** A sequence of updates handled one after another. */
  function Run(config: Config, s: Session, inputs: seq<Input>): StepResult
    decreases |inputs|
  {
    if inputs == [] then StepResult(s, [])
    else
      var first := Step(config, s, inputs[0].event, inputs[0].world);
      var rest := Run(config, first.session, inputs[1..]);
      StepResult(rest.session, first.effects + rest.effects)
  }

  /** What handle_document and the shorten step guarantee to the later states:
      the Drive link is a non-empty string while a question is open, and the
      link to post is truthy once the post question is asked. */
  ghost predicate Inv(s: Session) {
    && (s.state != End ==> Lookup(s.userData, DriveLinkKey).JString? && Lookup(s.userData, DriveLinkKey).s != "")
    && (s.state == AskPostConfirmation ==> Truthy(Lookup(s.userData, ShortLinkKey)))
  }

  lemma DocumentEstablishesInv(userData: UserData, ingest: IngestOutcome)
    ensures var r := DocumentReaction(userData, ingest);
      && (r.outcome == Next(End) || r.outcome == Next(AskShortenConfirmation))
      && (r.outcome == Next(AskShortenConfirmation) ==>
            Inv(Session(AskShortenConfirmation, r.userData)))
  {
  }

  lemma ShortenKeepsInv(userData: UserData, text: string, config: Config, response: HttpOutcome)
    requires Inv(Session(AskShortenConfirmation, userData))
    ensures var r := ShortenReplyReaction(userData, text, config, response);
      && (r.outcome == Raised || r.outcome == Next(AskShortenConfirmation) || r.outcome == Next(AskPostConfirmation))
      && Inv(Session(AskShortenConfirmation, r.userData))
      && (r.outcome == Next(AskPostConfirmation) ==> Inv(Session(AskPostConfirmation, r.userData)))
  {
    if IsYes(text) {
      var driveLink := Lookup(userData, DriveLinkKey).s;
      var r := ShortenUrl(driveLink, response);
      if r.Returns? && !ShortenSucceeded(response) {
        assert r.value == JString(driveLink);
      }
    }
  }

  lemma StepPreservesInv(config: Config, s: Session, event: Event, world: World)
    requires Inv(s)
    ensures Inv(Step(config, s, event, world).session)
  {
    match s.state
    case End =>
      if event.DocumentMessage? {
        DocumentEstablishesInv(s.userData, world.ingest);
      }
    case AskShortenConfirmation =>
      if event.TextMessage? {
        ShortenKeepsInv(s.userData, event.text, config, world.shortener);
      }
    case AskPostConfirmation =>
      if event.TextMessage? {
        PostKeepsUserData(s.userData, event.text, config, world.delivered);
      }
  }

  lemma {:induction false} RunPreservesInv(config: Config, s: Session, inputs: seq<Input>)
    requires Inv(s)
    ensures Inv(Run(config, s, inputs).session)
    decreases |inputs|
  {
    if inputs != [] {
      StepPreservesInv(config, s, inputs[0].event, inputs[0].world);
      RunPreservesInv(config, Step(config, s, inputs[0].event, inputs[0].world).session, inputs[1..]);
    }
  }

  /** A document at END enters the shorten question and stores the Drive link
      exactly when the upload succeeded; otherwise nothing is stored. */
  lemma DocumentStoresLinkOnlyOnUpload(config: Config, userData: UserData, world: World)
    ensures var r := Step(config, Session(End, userData), DocumentMessage, world);
      && (r.session.state == AskShortenConfirmation <==> world.ingest.Fetched? && world.ingest.drive.DriveCreated?)
      && (r.session.state == AskShortenConfirmation ==>
            r.session.userData == userData[DriveLinkKey := JString(DriveShareLink(world.ingest.drive.fileId))])
      && (r.session.state != AskShortenConfirmation ==> r.session == Session(End, userData))
  {
    if world.ingest.Fetched? && world.ingest.drive.DriveCreated? {
      DriveLinkRoundTrip(world.ingest.drive.fileId);
    }
  }

  /** "yes" to the shorten question stores the shortener's answer under
      short_link after exactly one request for the Drive link, and asks the
      post question; only an exception escaping shorten_url keeps the state. */
  lemma ShortenYes(config: Config, s: Session, text: string, world: World)
    requires s.state == AskShortenConfirmation && Inv(s) && IsYes(text)
    ensures var driveLink := Lookup(s.userData, DriveLinkKey).s;
      var r := Step(config, s, TextMessage(text), world);
      match ShortenUrl(driveLink, world.shortener)
      case Returns(shortLink) =>
        && r.session == Session(AskPostConfirmation, s.userData[ShortLinkKey := shortLink])
        && r.effects == [ShortenerRequest(ShortenerApiUrl(config.apiToken, driveLink)),
                         ReplyWithLink(ShortenedLabel, shortLink), Reply(AskPostText)]
      case Raises =>
        r.session == s && r.effects == [ShortenerRequest(ShortenerApiUrl(config.apiToken, driveLink))]
  {
  }

  /** "no" to the shorten question copies the Drive link into short_link
      unchanged, makes no shortener request, and asks the post question. */
  lemma ShortenNo(config: Config, s: Session, text: string, world: World)
    requires s.state == AskShortenConfirmation && IsNo(text)
    ensures var r := Step(config, s, TextMessage(text), world);
      && r.session == Session(AskPostConfirmation, s.userData[ShortLinkKey := Lookup(s.userData, DriveLinkKey)])
      && forall i :: 0 <= i < |r.effects| ==> !r.effects[i].ShortenerRequest?
  {
    assert !IsYes(text);
  }

  /** Any other text in a choice state re-prompts and changes nothing else. */
  lemma OtherTextReprompts(config: Config, s: Session, text: string, world: World)
    requires s.state != End && !IsYes(text) && !IsNo(text)
    ensures Step(config, s, TextMessage(text), world) == StepResult(s, [Reply(RepromptText)])
  {
  }

  /** For instance, " yes" and "yes." are not "yes". */
  lemma NearMissesReprompt(config: Config, s: Session, world: World)
    requires s.state != End
    ensures Step(config, s, TextMessage(" yes"), world) == StepResult(s, [Reply(RepromptText)])
    ensures Step(config, s, TextMessage("yes."), world) == StepResult(s, [Reply(RepromptText)])
  {
    IsYesExactly(" yes");
    IsNoExactly(" yes");
    IsYesExactly("yes.");
    IsNoExactly("yes.");
  }

  function IsPost(e: Effect): nat { if e.ChannelPost? then 1 else 0 }

  function IsQuestion(e: Effect): nat { if e == Reply(AskShortenText) then 1 else 0 }

  /** The number of post_to_channel calls among the effects. */
  function CountPosts(effects: seq<Effect>): nat {
    if effects == [] then 0 else IsPost(effects[0]) + CountPosts(effects[1..])
  }

  /** The number of times the shorten question was asked, i.e. accepted uploads. */
  function CountQuestions(effects: seq<Effect>): nat {
    if effects == [] then 0 else IsQuestion(effects[0]) + CountQuestions(effects[1..])
  }

  /** The counts of the (at most three) effects of one step, element by element. */
  lemma {:induction false} CountsOfStep(e: seq<Effect>)
    requires |e| <= 3
    ensures CountPosts(e) == (if |e| >= 1 then IsPost(e[0]) else 0)
      + (if |e| >= 2 then IsPost(e[1]) else 0) + (if |e| >= 3 then IsPost(e[2]) else 0)
    ensures CountQuestions(e) == (if |e| >= 1 then IsQuestion(e[0]) else 0)
      + (if |e| >= 2 then IsQuestion(e[1]) else 0) + (if |e| >= 3 then IsQuestion(e[2]) else 0)
  {
    if e != [] {
      CountsOfStep(e[1..]);
    }
  }

  lemma DocumentCounts(userData: UserData, ingest: IngestOutcome)
    ensures var r := DocumentReaction(userData, ingest);
      && CountPosts(r.effects) == 0
      && CountQuestions(r.effects) == (if r.outcome == Next(AskShortenConfirmation) then 1 else 0)
  {
    CountsOfStep(DocumentReaction(userData, ingest).effects);
  }

  lemma ShortenCounts(userData: UserData, text: string, config: Config, response: HttpOutcome)
    ensures var r := ShortenReplyReaction(userData, text, config, response);
      CountPosts(r.effects) == 0 && CountQuestions(r.effects) == 0
  {
    CountsOfStep(ShortenReplyReaction(userData, text, config, response).effects);
  }

  lemma PostCounts(userData: UserData, text: string, config: Config, delivered: bool)
    ensures var r := PostReplyReaction(userData, text, config, delivered);
      CountPosts(r.effects) == (if IsYes(text) then 1 else 0) && CountQuestions(r.effects) == 0
  {
    CountsOfStep(PostReplyReaction(userData, text, config, delivered).effects);
  }

  /** One step posts once exactly on "yes" to the post question, and asks the
      shorten question once exactly when a document opens a conversation. */
  lemma StepCounts(config: Config, s: Session, event: Event, world: World)
    ensures var r := Step(config, s, event, world);
      && CountPosts(r.effects) == (if s.state == AskPostConfirmation && event.TextMessage? && IsYes(event.text) then 1 else 0)
      && CountQuestions(r.effects) == (if s.state == End && r.session.state == AskShortenConfirmation then 1 else 0)
  {
    match s.state
    case End =>
      if event.DocumentMessage? {
        DocumentCounts(s.userData, world.ingest);
      }
    case AskShortenConfirmation =>
      if event.TextMessage? {
        ShortenCounts(s.userData, event.text, config, world.shortener);
      }
    case AskPostConfirmation =>
      if event.TextMessage? {
        PostCounts(s.userData, event.text, config, world.delivered);
      }
  }

  /** "yes" to the post question calls post_to_channel exactly once with
      short_link, always replies success (a failed send included) and ends. */
  lemma PostYes(config: Config, s: Session, text: string, world: World)
    requires s.state == AskPostConfirmation && IsYes(text)
    ensures var r := Step(config, s, TextMessage(text), world);
      var target := Lookup(s.userData, ShortLinkKey);
      && r.session == Session(End, s.userData)
      && CountPosts(r.effects) == 1
      && r.effects[0] == ChannelPost(target, PostToChannel(target, config.botUsername, world.delivered))
      && r.effects[|r.effects| - 1] == Reply(PostedText)
  {
    StepCounts(config, s, TextMessage(text), world);
  }

  /** "no" to the post question ends without posting. */
  lemma PostNo(config: Config, s: Session, text: string, world: World)
    requires s.state == AskPostConfirmation && IsNo(text)
    ensures var r := Step(config, s, TextMessage(text), world);
      r.session == Session(End, s.userData) && CountPosts(r.effects) == 0
  {
    assert !IsYes(text);
    StepCounts(config, s, TextMessage(text), world);
  }

  /** A post happens in a step exactly when "yes" answers the post question. */
  lemma PostOnlyOnYes(config: Config, s: Session, event: Event, world: World)
    ensures CountPosts(Step(config, s, event, world).effects) > 0 <==>
      s.state == AskPostConfirmation && event.TextMessage? && IsYes(event.text)
  {
    StepCounts(config, s, event, world);
  }

  /** A shortener request is made exactly when "yes" answers the shorten question. */
  lemma ShortenerOnlyOnYes(config: Config, s: Session, event: Event, world: World)
    requires Inv(s)
    ensures (exists i :: 0 <= i < |Step(config, s, event, world).effects| &&
               Step(config, s, event, world).effects[i].ShortenerRequest?) <==>
      s.state == AskShortenConfirmation && event.TextMessage? && IsYes(event.text)
  {
    var effects := Step(config, s, event, world).effects;
    if s.state == AskShortenConfirmation && event.TextMessage? && IsYes(event.text) {
      assert effects[0].ShortenerRequest?;
    }
  }

  /** The wizard only moves forward (END, shorten, post, END) or stays put. */
  predicate Forward(from: State, to: State) {
    from == to
    || (from == End && to == AskShortenConfirmation)
    || (from == AskShortenConfirmation && to == AskPostConfirmation)
    || (from == AskPostConfirmation && to == End)
  }

  lemma StepMovesForward(config: Config, s: Session, event: Event, world: World)
    ensures Forward(s.state, Step(config, s, event, world).session.state)
  {
  }

  /** Only drive_link and short_link of user_data are ever written. */
  lemma DocumentFramesUserData(userData: UserData, ingest: IngestOutcome, key: string)
    requires key != DriveLinkKey
    ensures Lookup(DocumentReaction(userData, ingest).userData, key) == Lookup(userData, key)
  {
  }

  lemma ShortenFramesUserData(userData: UserData, text: string, config: Config, response: HttpOutcome, key: string)
    requires key != ShortLinkKey
    ensures Lookup(ShortenReplyReaction(userData, text, config, response).userData, key) == Lookup(userData, key)
  {
  }

  lemma PostKeepsUserData(userData: UserData, text: string, config: Config, delivered: bool)
    ensures PostReplyReaction(userData, text, config, delivered).userData == userData
  {
  }

  lemma StepFramesUserData(config: Config, s: Session, event: Event, world: World, key: string)
    requires key != DriveLinkKey && key != ShortLinkKey
    ensures Lookup(Step(config, s, event, world).session.userData, key) == Lookup(s.userData, key)
  {
    match s.state
    case End =>
      DocumentFramesUserData(s.userData, world.ingest, key);
    case AskShortenConfirmation =>
      if event.TextMessage? {
        ShortenFramesUserData(s.userData, event.text, config, world.shortener, key);
      }
    case AskPostConfirmation =>
      if event.TextMessage? {
        PostKeepsUserData(s.userData, event.text, config, world.delivered);
      }
  }

  lemma {:induction false} RunFramesUserData(config: Config, s: Session, inputs: seq<Input>, key: string)
    requires key != DriveLinkKey && key != ShortLinkKey
    ensures Lookup(Run(config, s, inputs).session.userData, key) == Lookup(s.userData, key)
    decreases |inputs|
  {
    if inputs != [] {
      StepFramesUserData(config, s, inputs[0].event, inputs[0].world, key);
      RunFramesUserData(config, Step(config, s, inputs[0].event, inputs[0].world).session, inputs[1..], key);
    }
  }

  function Open(state: State): nat { if state == End then 0 else 1 }

  lemma {:induction false} CountsDistribute(a: seq<Effect>, b: seq<Effect>)
    ensures CountPosts(a + b) == CountPosts(a) + CountPosts(b)
    ensures CountQuestions(a + b) == CountQuestions(a) + CountQuestions(b)
  {
    if a != [] {
      CountsDistribute(a[1..], b);
      assert (a + b)[0] == a[0] && (a + b)[1..] == a[1..] + b;
    } else {
      assert a + b == b;
    }
  }

  lemma StepPostsBalance(config: Config, s: Session, event: Event, world: World)
    ensures var r := Step(config, s, event, world);
      CountPosts(r.effects) + Open(r.session.state) <= CountQuestions(r.effects) + Open(s.state)
  {
    StepCounts(config, s, event, world);
  }

  /** No double posting: over any run, every channel post is paid for by an
      accepted upload (the shorten question), apart from one conversation that
      may already be open at the start. */
  lemma {:induction false} PostsNeedUploads(config: Config, s: Session, inputs: seq<Input>)
    ensures var r := Run(config, s, inputs);
      CountPosts(r.effects) + Open(r.session.state) <= CountQuestions(r.effects) + Open(s.state)
    decreases |inputs|
  {
    if inputs != [] {
      var first := Step(config, s, inputs[0].event, inputs[0].world);
      var rest := Run(config, first.session, inputs[1..]);
      StepPostsBalance(config, s, inputs[0].event, inputs[0].world);
      PostsNeedUploads(config, first.session, inputs[1..]);
      CountsDistribute(first.effects, rest.effects);
    }
  }

  /** The ingest results that upload_to_drive as written can give: its NameError
      makes every upload look like a Drive failure. */
  predicate AsWrittenIngest(ingest: IngestOutcome) {
    ingest.FetchFailed? || UploadToDriveAsWritten(ingest.drive) == UploadToDrive(ingest.drive)
  }

  /** As written, no document is ever accepted, so a user with no conversation
      in progress never gets past END: nothing is stored, the shortener is never
      called and nothing is posted. */
  lemma {:induction false} AsWrittenNeverLeavesEnd(config: Config, userData: UserData, inputs: seq<Input>)
    requires forall k :: 0 <= k < |inputs| ==> AsWrittenIngest(inputs[k].world.ingest)
    ensures var r := Run(config, Session(End, userData), inputs);
      && r.session == Session(End, userData)
      && CountPosts(r.effects) == 0 && CountQuestions(r.effects) == 0
    decreases |inputs|
  {
    if inputs != [] {
      var s := Session(End, userData);
      var first := Step(config, s, inputs[0].event, inputs[0].world);
      assert AsWrittenIngest(inputs[0].world.ingest);
      assert first.session == s;
      StepCounts(config, s, inputs[0].event, inputs[0].world);
      assert forall k :: 0 <= k < |inputs[1..]| ==> inputs[1..][k] == inputs[k + 1];
      AsWrittenNeverLeavesEnd(config, userData, inputs[1..]);
      CountsDistribute(first.effects, Run(config, s, inputs[1..]).effects);
    }
  }

  /** Three updates in a row: the effects of the three steps, in order. */
  lemma RunThree(config: Config, s: Session, a: Input, b: Input, c: Input)
    ensures var r1 := Step(config, s, a.event, a.world);
      var r2 := Step(config, r1.session, b.event, b.world);
      var r3 := Step(config, r2.session, c.event, c.world);
      Run(config, s, [a, b, c]) == StepResult(r3.session, r1.effects + (r2.effects + r3.effects))
  {
    var r1 := Step(config, s, a.event, a.world);
    var r2 := Step(config, r1.session, b.event, b.world);
    var r3 := Step(config, r2.session, c.event, c.world);
    assert [a, b, c][1..] == [b, c];
    assert [b, c][1..] == [c];
    assert [c][1..] == [];
    assert Run(config, r3.session, []) == StepResult(r3.session, []);
    assert Run(config, r2.session, [c]) == StepResult(r3.session, r3.effects + []);
    assert r3.effects + [] == r3.effects;
    assert Run(config, r1.session, [b, c]) == StepResult(r3.session, r2.effects + r3.effects);
  }

  /** The steps of the scenario below, one by one. */
  lemma ScenarioUploadStep(config: Config, userData: UserData, fileId: string)
    ensures var link := DriveShareLink(Some(fileId));
      Step(config, Session(End, userData), DocumentMessage, World(Fetched(DriveCreated(Some(fileId))), TransportError, false))
      == StepResult(Session(AskShortenConfirmation, userData[DriveLinkKey := JString(link)]),
                    [Reply(ProcessingText), Reply(UploadedText(link)), Reply(AskShortenText)])
  {
    DriveLinkRoundTrip(Some(fileId));
  }

  lemma ScenarioShortenStep(config: Config, userData: UserData, link: string, response: HttpOutcome, shortUrl: string)
    requires Lookup(userData, DriveLinkKey) == JString(link)
    requires ShortenSucceeded(response)
    requires response.body.value.fields["shortenedUrl"] == JString(shortUrl)
    ensures Step(config, Session(AskShortenConfirmation, userData), TextMessage("yes"), World(FetchFailed, response, false))
      == StepResult(Session(AskPostConfirmation, userData[ShortLinkKey := JString(shortUrl)]),
                    [ShortenerRequest(ShortenerApiUrl(config.apiToken, link)),
                     ReplyWithLink(ShortenedLabel, JString(shortUrl)), Reply(AskPostText)])
  {
    IsYesExactly("yes");
  }

  lemma ScenarioPostStep(config: Config, userData: UserData, shortUrl: string)
    requires Lookup(userData, ShortLinkKey) == JString(shortUrl)
    ensures Step(config, Session(AskPostConfirmation, userData), TextMessage("Yes"), World(FetchFailed, TransportError, true))
      == StepResult(Session(End, userData),
                    [ChannelPost(JString(shortUrl), Some(ChannelMessage(config.botUsername, shortUrl))), Reply(PostedText)])
  {
    IsYesExactly("Yes");
  }

  /** The whole wizard for one upload: the document is stored on Drive, "yes"
      shortens the link, "Yes" posts the short link to the channel once, and the
      conversation ends with both links kept in user_data. */
  lemma UploadShortenPostScenario(config: Config, userData: UserData, fileId: string,
                                  response: HttpOutcome, shortUrl: string)
    requires ShortenSucceeded(response)
    requires response.body.value.fields["shortenedUrl"] == JString(shortUrl)
    ensures var inputs := [Input(DocumentMessage, World(Fetched(DriveCreated(Some(fileId))), TransportError, false)),
                           Input(TextMessage("yes"), World(FetchFailed, response, false)),
                           Input(TextMessage("Yes"), World(FetchFailed, TransportError, true))];
      var r := Run(config, Session(End, userData), inputs);
      && r.session.state == End
      && r.session.userData == userData[DriveLinkKey := JString(DriveShareLink(Some(fileId)))]
                                       [ShortLinkKey := JString(shortUrl)]
      && CountPosts(r.effects) == 1
      && ChannelPost(JString(shortUrl), Some(ChannelMessage(config.botUsername, shortUrl))) in r.effects
  {
    var a := Input(DocumentMessage, World(Fetched(DriveCreated(Some(fileId))), TransportError, false));
    var b := Input(TextMessage("yes"), World(FetchFailed, response, false));
    var c := Input(TextMessage("Yes"), World(FetchFailed, TransportError, true));
    var link := DriveShareLink(Some(fileId));
    var u1 := userData[DriveLinkKey := JString(link)];
    var u2 := u1[ShortLinkKey := JString(shortUrl)];
    var s0 := Session(End, userData);
    var r1 := Step(config, s0, a.event, a.world);
    ScenarioUploadStep(config, userData, fileId);
    assert r1.session == Session(AskShortenConfirmation, u1);
    var r2 := Step(config, r1.session, b.event, b.world);
    assert Lookup(u1, DriveLinkKey) == JString(link);
    ScenarioShortenStep(config, u1, link, response, shortUrl);
    assert r2.session == Session(AskPostConfirmation, u2);
    var r3 := Step(config, r2.session, c.event, c.world);
    assert Lookup(u2, ShortLinkKey) == JString(shortUrl);
    ScenarioPostStep(config, u2, shortUrl);
    RunThree(config, s0, a, b, c);
    StepCounts(config, s0, a.event, a.world);
    StepCounts(config, r1.session, b.event, b.world);
    IsYesExactly("Yes");
    StepCounts(config, r2.session, c.event, c.world);
    CountsDistribute(r2.effects, r3.effects);
    CountsDistribute(r1.effects, r2.effects + r3.effects);
  }

  /** The conversation as the bot runs it for one user: the state the
      ConversationHandler keeps, context.user_data, and a record of effects. */
  class ConversationHandler {
    const config: Config
    var state: State
    var userData: UserData
    ghost var log: seq<Effect>

    ghost predicate Valid()
      reads this
    {
      Inv(Session(state, userData))
    }

    constructor (config: Config)
      ensures this.config == config
      ensures state == End && userData == map[] && log == []
      ensures Valid()
    {
      this.config := config;
      state := End;
      userData := map[];
      log := [];
    }

    /** handle_document */
    method HandleDocument(ingest: IngestOutcome) returns (next: State)
      modifies this
      ensures var r := DocumentReaction(old(userData), ingest);
        r.outcome == Next(next) && userData == r.userData && log == old(log) + r.effects
      ensures state == old(state)
    {
      log := log + [Reply(ProcessingText)];
      if ingest.FetchFailed? {
        log := log + [Reply(ProcessingErrorText)];
        return End;
      }
      var driveLink := UploadToDrive(ingest.drive);
      if driveLink.Some? && driveLink.value != "" {
        log := log + [Reply(UploadedText(driveLink.value))];
        log := log + [Reply(AskShortenText)];
        userData := userData[DriveLinkKey := JString(driveLink.value)];
        return AskShortenConfirmation;
      }
      log := log + [Reply(UploadErrorText)];
      return End;
    }

    /** ask_shorten_confirmation */
    method ConfirmShorten(text: string, response: HttpOutcome) returns (outcome: Outcome)
      modifies this
      ensures var r := ShortenReplyReaction(old(userData), text, config, response);
        outcome == r.outcome && userData == r.userData && log == old(log) + r.effects
      ensures state == old(state)
    {
      var answer := Lower(text);
      if answer == "yes" {
        var driveLink := Lookup(userData, DriveLinkKey);
        if !driveLink.JString? {
          return Raised;
        }
        log := log + [ShortenerRequest(ShortenerApiUrl(config.apiToken, driveLink.s))];
        var call := ShortenUrl(driveLink.s, response);
        if call.Raises? {
          return Raised;
        }
        var shortLink := call.value;
        log := log + [ReplyWithLink(ShortenedLabel, shortLink)];
        log := log + [Reply(AskPostText)];
        userData := userData[ShortLinkKey := shortLink];
        return Next(AskPostConfirmation);
      } else if answer == "no" {
        var driveLink := Lookup(userData, DriveLinkKey);
        log := log + [ReplyWithLink(DriveLinkLabel, driveLink)];
        log := log + [Reply(AskPostText)];
        userData := userData[ShortLinkKey := driveLink];
        return Next(AskPostConfirmation);
      } else {
        log := log + [Reply(RepromptText)];
        return Next(AskShortenConfirmation);
      }
    }

    /** ask_post_confirmation */
    method ConfirmPost(text: string, delivered: bool) returns (next: State)
      modifies this
      ensures var r := PostReplyReaction(old(userData), text, config, delivered);
        r.outcome == Next(next) && userData == r.userData && log == old(log) + r.effects
      ensures state == old(state)
    {
      var answer := Lower(text);
      if answer == "yes" {
        var fileOpenerUrl := Lookup(userData, ShortLinkKey);
        var sent := PostToChannel(fileOpenerUrl, config.botUsername, delivered);
        log := log + [ChannelPost(fileOpenerUrl, sent)];
        log := log + [Reply(PostedText)];
        return End;
      } else if answer == "no" {
        log := log + [Reply(NotPostedText)];
        return End;
      } else {
        log := log + [Reply(RepromptText)];
        return AskPostConfirmation;
      }
    }

    /** The ConversationHandler: route the update by state, store the result. */
    method HandleUpdate(event: Event, world: World)
      requires Valid()
      modifies this
      ensures Valid()
      ensures var r := Step(config, old(Session(state, userData)), event, world);
        Session(state, userData) == r.session && log == old(log) + r.effects
    {
      StepPreservesInv(config, Session(state, userData), event, world);
      match state
      case End =>
        if event.DocumentMessage? {
          state := HandleDocument(world.ingest);
        }
      case AskShortenConfirmation =>
        if event.TextMessage? {
          var outcome := ConfirmShorten(event.text, world.shortener);
          if outcome.Next? {
            state := outcome.state;
          }
        }
      case AskPostConfirmation =>
        if event.TextMessage? {
          state := ConfirmPost(event.text, world.delivered);
        }
    }
  }
}
