/** The OAuth echo bot's main dialog: a two-step waterfall (dispatch on the command, then
    handle the sign-in prompt's result). Every call to a service outside the bot is an
    input: whether a token client is present, what sign-out, the token lookup, Microsoft
    Graph's `/me` and the sign-in prompt answer. A step returns the external calls it makes,
    the replies it sends (in order) and whether the dialog ends or waits for the prompt. */
module Dialogs {
  import opened Wrappers
  import opened TextCase

  /** Used when the configuration has no "ConnectionName". */
  const DefaultConnectionName: string := "BotTeamsAuthADv2"
  /** Handed to the sign-in prompt as its timeout, in milliseconds (five minutes). */
  const SignInTimeoutMs: nat := 300000

  const SignedOutText: string := "\U{2705} You have been signed out."
  const UnableToSignOutText: string := "\U{274C} Unable to sign out. Please try again."
  const SignOutErrorPrefix: string := "\U{274C} Error during sign out: "
  const AuthNotAvailableText: string := "\U{274C} Authentication not available."
  const LoginFirstText: string := "\U{1F510} You need to login first. Type 'login' to authenticate."
  const ProfileHeader: string := "\U{1F464} **Your Profile Information:**\n- **Name:** "
  const ProfileUnavailableText: string := "\U{274C} Sorry, I couldn't retrieve your profile information."
  const EmailLabel: string := "\n- **Email:** "
  const UserIdLabel: string := "\n- **User ID:** "
  const ProfileErrorPrefix: string := "\U{274C} Error retrieving profile: "
  const NotAvailable: string := "Not available"
  const EchoPrefix: string := "\U{1F4E2} **Echo**: "
  const EchoTip: string := "\n\n\U{1F4A1} *Tip: Type 'login' to authenticate for enhanced features!*"
  const AuthenticatedEchoPrefix: string := "\U{1F510} **Authenticated Echo** (Hello "
  const AuthenticatedEchoSeparator: string := "!): "
  const LoginFailedText: string := "\U{274C} **Login was not successful.** Please try again by typing 'login'."
  const WelcomeNamedPrefix: string := "\U{1F389} **Welcome "
  const WelcomeNamedSuffix: string :=
    "!** You are now signed in.\n\n\U{2705} Authentication successful! **Available commands:**\n- Type **'profile'** to see your profile\n- Type **'logout'** to sign out\n- Send any message for an authenticated echo"
  const WelcomeGenericText: string :=
    "\U{1F389} **You are now signed in!** I can access your Microsoft Graph data.\n\n**Available commands:**\n- Type **'profile'** to see your profile\n- Type **'logout'** to sign out\n- Send any message for enhanced features"

  /** The user record Microsoft Graph returns for `/me`; every field may be missing. */
  datatype UserInfo = UserInfo(
    id: Option<string>,
    displayName: Option<string>,
    mail: Option<string>,
    userPrincipalName: Option<string>)

  /** How the body of a Graph reply deserialises. */
  datatype GraphBody = Unparseable | JsonNull | Decoded(info: UserInfo)

  /** What the GET of Graph's `/me` does: it throws, or a response arrives. */
  datatype GraphResponse = GraphThrew(message: string) | GraphReplied(status: int, body: GraphBody)

  /** HTTP's success range, as `EnsureSuccessStatusCode` checks it on Graph's reply. */
  predicate IsSuccessStatus(status: int) {
    200 <= status <= 299
  }

  /** `GetUserInfoAsync`: never fails; every failure (transport, non-2xx status, a body that
      does not deserialise or deserialises to null) yields no user. */
  function GetUserInfo(response: GraphResponse): (info: Option<UserInfo>)
    ensures info.Some? <==>
      response.GraphReplied? && IsSuccessStatus(response.status) && response.body.Decoded?
    ensures info.Some? ==> info.value == response.body.info
  {
    match response
    case GraphThrew(_) => None
    case GraphReplied(status, body) =>
      if !IsSuccessStatus(status) then None
      else if body.Decoded? then Some(body.info) else None
  }

  datatype SignOutResult = SignedOut | SignOutThrew(message: string)

  /** What the token client's `GetUserTokenAsync` does: throws, answers without a token
      (a null response or a null token), or answers with a token. */
  datatype TokenLookup = TokenLookupThrew(message: string) | NoToken | Token(token: string)

  /** The answers of the turn's external services; each is consulted only by the branches
      that call it, and the calls made are reported in the step's result. */
  datatype Services = Services(
    tokenClient: bool,
    signOut: SignOutResult,
    userToken: TokenLookup,
    graph: GraphResponse)

  /** A call to a service outside the bot. */
  datatype Call =
    | SignOutUser(connection: string)
    | GetUserToken(connection: string)
    | GetGraphMe(accessToken: string)

  datatype Next = EndDialog | BeginOAuthPrompt

  datatype StepResult = StepResult(calls: seq<Call>, replies: seq<string>, next: Next)

  /** The four ways `PromptStepAsync` can go. */
  datatype Command = Login | Logout | Profile | EchoText

  /** The `switch` on the lowered text: a missing text falls to the echo branch. */
  function ParseCommand(text: Option<string>): (c: Command)
    ensures c == Login <==> text.Some? && EqualsIgnoringCase(text.value, "login")
    ensures c == Logout <==> text.Some? && EqualsIgnoringCase(text.value, "logout")
    ensures c == Profile <==> text.Some? && EqualsIgnoringCase(text.value, "profile")
  {
    match text
    case None => EchoText
    case Some(t) =>
      LowerMatchesIgnoringCase(t, "login");
      LowerMatchesIgnoringCase(t, "logout");
      LowerMatchesIgnoringCase(t, "profile");
      var command := Lower(t);
      if command == "login" then Login
      else if command == "logout" then Logout
      else if command == "profile" then Profile
      else EchoText
  }

  /** `PromptStepAsync`: only `login` (in any letter case, nothing around it) opens the
      sign-in prompt; every other text is handled and ends the dialog in this turn. */
  function PromptStep(connection: string, text: Option<string>, s: Services): (r: StepResult)
    ensures r.next == BeginOAuthPrompt <==> text.Some? && EqualsIgnoringCase(text.value, "login")
    ensures r.next == BeginOAuthPrompt ==> r.calls == [] && r.replies == []
    ensures r.next == EndDialog ==> |r.replies| == 1
    ensures text.Some? && EqualsIgnoringCase(text.value, "logout") ==> r == HandleLogout(connection, s)
    ensures text.Some? && EqualsIgnoringCase(text.value, "profile") ==> r == HandleProfile(connection, s)
    ensures !(text.Some? && (EqualsIgnoringCase(text.value, "login")
                             || EqualsIgnoringCase(text.value, "logout")
                             || EqualsIgnoringCase(text.value, "profile"))) ==>
      r == HandleEcho(connection, text, s)
  {
    match ParseCommand(text)
    case Login => StepResult([], [], BeginOAuthPrompt)
    case Logout => HandleLogout(connection, s)
    case Profile => HandleProfile(connection, s)
    case EchoText => HandleEcho(connection, text, s)
  }

  /** `HandleLogoutAsync`. */
  function HandleLogout(connection: string, s: Services): (r: StepResult)
    ensures r.next == EndDialog && |r.replies| == 1
    ensures r.calls == (if s.tokenClient then [SignOutUser(connection)] else [])
    ensures r.replies == [SignedOutText] <==> s.tokenClient && s.signOut == SignedOut
    ensures !s.tokenClient ==> r.replies == [UnableToSignOutText]
    ensures s.tokenClient && s.signOut.SignOutThrew? ==>
      r.replies == [SignOutErrorPrefix + s.signOut.message]
  {
    if !s.tokenClient then
      StepResult([], [UnableToSignOutText], EndDialog)
    else
      match s.signOut
      case SignedOut => StepResult([SignOutUser(connection)], [SignedOutText], EndDialog)
      case SignOutThrew(m) =>
        var reply := SignOutErrorPrefix + m;
        assert reply[2] != SignedOutText[2];
        StepResult([SignOutUser(connection)], [reply], EndDialog)
  }

  /** The e-mail line of the profile: `Mail`, else `UserPrincipalName`, else "Not available". */
  function ProfileEmail(u: UserInfo): (email: string)
    ensures u.mail.Some? ==> email == u.mail.value
    ensures u.mail.None? && u.userPrincipalName.Some? ==> email == u.userPrincipalName.value
    ensures u.mail.None? && u.userPrincipalName.None? ==> email == NotAvailable
  {
    u.mail.OrElse(u.userPrincipalName.OrElse(NotAvailable))
  }

  /** The profile card, or the apology when no user information could be fetched. */
  function ProfileMessage(info: Option<UserInfo>): (m: string)
    ensures info.None? <==> m == ProfileUnavailableText
    ensures info.Some? ==>
      var name, email, id := info.value.displayName.OrElse(NotAvailable), ProfileEmail(info.value),
                             info.value.id.OrElse(NotAvailable);
      var i := |ProfileHeader| + |name|;
      var j := i + |EmailLabel| + |email|;
      && |m| == j + |UserIdLabel| + |id|
      && m[..|ProfileHeader|] == ProfileHeader
      && m[|ProfileHeader|..i] == name
      && m[i..i + |EmailLabel|] == EmailLabel
      && m[i + |EmailLabel|..j] == email
      && m[j..j + |UserIdLabel|] == UserIdLabel
      && m[j + |UserIdLabel|..] == id
  {
    match info
    case None => ProfileUnavailableText
    case Some(u) =>
      var m := ProfileHeader + u.displayName.OrElse(NotAvailable)
        + EmailLabel + ProfileEmail(u)
        + UserIdLabel + u.id.OrElse(NotAvailable);
      assert m[0] == ProfileHeader[0];
      m
  }

  /** `HandleProfileAsync`: without a token client, or without a token, the Graph lookup is
      never made. */
  function HandleProfile(connection: string, s: Services): (r: StepResult)
    ensures r.next == EndDialog && |r.replies| == 1
    ensures !s.tokenClient ==> r.calls == [] && r.replies == [AuthNotAvailableText]
    ensures s.tokenClient && s.userToken.NoToken? ==>
      r.calls == [GetUserToken(connection)] && r.replies == [LoginFirstText]
    ensures s.tokenClient && s.userToken.TokenLookupThrew? ==>
      r.calls == [GetUserToken(connection)] && r.replies == [ProfileErrorPrefix + s.userToken.message]
    ensures s.tokenClient && s.userToken.Token? ==>
      r.calls == [GetUserToken(connection), GetGraphMe(s.userToken.token)]
      && r.replies == [ProfileMessage(GetUserInfo(s.graph))]
    ensures (exists t :: GetGraphMe(t) in r.calls) <==> s.tokenClient && s.userToken.Token?
  {
    if !s.tokenClient then
      StepResult([], [AuthNotAvailableText], EndDialog)
    else
      match s.userToken
      case TokenLookupThrew(m) =>
        StepResult([GetUserToken(connection)], [ProfileErrorPrefix + m], EndDialog)
      case NoToken =>
        StepResult([GetUserToken(connection)], [LoginFirstText], EndDialog)
      case Token(t) =>
        var r := StepResult([GetUserToken(connection), GetGraphMe(t)],
                            [ProfileMessage(GetUserInfo(s.graph))], EndDialog);
        assert GetGraphMe(t) in r.calls;
        r
  }

  /** The greeting name of the authenticated echo: the display name, else "there". */
  function GreetingName(info: Option<UserInfo>): (name: string)
    ensures info.Some? && info.value.displayName.Some? ==> name == info.value.displayName.value
    ensures !(info.Some? && info.value.displayName.Some?) ==> name == "there"
  {
    if info.Some? then info.value.displayName.OrElse("there") else "there"
  }

  /** `CreateAuthenticatedEchoAsync`, given the user lookup's result. */
  function AuthenticatedEcho(info: Option<UserInfo>, text: string): (reply: string)
    ensures var i := |AuthenticatedEchoPrefix| + |GreetingName(info)|;
      && |reply| == i + |AuthenticatedEchoSeparator| + |text|
      && reply[..|AuthenticatedEchoPrefix|] == AuthenticatedEchoPrefix
      && reply[|AuthenticatedEchoPrefix|..i] == GreetingName(info)
      && reply[i..i + |AuthenticatedEchoSeparator|] == AuthenticatedEchoSeparator
      && reply[i + |AuthenticatedEchoSeparator|..] == text
  {
    AuthenticatedEchoPrefix + GreetingName(info) + AuthenticatedEchoSeparator + text
  }

  /** The plain echo, with or without the sign-in tip. */
  function PlainEcho(text: string, withTip: bool): (reply: string)
    ensures |reply| == |EchoPrefix| + |text| + (if withTip then |EchoTip| else 0)
    ensures EchoPrefix <= reply
    ensures reply[|EchoPrefix|..|EchoPrefix| + |text|] == text
    ensures reply[|EchoPrefix| + |text|..] == if withTip then EchoTip else ""
  {
    EchoPrefix + text + (if withTip then EchoTip else "")
  }

  /** `HandleEchoAsync`: a missing text is interpolated as the empty string; exactly one
      reply whatever happens. */
  function HandleEcho(connection: string, text: Option<string>, s: Services): (r: StepResult)
    ensures r.next == EndDialog && |r.replies| == 1
    ensures !s.tokenClient ==> r.calls == [] && r.replies == [PlainEcho(text.OrElse(""), true)]
    ensures s.tokenClient && s.userToken.NoToken? ==>
      r.calls == [GetUserToken(connection)] && r.replies == [PlainEcho(text.OrElse(""), true)]
    ensures s.tokenClient && s.userToken.TokenLookupThrew? ==>
      r.calls == [GetUserToken(connection)] && r.replies == [PlainEcho(text.OrElse(""), false)]
    ensures s.tokenClient && s.userToken.Token? ==>
      r.calls == [GetUserToken(connection), GetGraphMe(s.userToken.token)]
      && r.replies == [AuthenticatedEcho(GetUserInfo(s.graph), text.OrElse(""))]
  {
    var messageText := text.OrElse("");
    if !s.tokenClient then
      StepResult([], [PlainEcho(messageText, true)], EndDialog)
    else
      match s.userToken
      case TokenLookupThrew(_) =>
        StepResult([GetUserToken(connection)], [PlainEcho(messageText, false)], EndDialog)
      case NoToken =>
        StepResult([GetUserToken(connection)], [PlainEcho(messageText, true)], EndDialog)
      case Token(t) =>
        StepResult([GetUserToken(connection), GetGraphMe(t)],
                   [AuthenticatedEcho(GetUserInfo(s.graph), messageText)], EndDialog)
  }

  /** The welcome after a successful sign-in: personal when Graph answered, generic otherwise.
      A missing display name is interpolated as the empty string. */
  function WelcomeMessage(info: Option<UserInfo>): (m: string)
    ensures info.None? <==> m == WelcomeGenericText
    ensures info.Some? ==>
      var name := info.value.displayName.OrElse("");
      && |m| == |WelcomeNamedPrefix| + |name| + |WelcomeNamedSuffix|
      && m[..|WelcomeNamedPrefix|] == WelcomeNamedPrefix
      && m[|WelcomeNamedPrefix|..|WelcomeNamedPrefix| + |name|] == name
      && m[|WelcomeNamedPrefix| + |name|..] == WelcomeNamedSuffix
  {
    match info
    case None => WelcomeGenericText
    case Some(u) =>
      var m := WelcomeNamedPrefix + u.displayName.OrElse("") + WelcomeNamedSuffix;
      assert m[4] == WelcomeNamedPrefix[4];
      m
  }

  /** `LoginStepAsync`, given the prompt's token (none when sign-in failed or expired). */
  function LoginStep(token: Option<string>, graph: GraphResponse): (r: StepResult)
    ensures r.next == EndDialog && |r.replies| == 1
    ensures token.None? ==> r.calls == [] && r.replies == [LoginFailedText]
    ensures token.Some? ==>
      r.calls == [GetGraphMe(token.value)] && r.replies == [WelcomeMessage(GetUserInfo(graph))]
  {
    match token
    case None => StepResult([], [LoginFailedText], EndDialog)
    case Some(t) => StepResult([GetGraphMe(t)], [WelcomeMessage(GetUserInfo(graph))], EndDialog)
  }

  /** Where the waterfall stands between turns: at the start, or inside the sign-in prompt. */
  datatype DialogState = Idle | AwaitingSignIn

  /** What the sign-in prompt does this turn: keeps waiting, or ends with a token or without
      one (failure, or the prompt's own timeout). */
  datatype PromptOutcome = PromptPending | PromptCompleted(token: Option<string>)

  datatype TurnResult = TurnResult(state: DialogState, calls: seq<Call>, replies: seq<string>)

  /** The prompt's answer, continuing after whatever step 1 already did. */
  function ContinuePrompt(before: StepResult, prompt: PromptOutcome, graph: GraphResponse): (r: TurnResult)
    ensures r.state == AwaitingSignIn <==> prompt.PromptPending?
    ensures prompt.PromptPending? ==> r.calls == before.calls && r.replies == before.replies
    ensures prompt.PromptCompleted? ==>
      var login := LoginStep(prompt.token, graph);
      r.calls == before.calls + login.calls && r.replies == before.replies + login.replies
  {
    match prompt
    case PromptPending => TurnResult(AwaitingSignIn, before.calls, before.replies)
    case PromptCompleted(token) =>
      var login := LoginStep(token, graph);
      TurnResult(Idle, before.calls + login.calls, before.replies + login.replies)
  }

  /** One turn of the dialog (`RunAsync` on a message or token-response activity). At the
      start of the waterfall the text is dispatched; inside the prompt the text is not
      dispatched at all and only the prompt's answer matters. */
  function RunTurn(connection: string, state: DialogState, text: Option<string>,
                   s: Services, prompt: PromptOutcome): (r: TurnResult)
    ensures state == Idle && !(text.Some? && EqualsIgnoringCase(text.value, "login")) ==>
      var p := PromptStep(connection, text, s);
      r == TurnResult(Idle, p.calls, p.replies) && |r.replies| == 1
    ensures r.state == AwaitingSignIn ==> prompt.PromptPending?
    ensures state == Idle && text.Some? && EqualsIgnoringCase(text.value, "login") ==>
      r == ContinuePrompt(StepResult([], [], BeginOAuthPrompt), prompt, s.graph)
    ensures state == Idle && text.Some? && EqualsIgnoringCase(text.value, "login") && prompt.PromptPending? ==>
      r == TurnResult(AwaitingSignIn, [], [])
    ensures state == AwaitingSignIn ==>
      r == ContinuePrompt(StepResult([], [], BeginOAuthPrompt), prompt, s.graph)
  {
    match state
    case Idle =>
      var step := PromptStep(connection, text, s);
      if step.next == EndDialog then TurnResult(Idle, step.calls, step.replies)
      else ContinuePrompt(step, prompt, s.graph)
    case AwaitingSignIn =>
      ContinuePrompt(StepResult([], [], BeginOAuthPrompt), prompt, s.graph)
  }

  /** From the start of the waterfall, `login` followed by a completed prompt runs the sign-in
      step: the turn's replies are exactly `LoginStepAsync`'s and the dialog is idle again.
      (That no other text reaches the step is `RunTurn`'s first postcondition.) */
  lemma LoginThenCompletedPromptRunsLoginStep(connection: string, text: Option<string>, s: Services, token: Option<string>)
    ensures var r := RunTurn(connection, Idle, text, s, PromptCompleted(token));
      (text.Some? && EqualsIgnoringCase(text.value, "login")) ==>
        r.state == Idle && r.replies == LoginStep(token, s.graph).replies
  {
  }

  /** While the prompt is pending, a typed `logout` or `profile` is not dispatched: no
      sign-out and no token lookup happen. */
  lemma NoDispatchWhileAwaiting(connection: string, text: Option<string>, s: Services, prompt: PromptOutcome)
    ensures forall c :: c in RunTurn(connection, AwaitingSignIn, text, s, prompt).calls ==> c.GetGraphMe?
  {
  }

  /** The dialog's component set: what its constructor registers. */
  datatype OAuthPromptSettings = OAuthPromptSettings(connectionName: string, text: string, title: string, timeoutMs: nat)
  datatype WaterfallStep = PromptStepId | LoginStepId
  datatype DialogSpec = OAuthPromptDialog(id: string, settings: OAuthPromptSettings)
                      | WaterfallDialog(id: string, steps: seq<WaterfallStep>)

  class MainDialog {
    const connectionName: string
    var dialogs: seq<DialogSpec>
    var initialDialogId: string

    /** Builds the component: the sign-in prompt, then the two-step waterfall, which runs first. */
    constructor (configuredConnectionName: Option<string>)
      ensures configuredConnectionName.Some? ==> connectionName == configuredConnectionName.value
      ensures configuredConnectionName.None? ==> connectionName == DefaultConnectionName
      ensures dialogs == [
        OAuthPromptDialog("OAuthPrompt", OAuthPromptSettings(connectionName, "Please Sign In", "Sign In", SignInTimeoutMs)),
        WaterfallDialog("WaterfallDialog", [PromptStepId, LoginStepId])]
      ensures initialDialogId == "WaterfallDialog"
    {
      connectionName := configuredConnectionName.OrElse(DefaultConnectionName);
      dialogs := [];
      initialDialogId := "";
      new;
      AddDialog(OAuthPromptDialog("OAuthPrompt",
        OAuthPromptSettings(connectionName, "Please Sign In", "Sign In", SignInTimeoutMs)));
      AddDialog(WaterfallDialog("WaterfallDialog", [PromptStepId, LoginStepId]));
      initialDialogId := "WaterfallDialog";
    }

    /** Registers one more dialog in the component's set. */
    method AddDialog(d: DialogSpec)
      modifies this
      ensures dialogs == old(dialogs) + [d]
      ensures initialDialogId == old(initialDialogId)
    {
      dialogs := dialogs + [d];
    }
  }
}
