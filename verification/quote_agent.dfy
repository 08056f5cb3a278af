/** The Teams AI agent: three message routes registered in order (`/reset`, `/signout`, then
    every message), the catch-all that counts messages and forwards the text to the query
    recommender, and the sign-in handlers that exist only when a connection name is set.
    The framework's state load and save, its selectors and its sign-in flow are inputs. */
module QuoteAgent {
  import opened Wrappers
  import opened Int32
  import opened Decimal
  import opened Activities
  import opened Models

  const AuthenticationName: string := "entra"
  const RecommenderUrl: string := "http://aksdri.azurewebsites.net/api/kusto-query-recommender/suggest_agents"
  const ResetText: string := "Ok I've deleted the current conversation state"
  const SignedOutText: string := "You have been signed out successfully."
  const NotConfiguredText: string := "Authentication is not configured for this bot."
  const SuggestionLabel: string := "Query suggestion: "
  const StatusLabel: string := "Failed to get query suggestion. Status: "
  const ErrorLabel: string := "Error: Failed to get query suggestion - "
  const SignInSucceededText: string := "Successfully signed in to Microsoft Graph!"
  const SignInFailedText: string := "Failed to sign in to Microsoft Graph"

  /** The sign-in settings added when a connection name is configured. */
  datatype OAuthSettings = OAuthSettings(
    connectionName: string, title: string, text: string, endOnInvalidMessage: bool, enableSso: bool)

  /** The JSON body of the recommender request: a single field, `input_text`. */
  datatype Payload = Payload(input_text: Option<string>)

  /** A call to a service outside the agent. */
  datatype Call = SignOutUser | PostSuggestion(url: string, payload: Payload)

  /** What the recommender POST does: a response arrives (its status code, that code as the
      framework writes it, and the body as text), or an exception is thrown. */
  datatype PostOutcome = Responded(status: int, statusName: string, body: string) | Threw(message: string)

  /** `IsSuccessStatusCode` of the recommender's response: a status in the 2xx range. */
  predicate IsSuccessStatus(status: int) {
    200 <= status <= 299
  }

  /** The registered message routes. */
  datatype Route = ResetRoute | SignOutRoute | MessageRoute

  /** Whether a route takes the activity: every route takes message activities only;
      `selects(k)` is the framework's verdict on whether the message's text selects `k`. */
  predicate Takes(route: Route, activity: Activity, selects: string -> bool)
    ensures Takes(route, activity, selects) ==> activity.MessageActivity?
    ensures route == MessageRoute ==> (Takes(route, activity, selects) <==> activity.MessageActivity?)
  {
    activity.MessageActivity? &&
    match route
    case ResetRoute => selects("/reset")
    case SignOutRoute => selects("/signout")
    case MessageRoute => true
  }

  /** The first registered route that takes the activity. */
  function FirstMatch(routes: seq<Route>, activity: Activity, selects: string -> bool): (r: Option<nat>)
    ensures r.Some? ==>
      && r.value < |routes|
      && Takes(routes[r.value], activity, selects)
      && forall j :: 0 <= j < r.value ==> !Takes(routes[j], activity, selects)
    ensures r.None? ==> forall j :: 0 <= j < |routes| ==> !Takes(routes[j], activity, selects)
  {
    if routes == [] then None
    else if Takes(routes[0], activity, selects) then Some(0)
    else match FirstMatch(routes[1..], activity, selects)
      case None => None
      case Some(i) => Some(i + 1)
  }

  /** "[n] ", the prefix of every catch-all reply. */
  function CountPrefix(count: int32): string {
    "[" + IntToString(count as int) + "] "
  }

  /** The catch-all's reply for the post-increment count and the POST's outcome. */
  function CatchAllReply(count: int32, outcome: PostOutcome): (reply: string)
    ensures CountPrefix(count) <= reply
    ensures var rest := reply[|CountPrefix(count)|..];
      && (SuggestionLabel <= rest <==> outcome.Responded? && IsSuccessStatus(outcome.status))
      && (StatusLabel <= rest <==> outcome.Responded? && !IsSuccessStatus(outcome.status))
      && (ErrorLabel <= rest <==> outcome.Threw?)
    ensures outcome.Responded? && IsSuccessStatus(outcome.status) ==>
      reply[|CountPrefix(count)| + |SuggestionLabel|..] == outcome.body
    ensures outcome.Responded? && !IsSuccessStatus(outcome.status) ==>
      reply[|CountPrefix(count)| + |StatusLabel|..] == outcome.statusName
    ensures outcome.Threw? ==> reply[|CountPrefix(count)| + |ErrorLabel|..] == outcome.message
  {
    var rest :=
      match outcome
      case Responded(status, name, body) =>
        if IsSuccessStatus(status) then SuggestionLabel + body else StatusLabel + name
      case Threw(message) => ErrorLabel + message;
    assert rest[0] == 'Q' <==> SuggestionLabel <= rest;
    assert rest[0] == 'F' <==> StatusLabel <= rest;
    assert rest[0] == 'E' <==> ErrorLabel <= rest;
    CountPrefix(count) + rest
  }

  /** Two catch-all replies that are equal carry the same count. */
  lemma ReplyDeterminesCount(a: int32, oa: PostOutcome, b: int32, ob: PostOutcome)
    requires CatchAllReply(a, oa) == CatchAllReply(b, ob)
    ensures a == b
  {
    var r := CatchAllReply(a, oa);
    var sa, sb := IntToString(a as int), IntToString(b as int);
    IntToStringHasNoBracket(a as int);
    IntToStringHasNoBracket(b as int);
    BracketPosition(sa, r);
    BracketPosition(sb, r);
    assert |sa| == |sb|;
    assert sa == r[1..1 + |sa|] == sb;
    IntToStringInjective(a as int, b as int);
  }

  /** A rendered integer holds no closing bracket. */
  lemma IntToStringHasNoBracket(i: int)
    ensures forall k :: 0 <= k < |IntToString(i)| ==> IntToString(i)[k] != ']'
  {
    if i < 0 {
      forall k | 1 <= k < |IntToString(i)| ensures IntToString(i)[k] != ']' {
        assert IntToString(i)[k] == NatToString(-i)[k - 1];
      }
    }
  }

  /** In a string that starts with "[", then `x`, then "]", where `x` has no "]", the first
      "]" stands right after `x`. */
  lemma BracketPosition(x: string, r: string)
    requires "[" + x + "]" <= r
    requires forall k :: 0 <= k < |x| ==> x[k] != ']'
    ensures r[1 + |x|] == ']'
    ensures forall k :: 1 <= k <= |x| ==> r[k] != ']'
  {
    forall k | 1 <= k <= |x| ensures r[k] != ']' {
      assert r[k] == ("[" + x + "]")[k] == x[k - 1];
    }
  }

  /** The conversation's message count after a turn taken by the given route: the catch-all
      adds one (wrapping at the 32-bit maximum), `/reset` leaves a fresh record (count 0),
      `/signout` leaves it as it is. */
  function NextCount(count: int32, route: Route): (next: int32)
    ensures route == MessageRoute && count as int < MaxValue ==> next as int == count as int + 1
    ensures route == ResetRoute ==> next == 0
    ensures route == SignOutRoute ==> next == count
  {
    match route
    case ResetRoute => 0
    case SignOutRoute => count
    case MessageRoute => Increment(count)
  }

  /** The count after a sequence of routed turns. */
  function CountAfter(count: int32, turns: seq<Route>): int32
    decreases turns
  {
    if turns == [] then count else CountAfter(NextCount(count, turns[0]), turns[1..])
  }

  function Messages(n: nat): (r: seq<Route>)
    ensures |r| == n && forall j :: 0 <= j < n ==> r[j] == MessageRoute
  {
    if n == 0 then [] else [MessageRoute] + Messages(n - 1)
  }

  /** Counting is gap-free: `n` catch-all turns starting from `c` raise the count by `n`
      (below the 32-bit maximum). */
  lemma {:induction false} CountsEveryMessage(c: int32, n: nat)
    requires c as int + n <= MaxValue
    ensures CountAfter(c, Messages(n)) as int == c as int + n
    decreases n
  {
    if n > 0 {
      assert Messages(n)[1..] == Messages(n - 1);
      CountsEveryMessage(NextCount(c, MessageRoute), n - 1);
    }
  }

  /** After `/reset`, whatever came before, the next message is number 1. */
  lemma ResetRestartsCount(c: int32, before: seq<Route>)
    ensures CountAfter(c, before + [ResetRoute, MessageRoute]) == 1
  {
    CountAfterAppend(c, before, [ResetRoute, MessageRoute]);
  }

  lemma {:induction false} CountAfterAppend(c: int32, a: seq<Route>, b: seq<Route>)
    ensures CountAfter(c, a + b) == CountAfter(CountAfter(c, a), b)
    decreases a
  {
    if a == [] {
      assert a + b == b;
    } else {
      assert (a + b)[1..] == a[1..] + b;
      CountAfterAppend(NextCount(c, a[0]), a[1..], b);
    }
  }

  /** The replies of the sign-in success handler. */
  function SignInSuccessReplies(authTokens: map<string, string>, text: Option<string>): (r: seq<string>)
    ensures |r| == (if AuthenticationName in authTokens then 3 else 2)
    ensures r[0] == SignInSucceededText
    ensures AuthenticationName in authTokens ==>
      r[1] == "Token received (length: " + IntToString(|authTokens[AuthenticationName]|) + ")"
    ensures r[|r| - 1] == "You can now use authenticated features. Original message: " + text.OrElse("")
  {
    [SignInSucceededText]
    + (if AuthenticationName in authTokens
       then ["Token received (length: " + IntToString(|authTokens[AuthenticationName]|) + ")"]
       else [])
    + ["You can now use authenticated features. Original message: " + text.OrElse("")]
  }

  /** The agent built by the bot factory. */
  class Application {
    const connectionName: string
    /** Authentication is configured iff the connection name is non-empty. */
    const authentication: Option<OAuthSettings>
    var routes: seq<Route>
    var signInHandlers: bool
    /** The replies sent and the external calls made, each in order. */
    var replies: seq<string>
    var calls: seq<Call>

    /** Authentication is enabled iff the configured connection name is non-empty; the
        authentication options, `/signout` and the sign-in handlers all depend on it. */
    predicate AuthEnabled()
      ensures AuthEnabled() <==> |connectionName| > 0
    {
      connectionName != ""
    }

    constructor (connectionName: string)
      ensures this.connectionName == connectionName
      ensures authentication.Some? <==> connectionName != ""
      ensures authentication.Some? ==>
        authentication.value == OAuthSettings(connectionName, "Sign In to Microsoft Graph",
                                              "Please sign in to access Microsoft Graph services.", true, true)
      ensures routes == [ResetRoute, SignOutRoute, MessageRoute]
      ensures signInHandlers <==> connectionName != ""
      ensures replies == [] && calls == []
    {
      this.connectionName := connectionName;
      authentication :=
        if connectionName != "" then
          Some(OAuthSettings(connectionName, "Sign In to Microsoft Graph",
                             "Please sign in to access Microsoft Graph services.", true, true))
        else None;
      routes := [];
      signInHandlers := false;
      replies := [];
      calls := [];
      new;
      AddRoute(ResetRoute);
      AddRoute(SignOutRoute);
      AddRoute(MessageRoute);
      if connectionName != "" {
        signInHandlers := true;
      }
    }

    /** Registers a route after those already registered. */
    method AddRoute(route: Route)
      modifies this
      ensures routes == old(routes) + [route]
      ensures signInHandlers == old(signInHandlers) && replies == old(replies) && calls == old(calls)
    {
      routes := routes + [route];
    }

    /** The `/reset` handler: deletes the conversation state and confirms. */
    method OnReset(state: AppState)
      modifies this, state
      ensures old(state.conversation) != null ==>
        state.conversation != null && fresh(state.conversation) && state.conversation.entries == map[]
      ensures old(state.conversation) == null ==> state.conversation == null
      ensures replies == old(replies) + [ResetText] && calls == old(calls)
      ensures routes == old(routes) && signInHandlers == old(signInHandlers)
    {
      state.DeleteConversationState();
      replies := replies + [ResetText];
    }

    /** The `/signout` handler: with authentication configured, signs out (a failure of the
        sign-out escapes the handler) and confirms; otherwise only says so. */
    method OnSignOut(signOutFailure: Option<string>) returns (failure: Option<string>)
      modifies this
      ensures AuthEnabled() ==>
        && calls == old(calls) + [SignOutUser]
        && failure == signOutFailure
        && replies == old(replies) + (if signOutFailure.None? then [SignedOutText] else [])
      ensures !AuthEnabled() ==>
        calls == old(calls) && failure.None? && replies == old(replies) + [NotConfiguredText]
      ensures routes == old(routes) && signInHandlers == old(signInHandlers)
    {
      failure := None;
      if connectionName != "" {
        calls := calls + [SignOutUser];
        if signOutFailure.Some? {
          return signOutFailure;
        }
        replies := replies + [SignedOutText];
      } else {
        replies := replies + [NotConfiguredText];
      }
    }

    /** The catch-all message handler: increments the conversation's count before calling the
        recommender, then sends exactly one reply, prefixed with the new count. Reading the
        count from an unloaded scope fails before anything happens. */
    method OnMessage(state: AppState, text: Option<string>, post: PostOutcome)
      returns (failure: Option<string>)
      modifies this, state.conversation
      ensures state.conversation == old(state.conversation)
      ensures state.conversation == null ==>
        failure == Some(NotLoadedMessage) && replies == old(replies) && calls == old(calls)
      ensures state.conversation != null ==>
        var count := NextCount(old(state.conversation.MessageCount()), MessageRoute);
        && failure.None?
        && state.conversation.entries == old(state.conversation.entries)[MessageCountKey := count]
        && calls == old(calls) + [PostSuggestion(RecommenderUrl, Payload(text))]
        && replies == old(replies) + [CatchAllReply(count, post)]
      ensures routes == old(routes) && signInHandlers == old(signInHandlers)
    {
      var read := state.GetConversation();
      if read.Failure? {
        return Some(read.error);
      }
      var count := read.value.MessageCount();
      count := Increment(count);
      var write := state.GetConversation();
      write.value.SetMessageCount(count);
      calls := calls + [PostSuggestion(RecommenderUrl, Payload(text))];
      replies := replies + [CatchAllReply(count, post)];
      failure := None;
    }

    /** The sign-in success handler, present only with authentication configured. */
    method OnSignInSuccess(authTokens: map<string, string>, text: Option<string>)
      modifies this
      ensures signInHandlers ==> replies == old(replies) + SignInSuccessReplies(authTokens, text)
      ensures !signInHandlers ==> replies == old(replies)
      ensures calls == old(calls) && routes == old(routes) && signInHandlers == old(signInHandlers)
    {
      if signInHandlers {
        replies := replies + [SignInSucceededText];
        if AuthenticationName in authTokens {
          replies := replies + ["Token received (length: " + IntToString(|authTokens[AuthenticationName]|) + ")"];
        }
        replies := replies + ["You can now use authenticated features. Original message: " + text.OrElse("")];
      }
    }

    /** The sign-in failure handler, present only with authentication configured. */
    method OnSignInFailure(message: string)
      modifies this
      ensures signInHandlers ==> replies == old(replies) + [SignInFailedText, "Error: " + message]
      ensures !signInHandlers ==> replies == old(replies)
      ensures calls == old(calls) && routes == old(routes) && signInHandlers == old(signInHandlers)
    {
      if signInHandlers {
        replies := replies + [SignInFailedText];
        replies := replies + ["Error: " + message];
      }
    }

    /** One routed turn: the first registered route that takes the activity handles it; an
        activity no route takes is left alone. */
    method OnTurn(state: AppState, activity: Activity, selects: string -> bool,
                  post: PostOutcome, signOutFailure: Option<string>)
      returns (taken: Option<Route>, failure: Option<string>)
      modifies this, state, state.conversation
      ensures routes == old(routes) && signInHandlers == old(signInHandlers)
      ensures var m := FirstMatch(old(routes), activity, selects);
        taken == (if m.Some? then Some(old(routes)[m.value]) else None)
      ensures taken.Some? ==> activity.MessageActivity?
      ensures taken.None? ==> replies == old(replies) && calls == old(calls) && failure.None?
      ensures taken.None? || taken == Some(SignOutRoute) ==>
        && state.conversation == old(state.conversation)
        && (old(state.conversation) != null ==> state.conversation.entries == old(state.conversation.entries))
      ensures taken == Some(MessageRoute) && old(state.conversation) == null ==> state.conversation == null
      ensures taken == Some(ResetRoute) ==>
        && replies == old(replies) + [ResetText] && calls == old(calls) && failure.None?
        && (old(state.conversation) != null ==>
              state.conversation != null && fresh(state.conversation) && state.conversation.entries == map[])
        && (old(state.conversation) == null ==> state.conversation == null)
      ensures taken == Some(SignOutRoute) && AuthEnabled() ==>
        && calls == old(calls) + [SignOutUser]
        && failure == signOutFailure
        && replies == old(replies) + (if signOutFailure.None? then [SignedOutText] else [])
      ensures taken == Some(SignOutRoute) && !AuthEnabled() ==>
        calls == old(calls) && failure.None? && replies == old(replies) + [NotConfiguredText]
      ensures taken == Some(MessageRoute) && old(state.conversation) == null ==>
        failure == Some(NotLoadedMessage) && replies == old(replies) && calls == old(calls)
      ensures taken == Some(MessageRoute) && old(state.conversation) != null ==>
        var count := NextCount(old(state.conversation.MessageCount()), MessageRoute);
        && state.conversation == old(state.conversation)
        && failure.None?
        && state.conversation.entries == old(state.conversation.entries)[MessageCountKey := count]
        && calls == old(calls) + [PostSuggestion(RecommenderUrl, Payload(activity.text))]
        && replies == old(replies) + [CatchAllReply(count, post)]
      ensures taken.Some? && old(state.conversation) != null && failure.None? ==>
        state.conversation != null
        && state.conversation.MessageCount() == NextCount(old(state.conversation.MessageCount()), taken.value)
    {
      var m := FirstMatch(routes, activity, selects);
      failure := None;
      if m.None? {
        return None, None;
      }
      taken := Some(routes[m.value]);
      match routes[m.value] {
        case ResetRoute =>
          OnReset(state);
        case SignOutRoute =>
          failure := OnSignOut(signOutFailure);
        case MessageRoute =>
          failure := OnMessage(state, activity.text, post);
      }
    }
  }

  /** Every routed catch-all turn counts, whatever the recommender does: on a loaded scope the
      count goes up by one and the one reply starts with the new count. */
  method CatchAllTurnCounts(state: AppState, app: Application, text: Option<string>, post: PostOutcome)
    requires state.conversation != null && state.conversation.MessageCount() as int < MaxValue
    modifies app, state.conversation
    ensures state.conversation.MessageCount() as int == old(state.conversation.MessageCount()) as int + 1
    ensures |app.replies| == |old(app.replies)| + 1
    ensures CountPrefix(state.conversation.MessageCount()) <= app.replies[|app.replies| - 1]
  {
    var failure := app.OnMessage(state, text, post);
  }
}
