/** What both echo bots share: the kinds of incoming activity, the outcome of a send, and the
    members-added welcome loop (one welcome per added member who is not the bot itself, in
    order; a failed send is not caught, so it ends the loop and the turn). */
module Activities {
  import opened Wrappers

  /** The event name of a token-response event activity. */
  const TokenResponseEventName: string := "tokens/response"

  /** An incoming activity, as the base activity handler tells kinds apart. Member and
      recipient accounts are given by their ids. */
  datatype Activity =
    | MessageActivity(text: Option<string>)
    | ConversationUpdate(membersAdded: seq<string>, recipient: string)
    | EventActivity(name: string)
    | OtherKnownActivity    // typing, invoke, reactions, ...: a kind the handler knows
    | UnrecognizedActivity  // a kind the handler does not know

  /** What one attempt to send a message does. */
  datatype SendResult = Delivered | SendFailed(message: string)

  /** The added members to be welcomed: those whose id differs from the recipient's (the bot). */
  function Newcomers(members: seq<string>, self: string): (r: seq<string>)
    ensures |r| <= |members|
    ensures forall m :: m in r <==> m in members && m != self
  {
    if members == [] then []
    else
      var last := members[|members| - 1];
      Newcomers(members[..|members| - 1], self) + (if last != self then [last] else [])
  }

  /** The number of leading attempts among the first `n` that are delivered. */
  function DeliveredRun(n: nat, send: nat -> SendResult): (k: nat)
    ensures k <= n
    ensures forall j :: 0 <= j < k ==> send(j).Delivered?
    ensures k < n ==> send(k).SendFailed?
  {
    if n == 0 then 0
    else if DeliveredRun(n - 1, send) < n - 1 then DeliveredRun(n - 1, send)
    else if send(n - 1).Delivered? then n
    else n - 1
  }

  /** `n` copies of `text`. */
  function Repeat(text: string, n: nat): (r: seq<string>)
    ensures |r| == n
    ensures forall j :: 0 <= j < n ==> r[j] == text
  {
    if n == 0 then [] else Repeat(text, n - 1) + [text]
  }

  /** The `foreach` over the added members. `send(j)` is the outcome of the j-th send; the
      replies delivered and, when a send failed, that failure's message are returned. */
  method SendWelcomes(members: seq<string>, self: string, text: string, send: nat -> SendResult)
    returns (sent: seq<string>, failure: Option<string>)
    ensures var n := |Newcomers(members, self)|;
      sent == Repeat(text, DeliveredRun(n, send))
      && (failure.None? <==> DeliveredRun(n, send) == n)
    ensures failure.Some? ==> send(|sent|) == SendFailed(failure.value)
  {
    sent, failure := [], None;
    var i := 0;
    while i < |members|
      invariant 0 <= i <= |members|
      invariant failure.None? ==> |sent| == |Newcomers(members[..i], self)|
      invariant forall j :: 0 <= j < |sent| ==> send(j).Delivered?
      invariant sent == Repeat(text, |sent|)
      invariant failure.Some? ==> send(|sent|) == SendFailed(failure.value)
                                  && |sent| < |Newcomers(members, self)|
      decreases |members| - i
    {
      NewcomersStep(members, self, i);
      if members[i] != self {
        var outcome := send(|sent|);
        if outcome.SendFailed? {
          failure := Some(outcome.message);
          NewcomersPrefix(members, self, i + 1);
          return;
        }
        sent := sent + [text];
      }
      i := i + 1;
    }
    assert members[..i] == members;
    DeliveredRunAll(|sent|, send);
  }

  /** Extending a prefix by one member adds that member to the newcomers unless it is the bot. */
  lemma NewcomersStep(members: seq<string>, self: string, i: nat)
    requires i < |members|
    ensures |Newcomers(members[..i + 1], self)| == |Newcomers(members[..i], self)| + (if members[i] != self then 1 else 0)
  {
    assert members[..i + 1][..i] == members[..i];
  }

  /** The newcomers of a prefix are no more than those of the whole list. */
  lemma {:induction false} NewcomersPrefix(members: seq<string>, self: string, i: nat)
    requires i <= |members|
    ensures |Newcomers(members[..i], self)| <= |Newcomers(members, self)|
  {
    if i < |members| {
      assert members[..|members| - 1][..i] == members[..i];
      NewcomersPrefix(members[..|members| - 1], self, i);
    } else {
      assert members[..i] == members;
    }
  }

  /** When the first `n` attempts are all delivered, the run is the full `n`. */
  lemma {:induction false} DeliveredRunAll(n: nat, send: nat -> SendResult)
    requires forall j :: 0 <= j < n ==> send(j).Delivered?
    ensures DeliveredRun(n, send) == n
  {
    if n > 0 { DeliveredRunAll(n - 1, send); }
  }

  /** Every added member other than the bot is a newcomer as many times as it was added, and
      the bot never is. */
  lemma {:induction false} NewcomersMultiset(members: seq<string>, self: string)
    ensures multiset(Newcomers(members, self)) == multiset(members)[self := 0]
    decreases |members|
  {
    if members != [] {
      var init, last := members[..|members| - 1], members[|members| - 1];
      assert members == init + [last];
      NewcomersMultiset(init, self);
    }
  }

  /** With every send delivered, the welcomes sent are exactly one per added member other
      than the bot. */
  lemma OneWelcomePerNewcomer(members: seq<string>, self: string, send: nat -> SendResult)
    requires forall j :: 0 <= j < |members| ==> send(j).Delivered?
    ensures DeliveredRun(|Newcomers(members, self)|, send) == |Newcomers(members, self)|
    ensures |Newcomers(members, self)| == |members| - multiset(members)[self]
  {
    DeliveredRunAll(|Newcomers(members, self)|, send);
    NewcomersMultiset(members, self);
    assert |multiset(Newcomers(members, self))| == |multiset(members)[self := 0]|;
  }
}
