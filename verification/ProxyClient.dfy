// ownserver/src/proxy_client.rs: the reconnect loop of the client, its backoff, and the hellos it sends.
module ProxyClient {
  import opened Wrappers
  import opened Sequences
  import opened Protocol
  import opened LocalModel
  import opened ControlServer

  const MAX_RECONNECT_BACKOFF_SECS: nat := 300

  function Pow2(n: nat): (r: nat)
    ensures r >= 1
  {
    if n == 0 then 1 else 2 * Pow2(n - 1)
  }

  function Min(a: nat, b: nat): nat {
    if a < b then a else b
  }

  function ReconnectBackoff(attempts: nat): nat {
    if attempts == 0 then 0
    else if attempts < 10 then Min(Pow2(attempts - 1), MAX_RECONNECT_BACKOFF_SECS)
    else MAX_RECONNECT_BACKOFF_SECS
  }

  datatype RequestType = NewClient(claims: seq<EndpointClaim>) | Reconnect

  // How one round of the loop goes: `received` is what the session's read loop processed before a task of it exited,
  // `Cancelled` a session that the user ended.
  datatype Outcome = ConnectFails | SendHelloFails | HelloRejected | Session(received: seq<Packet>) | Cancelled
  {
    predicate Failed() {
      ConnectFails? || SendHelloFails? || HelloRejected?
    }
  }

  // ---------- what the loop's variables hold after the rounds so far ----------

  function Streak(os: seq<Outcome>): nat {
    if os == [] || !Last(os).Failed() then 0 else Streak(Front(os)) + 1
  }

  predicate HadSession(os: seq<Outcome>) {
    exists j :: 0 <= j < |os| && os[j].Session?
  }

  // The latest token a Ping brought.
  function TokenIn(packets: seq<Packet>, known: Option<Token>): Option<Token> {
    if packets == [] then known
    else if Last(packets).Ping? && Last(packets).token.Some? then Last(packets).token
    else TokenIn(Front(packets), known)
  }

  function TokenAfter(os: seq<Outcome>, known: Option<Token>): Option<Token> {
    if os == [] then known
    else if Last(os).Session? then TokenIn(Last(os).received, TokenAfter(Front(os), known))
    else TokenAfter(Front(os), known)
  }

  // A round after which the loop breaks.
  predicate Breaks(os: seq<Outcome>, known: Option<Token>) {
    os != [] && (Last(os).Cancelled? || (Last(os).Session? && TokenAfter(os, known).None?))
  }

  function ClientHelloFor(token: Token, request: RequestType): ClientHello {
    match request
    case NewClient(claims) => ClientHello(CLIENT_HELLO_VERSION, token, claims, AuthClient)
    case Reconnect => ClientHello(CLIENT_HELLO_VERSION, token, [], ReconnectClient)
  }

  // The hello of the next round, had the rounds so far gone this way.
  function NextHello(os: seq<Outcome>, authToken: Token, request: RequestType, known: Option<Token>): ClientHello {
    if HadSession(os) && TokenAfter(os, known).Some? then ClientHelloFor(TokenAfter(os, known).value, Reconnect)
    else ClientHelloFor(authToken, request)
  }

  // Round k slept for the failures just before it and sent the hello that was due, unless there was no connection.
  ghost predicate RoundOk(sleep: nat, hello: Option<ClientHello>, script: seq<Outcome>, k: nat, authToken: Token,
      initial: RequestType, known: Option<Token>)
    requires k < |script|
  {
    && sleep == ReconnectBackoff(Streak(script[..k])) && !Breaks(script[..k], known)
    && hello == if script[k].ConnectFails? then None else Some(NextHello(script[..k], authToken, initial, known))
  }

  ghost predicate IsRun(sleeps: seq<nat>, hellos: seq<Option<ClientHello>>, script: seq<Outcome>, authToken: Token,
      initial: RequestType, known: Option<Token>) {
    && |sleeps| == |hellos| <= |script|
    && forall k :: 0 <= k < |sleeps| ==> RoundOk(sleeps[k], hellos[k], script, k, authToken, initial, known)
  }

  // The loop of run_client over any number of rounds. `known` is the token the store holds at the start.
  method RunClient(authToken: Token, initial: RequestType, known: Option<Token>, script: seq<Outcome>)
    returns (sleeps: seq<nat>, hellos: seq<Option<ClientHello>>)
    ensures IsRun(sleeps, hellos, script, authToken, initial, known)
    ensures |sleeps| < |script| ==> Breaks(script[..|sleeps|], known)
  {
    var token, request, reconnectAttempts, stored := authToken, initial, 0, known;
    var i := 0;
    sleeps, hellos := [], [];
    assert IsRun(sleeps, hellos, script, authToken, initial, known);
    while i < |script|
      invariant 0 <= i <= |script| && |sleeps| == |hellos| == i
      invariant Here(token, request, reconnectAttempts, stored, script[..i], authToken, initial, known)
      invariant IsRun(sleeps, hellos, script, authToken, initial, known)
    {
      hide IsRun, Here, Breaks, ReconnectBackoff, TokenAfter;
      RoundBegins(sleeps, hellos, script, token, request, reconnectAttempts, stored, authToken, initial, known);
      sleeps := sleeps + [ReconnectBackoff(reconnectAttempts)];
      hellos := hellos + [if script[i].ConnectFails? then None else Some(ClientHelloFor(token, request))];
      TakeSnoc(script, i);
      RoundEnds(token, request, reconnectAttempts, stored, script[..i + 1], authToken, initial, known);
      if script[i].Failed() {
        reconnectAttempts := reconnectAttempts + 1;
      } else {
        reconnectAttempts := 0;
        if script[i].Cancelled? {
          return;
        }
        stored := ReceivedToken(script[i].received, stored);
        if stored.None? {
          return;
        }
        token, request := stored.value, Reconnect;
      }
      i := i + 1;
    }
  }

  // The loop's variables after the rounds `os`.
  ghost predicate Here(token: Token, request: RequestType, reconnectAttempts: nat, stored: Option<Token>,
      os: seq<Outcome>, authToken: Token, initial: RequestType, known: Option<Token>) {
    && !Breaks(os, known) && reconnectAttempts == Streak(os) && stored == TokenAfter(os, known)
    && request == (if HadSession(os) then Reconnect else initial)
    && if HadSession(os) then stored == Some(token) else token == authToken
  }

  // What a round sleeps and sends.
  lemma {:induction false} RoundBegins(sleeps: seq<nat>, hellos: seq<Option<ClientHello>>, script: seq<Outcome>,
      token: Token, request: RequestType, reconnectAttempts: nat, stored: Option<Token>, authToken: Token,
      initial: RequestType, known: Option<Token>)
    requires IsRun(sleeps, hellos, script, authToken, initial, known) && |sleeps| < |script|
    requires Here(token, request, reconnectAttempts, stored, script[..|sleeps|], authToken, initial, known)
    ensures var hello := if script[|sleeps|].ConnectFails? then None else Some(ClientHelloFor(token, request));
            IsRun(sleeps + [ReconnectBackoff(reconnectAttempts)], hellos + [hello], script, authToken, initial, known)
  {
    var hello := if script[|sleeps|].ConnectFails? then None else Some(ClientHelloFor(token, request));
    assert RoundOk(ReconnectBackoff(reconnectAttempts), hello, script, |sleeps|, authToken, initial, known);
    hide RoundOk, Here, ReconnectBackoff;
  }

  // What a round does to them.
  lemma {:induction false} RoundEnds(token: Token, request: RequestType, reconnectAttempts: nat, stored: Option<Token>,
      os: seq<Outcome>, authToken: Token, initial: RequestType, known: Option<Token>)
    requires os != [] && Here(token, request, reconnectAttempts, stored, Front(os), authToken, initial, known)
    ensures Last(os).Failed() ==> Here(token, request, reconnectAttempts + 1, stored, os, authToken, initial, known)
    ensures Last(os).Cancelled? ==> Breaks(os, known)
    ensures Last(os).Session? ==>
              var t := TokenIn(Last(os).received, stored);
              if t.None? then Breaks(os, known) else Here(t.value, Reconnect, 0, t, os, authToken, initial, known)
  {
    HadSessionSnoc(os);
  }

  lemma {:induction false} HadSessionSnoc(os: seq<Outcome>)
    requires os != []
    ensures HadSession(os) <==> Last(os).Session? || HadSession(Front(os))
  {
    if HadSession(Front(os)) {
      var j :| 0 <= j < |os| - 1 && Front(os)[j].Session?;
      assert os[j].Session?;
    }
    if HadSession(os) && !Last(os).Session? {
      var j :| 0 <= j < |os| && os[j].Session?;
      assert Front(os)[j].Session?;
    }
  }

  // What the session's read loop leaves in the store's token.
  method ReceivedToken(received: seq<Packet>, known: Option<Token>) returns (stored: Option<Token>)
    ensures stored == TokenIn(received, known)
  {
    stored := known;
    for i := 0 to |received|
      invariant stored == TokenIn(received[..i], known)
    {
      TakeSnoc(received, i);
      if received[i].Ping? && received[i].token.Some? {
        stored := received[i].token;
      }
    }
    assert received[..|received|] == received;
  }

  // ---------- the backoff ----------

  lemma {:induction false} Pow2Grows(a: nat, b: nat)
    requires a <= b
    ensures 1 <= Pow2(a) <= Pow2(b)
  {
    if a < b {
      Pow2Grows(a, b - 1);
    } else if a > 0 {
      Pow2Grows(a - 1, a - 1);
    }
  }

  // The tabulated cases are one formula.
  lemma {:induction false} BackoffIsCappedDoubling(n: nat)
    ensures ReconnectBackoff(n) == if n == 0 then 0 else Min(Pow2(n - 1), 300)
  {
    if n >= 10 {
      Pow2Grows(9, n - 1);
      assert Pow2(5) == 32 && Pow2(9) == 512;
    }
  }

  lemma {:induction false} BackoffIsMonotone(a: nat, b: nat)
    requires a <= b
    ensures ReconnectBackoff(a) <= ReconnectBackoff(b) <= 300
  {
    if a >= 1 {
      BackoffIsCappedDoubling(a);
      BackoffIsCappedDoubling(b);
      Pow2Grows(a - 1, b - 1);
    }
  }

  // The m rounds before round k failed, and no more than these.
  predicate FailuresBefore(script: seq<Outcome>, k: nat, m: nat)
    requires k <= |script|
  {
    && m <= k && (forall j :: k - m <= j < k ==> script[j].Failed())
    && (m == k || !script[k - m - 1].Failed())
  }

  lemma {:induction false} StreakExactly(script: seq<Outcome>, k: nat, m: nat)
    requires k <= |script| && FailuresBefore(script, k, m)
    ensures Streak(script[..k]) == m
  {
    if k > 0 {
      TakeSnoc(script, k - 1);
      if m > 0 {
        StreakExactly(script, k - 1, m - 1);
      }
    }
  }

  // Each sleep is the doubling for exactly the failures since the last session, and none after a session.
  lemma {:induction false} SleepsExactly(sleeps: seq<nat>, hellos: seq<Option<ClientHello>>, script: seq<Outcome>,
      k: nat, m: nat, authToken: Token, initial: RequestType, known: Option<Token>)
    requires IsRun(sleeps, hellos, script, authToken, initial, known)
    requires k < |sleeps| && FailuresBefore(script, k, m)
    ensures sleeps[k] == if m == 0 then 0 else Min(Pow2(m - 1), 300)
  {
    assert RoundOk(sleeps[k], hellos[k], script, k, authToken, initial, known);
    StreakExactly(script, k, m);
    BackoffIsCappedDoubling(m);
  }

  function Total(sleeps: seq<nat>): nat {
    if sleeps == [] then 0 else Total(Front(sleeps)) + Last(sleeps)
  }

  function Cost(m: nat): nat {
    if m <= 9 then Pow2(m) - 1 else 511 + 300 * (m - 9)
  }

  // What m failures in a row cost: the sleeps after each of them.
  lemma {:induction false} ConsecutiveFailuresCost(sleeps: seq<nat>, hellos: seq<Option<ClientHello>>,
      script: seq<Outcome>, k: nat, m: nat, authToken: Token, initial: RequestType, known: Option<Token>)
    requires IsRun(sleeps, hellos, script, authToken, initial, known)
    requires k < |sleeps| && FailuresBefore(script, k, m)
    ensures Total(sleeps[k - m + 1..k + 1]) == Cost(m)
  {
    if m > 0 {
      SliceSnoc(sleeps, k - m + 1, k);
      ConsecutiveFailuresCost(sleeps, hellos, script, k - 1, m - 1, authToken, initial, known);
      SleepsExactly(sleeps, hellos, script, k, m, authToken, initial, known);
      hide IsRun, FailuresBefore;
      CostStep(m);
    }
  }

  lemma {:induction false} CostStep(m: nat)
    requires m > 0
    ensures Cost(m) == Cost(m - 1) + Min(Pow2(m - 1), 300)
  {
    assert Pow2(5) == 32 && Pow2(9) == 512;
    if m <= 9 {
      Pow2Grows(m - 1, 8);
    } else {
      Pow2Grows(9, m - 1);
    }
  }

  // ---------- the hellos ----------

  predicate CarriesToken(p: Packet) {
    p.Ping? && p.token.Some?
  }

  predicate NoToken(packets: seq<Packet>) {
    forall k :: 0 <= k < |packets| ==> !CarriesToken(packets[k])
  }

  predicate NoTokens(os: seq<Outcome>) {
    forall j :: 0 <= j < |os| && os[j].Session? ==> NoToken(os[j].received)
  }

  // Packet k is the last one that carries a token, and it carries this one.
  predicate LastTokenAt(packets: seq<Packet>, k: nat, token: Token)
    requires k < |packets|
  {
    && packets[k].Ping? && packets[k].token == Some(token)
    && forall i :: k < i < |packets| ==> !CarriesToken(packets[i])
  }

  predicate BroughtLast(packets: seq<Packet>, token: Token) {
    exists k :: 0 <= k < |packets| && LastTokenAt(packets, k, token)
  }

  // The sessions of `os` brought this token in the last Ping that carried one.
  predicate BroughtByPing(os: seq<Outcome>, token: Token) {
    exists j :: 0 <= j < |os| && os[j].Session? && BroughtLast(os[j].received, token) && NoTokens(os[j + 1..])
  }

  lemma {:induction false} TokenInExactly(packets: seq<Packet>, known: Option<Token>, token: Token)
    ensures TokenIn(packets, known) == Some(token) <==>
            BroughtLast(packets, token) || (NoToken(packets) && known == Some(token))
  {
    if packets != [] {
      var front := Front(packets);
      if CarriesToken(Last(packets)) {
        assert Last(packets) == packets[|packets| - 1];
        if BroughtLast(packets, token) {
          var k :| 0 <= k < |packets| && LastTokenAt(packets, k, token);
          assert k == |packets| - 1;
        }
        assert Last(packets).token == Some(token) ==> LastTokenAt(packets, |packets| - 1, token);
      } else {
        TokenInExactly(front, known, token);
        BroughtLastFront(packets, token);
        assert NoToken(packets) <==> NoToken(front) by {
          if NoToken(packets) {
            forall k | 0 <= k < |front| ensures !CarriesToken(front[k]) {
              assert front[k] == packets[k];
            }
          }
        }
      }
    }
  }

  lemma {:induction false} BroughtLastFront(packets: seq<Packet>, token: Token)
    requires packets != [] && !CarriesToken(Last(packets))
    ensures BroughtLast(packets, token) <==> BroughtLast(Front(packets), token)
  {
    var front := Front(packets);
    if BroughtLast(packets, token) {
      var k :| 0 <= k < |packets| && LastTokenAt(packets, k, token);
      assert LastTokenAt(front, k, token);
    }
    if BroughtLast(front, token) {
      var k :| 0 <= k < |front| && LastTokenAt(front, k, token);
      assert LastTokenAt(packets, k, token);
    }
  }

  // The token to reconnect with is the one the sessions brought last, or the one known before if they brought none.
  lemma {:induction false} TokenAfterExactly(os: seq<Outcome>, known: Option<Token>, token: Token)
    ensures TokenAfter(os, known) == Some(token) <==>
            BroughtByPing(os, token) || (NoTokens(os) && known == Some(token))
  {
    if os != [] {
      TokenAfterExactly(Front(os), known, token);
      BroughtSnoc(os, token);
      NoTokensSnoc(os);
      if Last(os).Session? {
        TokenInExactly(Last(os).received, TokenAfter(Front(os), known), token);
      }
    }
  }

  lemma {:induction false} NoTokensSnoc(os: seq<Outcome>)
    requires os != []
    ensures NoTokens(os) <==> NoTokens(Front(os)) && (Last(os).Session? ==> NoToken(Last(os).received))
  {
    if NoTokens(os) {
      forall j | 0 <= j < |os| - 1 && Front(os)[j].Session? ensures NoToken(Front(os)[j].received) {
        assert Front(os)[j] == os[j];
      }
    }
  }

  lemma {:induction false} BroughtSnoc(os: seq<Outcome>, token: Token)
    requires os != []
    ensures BroughtByPing(os, token) <==>
              || (Last(os).Session? && BroughtLast(Last(os).received, token))
              || (BroughtByPing(Front(os), token) && (Last(os).Session? ==> NoToken(Last(os).received)))
  {
    if Last(os).Session? && BroughtLast(Last(os).received, token) {
      assert os[|os| - 1].Session? && NoTokens(os[|os|..]);
    }
    if BroughtByPing(Front(os), token) && (Last(os).Session? ==> NoToken(Last(os).received)) {
      BroughtGoesOn(os, token);
    }
    if BroughtByPing(os, token) {
      BroughtBefore(os, token);
    }
  }

  lemma {:induction false} BroughtGoesOn(os: seq<Outcome>, token: Token)
    requires os != [] && BroughtByPing(Front(os), token) && (Last(os).Session? ==> NoToken(Last(os).received))
    ensures BroughtByPing(os, token)
  {
    var front := Front(os);
    var j :| 0 <= j < |front| && front[j].Session? && BroughtLast(front[j].received, token) && NoTokens(front[j + 1..]);
    assert Front(os[j + 1..]) == front[j + 1..];
    NoTokensSnoc(os[j + 1..]);
    hide NoToken, NoTokens, BroughtLast;
    assert os[j].Session? && BroughtLast(os[j].received, token);
  }

  lemma {:induction false} BroughtBefore(os: seq<Outcome>, token: Token)
    requires os != [] && BroughtByPing(os, token)
    ensures (Last(os).Session? && BroughtLast(Last(os).received, token))
            || (BroughtByPing(Front(os), token) && (Last(os).Session? ==> NoToken(Last(os).received)))
  {
    var front := Front(os);
    var j :| 0 <= j < |os| && os[j].Session? && BroughtLast(os[j].received, token) && NoTokens(os[j + 1..]);
    if j < |front| {
      assert Front(os[j + 1..]) == front[j + 1..];
      NoTokensSnoc(os[j + 1..]);
      hide NoToken, NoTokens, BroughtLast;
      assert front[j].Session? && BroughtLast(front[j].received, token);
    }
  }

  // The loop breaks exactly when the user cancels, or a session ends and no Ping of any session brought a token.
  lemma {:induction false} BreaksExactly(os: seq<Outcome>, known: Option<Token>)
    ensures Breaks(os, known) <==>
              && os != []
              && (Last(os).Cancelled? || (Last(os).Session? && known.None? && NoTokens(os)))
  {
    var t := TokenAfter(os, known);
    if !NoTokens(os) {
      SomeTokenIsLast(os);
      var token :| BroughtByPing(os, token);
      TokenAfterExactly(os, known, token);
    } else if known.Some? {
      TokenAfterExactly(os, known, known.value);
    } else if t.Some? {
      TokenAfterExactly(os, known, t.value);
      NotBoth(os, t.value);
    }
  }

  lemma {:induction false} NotBoth(os: seq<Outcome>, token: Token)
    requires BroughtByPing(os, token)
    ensures !NoTokens(os)
  {
    var j :| 0 <= j < |os| && os[j].Session? && BroughtLast(os[j].received, token) && NoTokens(os[j + 1..]);
    var k :| 0 <= k < |os[j].received| && LastTokenAt(os[j].received, k, token);
    assert CarriesToken(os[j].received[k]);
  }

  lemma {:induction false} SomeTokenIsLast(os: seq<Outcome>)
    requires !NoTokens(os)
    ensures exists token :: BroughtByPing(os, token)
  {
    NoTokensSnoc(os);
    if Last(os).Session? && !NoToken(Last(os).received) {
      var token := LastOf(Last(os).received);
      BroughtSnoc(os, token);
    } else {
      SomeTokenIsLast(Front(os));
      var token :| BroughtByPing(Front(os), token);
      BroughtSnoc(os, token);
    }
  }

  lemma {:induction false} LastOf(packets: seq<Packet>) returns (token: Token)
    requires !NoToken(packets)
    ensures BroughtLast(packets, token)
  {
    if CarriesToken(Last(packets)) {
      token := Last(packets).token.value;
      assert LastTokenAt(packets, |packets| - 1, token);
    } else {
      token := LastOf(Front(packets));
      BroughtLastFront(packets, token);
    }
  }

  // A loop that goes on after its first session has a token.
  lemma {:induction false} SessionLeavesToken(script: seq<Outcome>, known: Option<Token>, k: nat)
    requires k <= |script| && HadSession(script[..k]) && forall j :: 0 <= j <= k ==> !Breaks(script[..j], known)
    ensures TokenAfter(script[..k], known).Some?
  {
    assert !Breaks(script[..k], known);
    TakeSnoc(script, k - 1);
    HadSessionSnoc(script[..k]);
    if !Last(script[..k]).Session? {
      SessionLeavesToken(script, known, k - 1);
    }
  }

  // Every hello of a run: a request of the initial kind with the authentication token until the first session, then a
  // Reconnect with the token that the sessions so far brought last, or the one known at the start if they brought none.
  lemma {:induction false} HelloPairsRequestWithToken(sleeps: seq<nat>, hellos: seq<Option<ClientHello>>,
      script: seq<Outcome>, k: nat, authToken: Token, initial: RequestType, known: Option<Token>)
    requires IsRun(sleeps, hellos, script, authToken, initial, known) && k < |hellos|
    ensures hellos[k].None? <==> script[k].ConnectFails?
    ensures hellos[k].Some? && (forall j :: 0 <= j < k ==> !script[j].Session?) ==>
        hellos[k].value == match initial
                           case NewClient(claims) => ClientHello(CLIENT_HELLO_VERSION, authToken, claims, AuthClient)
                           case Reconnect => ClientHello(CLIENT_HELLO_VERSION, authToken, [], ReconnectClient)
    ensures hellos[k].Some? && (exists j :: 0 <= j < k && script[j].Session?) ==>
              && hellos[k].value == ClientHello(CLIENT_HELLO_VERSION, hellos[k].value.token, [], ReconnectClient)
              && (|| BroughtByPing(script[..k], hellos[k].value.token)
                  || (NoTokens(script[..k]) && known == Some(hellos[k].value.token)))
  {
    assert RoundOk(sleeps[k], hellos[k], script, k, authToken, initial, known);
    if exists j :: 0 <= j < k && script[j].Session? {
      var j :| 0 <= j < k && script[j].Session?;
      assert script[..k][j].Session?;
      forall i | 0 <= i <= k ensures !Breaks(script[..i], known) {
        assert RoundOk(sleeps[i], hellos[i], script, i, authToken, initial, known);
      }
      SessionLeavesToken(script, known, k);
      TokenAfterExactly(script[..k], known, TokenAfter(script[..k], known).value);
    }
  }

  lemma {:induction false} NeverBackToNewClient(sleeps: seq<nat>, hellos: seq<Option<ClientHello>>,
      script: seq<Outcome>, j: nat, k: nat, authToken: Token, initial: RequestType, known: Option<Token>)
    requires IsRun(sleeps, hellos, script, authToken, initial, known)
    requires j <= k < |hellos| && hellos[j].Some? && hellos[k].Some?
    requires hellos[j].value.clientType == ReconnectClient
    ensures hellos[k].value.clientType == ReconnectClient
  {
    HelloPairsRequestWithToken(sleeps, hellos, script, j, authToken, initial, known);
    HelloPairsRequestWithToken(sleeps, hellos, script, k, authToken, initial, known);
  }

  // Both ends together, from a store without a token: if the authentication token verifies for the server's host, and
  // every token a Ping brought verifies as a reconnect token for client cid, the server accepts each hello of the run,
  // those before the first session as requests for new ports, the others as reconnects of that client.
  lemma {:induction false} HellosAreAccepted(config: Config, cid: ClientId, sleeps: seq<nat>,
      hellos: seq<Option<ClientHello>>, script: seq<Outcome>, k: nat, authToken: Token, claims: seq<EndpointClaim>)
    requires IsRun(sleeps, hellos, script, authToken, NewClient(claims), None) && k < |hellos| && hellos[k].Some?
    requires authToken in config.authHost && config.authHost[authToken] == config.host
    requires forall t: Token ::
        BroughtByPing(script[..k], t) ==> t in config.reconnectClient && config.reconnectClient[t] == cid
    ensures var hadSession := exists j :: 0 <= j < k && script[j].Session?;
            ValidateClientHello(config, hellos[k]) ==
            Success(if hadSession then ProvisionReconnect(cid) else ProvisionNew(claims))
  {
    HelloPairsRequestWithToken(sleeps, hellos, script, k, authToken, NewClient(claims), None);
  }

  // ---------- the store's token ----------

  function Processed(s: LocalState, packets: seq<Packet>, envs: seq<Surroundings>): LocalState
    requires |packets| == |envs|
  {
    if packets == [] then s else Processed(s, Front(packets), Front(envs)).Process(Last(packets), Last(envs)).0
  }

  // Nothing but a Ping with a token changes what the store will reconnect with.
  lemma {:induction false} OnlyPingsSetTheToken(s: LocalState, packets: seq<Packet>, envs: seq<Surroundings>)
    requires |packets| == |envs|
    ensures Processed(s, packets, envs).reconnectToken == TokenIn(packets, s.reconnectToken)
  {
    if packets != [] {
      OnlyPingsSetTheToken(s, Front(packets), Front(envs));
    }
  }
}
