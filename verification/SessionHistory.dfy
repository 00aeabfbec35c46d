/** Who is logged in after a history of requests, without the table; that the table holds exactly
    these sessions; and what that means in true time. */
module SessionHistory {
  import opened SessionModel

  // ---------------------------------------------------------------- the sessions a history leaves

  /** Two ways to judge a gap: as the 32-bit stamps measure it, and as it is. */
  datatype Clock = Measured | Exact

  predicate InTime(clock: Clock, ticks: nat, last: nat, period: nat) {
    match clock
    case Measured => Gap(Stamp(ticks, period), Stamp(last, period)) <= LIMIT
    case Exact => (ticks - last) * period <= LIMIT
  }

  /** Tokens of those logged in, each with the time of its last use. */
  type Sessions = map<string, nat>

  predicate Timely(clock: Clock, m: Sessions, token: string, ticks: nat, period: nat) {
    token in m && InTime(clock, ticks, m[token], period)
  }

  /** A session that is used in time goes on; one that is used too late is over. One that is not used
      stays, however old it gets. */
  function Used(clock: Clock, m: Sessions, token: string, ticks: nat, period: nat): Sessions {
    if Timely(clock, m, token, ticks, period) then m[token := ticks] else m - {token}
  }

  /** A login needs room among the n sessions; a logout in time ends all of them. */
  function Held(clock: Clock, n: nat, m: Sessions, r: Request, period: nat): Sessions {
    match r
    case Login(token, ticks) => if |m| < n then m[token := ticks] else m
    case Check(token, ticks) => Used(clock, m, token, ticks, period)
    case Logout(token, ticks) =>
      if Timely(clock, m, token, ticks, period) then map[] else Used(clock, m, token, ticks, period)
  }

  function Holders(clock: Clock, n: nat, h: seq<Request>, period: nat): Sessions {
    if h == [] then map[] else Held(clock, n, Holders(clock, n, h[..|h| - 1], period), h[|h| - 1], period)
  }

  /** Only tokens that logged in are held. */
  lemma {:induction false} HoldersLoggedIn(clock: Clock, n: nat, h: seq<Request>, token: string, period: nat)
      returns (i: nat)
    requires token in Holders(clock, n, h, period)
    ensures i < |h| && h[i].Login? && h[i].token == token
    decreases |h|
  {
    var last := |h| - 1;
    if h[last].Login? && h[last].token == token {
      i := last;
    } else {
      i := HoldersLoggedIn(clock, n, h[..last], token, period);
    }
  }

  lemma NewTokenIsNotHeld(clock: Clock, n: nat, h: seq<Request>, period: nat)
    requires h != [] && FreshTokens(h) && h[|h| - 1].Login?
    ensures h[|h| - 1].token !in Holders(clock, n, h[..|h| - 1], period) && h[|h| - 1].token != ""
    ensures FreshTokens(h[..|h| - 1])
  {
    var front, token := h[..|h| - 1], h[|h| - 1].token;
    forall i | 0 <= i < |front| && front[i].Login? ensures front[i].token != token {
      assert front[i] == h[i];
    }
    if token in Holders(clock, n, front, period) {
      var i := HoldersLoggedIn(clock, n, front, token, period);
    }
  }

  // ---------------------------------------------------------------- the table holds these sessions

  /** Active slots have different tokens. */
  predicate TokensDiffer(table: seq<Session>) {
    forall i, j :: 0 <= i < j < |table| && table[i].active && table[j].active ==> table[i].token != table[j].token
  }

  /** The active slots are exactly the sessions, each stamped with its last use. */
  ghost predicate Represents(table: seq<Session>, m: Sessions, period: nat) {
    && TokensDiffer(table) && "" !in m
    && (forall i :: 0 <= i < |table| && table[i].active ==>
          table[i].token in m && table[i].lastActivity == Stamp(m[table[i].token], period))
    && (forall token :: token in m ==> Find(table, token) < |table|)
  }

  function ActiveTokens(table: seq<Session>): set<string> {
    if table == [] then {}
    else (if table[0].active then {table[0].token} else {}) + ActiveTokens(table[1..])
  }

  function Actives(table: seq<Session>): (n: nat)
    ensures n <= |table|
  {
    if table == [] then 0 else (if table[0].active then 1 else 0) + Actives(table[1..])
  }

  lemma {:induction false} ActiveTokensAt(table: seq<Session>, token: string)
    ensures token in ActiveTokens(table) <==> Find(table, token) < |table|
  {
    if table == [] {
    } else {
      ActiveTokensAt(table[1..], token);
    }
  }

  lemma {:induction false} CountTokens(table: seq<Session>)
    requires TokensDiffer(table)
    ensures |ActiveTokens(table)| == Actives(table)
    ensures FreeSlot(table) < |table| <==> Actives(table) < |table|
  {
    if table == [] {
    } else {
      var token, rest := table[0].token, table[1..];
      assert forall j :: 0 <= j < |rest| ==> rest[j] == table[j + 1];
      CountTokens(rest);
      ActiveTokensAt(rest, token);
    }
  }

  /** So a slot is free exactly if there are fewer sessions than slots. */
  lemma RoomIsFreeSlot(table: seq<Session>, m: Sessions, period: nat)
    requires Represents(table, m, period)
    ensures FreeSlot(table) < |table| <==> |m| < |table|
  {
    CountTokens(table);
    forall token ensures token in ActiveTokens(table) <==> token in m {
      ActiveTokensAt(table, token);
    }
    assert ActiveTokens(table) == m.Keys;
  }

  lemma Found(table: seq<Session>, token: string, i: nat)
    requires i < |table| && table[i].active && table[i].token == token
    ensures Find(table, token) <= i
  {
  }

  lemma LoginRepresents(table: seq<Session>, m: Sessions, token: string, ticks: nat, period: nat)
    requires Represents(table, m, period) && token !in m && token != ""
    ensures Represents(Saved(table, token, Stamp(ticks, period)),
                       if |m| < |table| then m[token := ticks] else m, period)
  {
    hide Stamp, Find;
    RoomIsFreeSlot(table, m, period);
    var s := FreeSlot(table);
    if s < |table| {
      var after := Saved(table, token, Stamp(ticks, period));
      assert after == table[s := Session(true, token, Stamp(ticks, period))];
      SlotReplaced(table, m, s, token, ticks, period);
    }
  }

  /** A slot that is free, or held by the token itself, is given to it. */
  lemma SlotReplaced(table: seq<Session>, m: Sessions, s: nat, token: string, ticks: nat, period: nat)
    requires Represents(table, m, period) && token != "" && s < |table|
    requires if token in m then Find(table, token) == s else !table[s].active
    ensures Represents(table[s := Session(true, token, Stamp(ticks, period))], m[token := ticks], period)
  {
    hide Stamp, Find;
    var after, sessions := table[s := Session(true, token, Stamp(ticks, period))], m[token := ticks];
    OthersHoldOtherTokens(table, m, s, token, period);
    Found(after, token, s);
    forall other | other in sessions && other != token ensures Find(after, other) < |table| {
      Found(after, other, Find(table, other));
    }
  }

  lemma OthersHoldOtherTokens(table: seq<Session>, m: Sessions, s: nat, token: string, period: nat)
    requires Represents(table, m, period) && s < |table|
    requires if token in m then Find(table, token) == s else !table[s].active
    ensures forall i :: 0 <= i < |table| && i != s && table[i].active ==> table[i].token != token
  {
  }

  lemma AcceptsIfTimely(table: seq<Session>, m: Sessions, token: string, ticks: nat, period: nat)
    requires Represents(table, m, period)
    ensures Accepts(table, token, Stamp(ticks, period)) <==> Timely(Measured, m, token, ticks, period)
    ensures token in m <==> token != "" && Find(table, token) < |table|
  {
    hide Stamp, Gap;
  }

  lemma UseRepresents(table: seq<Session>, m: Sessions, token: string, ticks: nat, period: nat)
    requires Represents(table, m, period)
    ensures Represents(Validated(table, token, Stamp(ticks, period)), Used(Measured, m, token, ticks, period), period)
  {
    hide Stamp, Gap, Accepts, InTime, Find;
    AcceptsIfTimely(table, m, token, ticks, period);
    var f := Find(table, token);
    if token !in m {
      assert m - {token} == m;
    } else if Timely(Measured, m, token, ticks, period) {
      SlotReplaced(table, m, f, token, ticks, period);
      assert table[f].(lastActivity := Stamp(ticks, period)) == Session(true, token, Stamp(ticks, period));
    } else {
      SlotEnded(table, m, token, period);
    }
  }

  lemma SlotEnded(table: seq<Session>, m: Sessions, token: string, period: nat)
    requires Represents(table, m, period) && token in m
    ensures var f := Find(table, token);
      Represents(table[f := table[f].(active := false)], m - {token}, period)
  {
    hide Stamp, Find;
    var f := Find(table, token);
    var after := table[f := table[f].(active := false)];
    OthersHoldOtherTokens(table, m, f, token, period);
    forall other | other in m - {token} ensures Find(after, other) < |table| {
      Found(after, other, Find(table, other));
    }
  }

  lemma RequestRepresents(table: seq<Session>, m: Sessions, r: Request, period: nat)
    requires Represents(table, m, period)
    requires r.Login? ==> r.token !in m && r.token != ""
    ensures Represents(Served(table, r, period), Held(Measured, |table|, m, r, period), period)
  {
    hide Stamp, Gap, Accepts, Timely, Used, Validated, Saved;
    match r {
      case Login(token, ticks) => LoginRepresents(table, m, token, ticks, period);
      case Check(token, ticks) => UseRepresents(table, m, token, ticks, period);
      case Logout(token, ticks) =>
        AcceptsIfTimely(table, m, token, ticks, period);
        UseRepresents(table, m, token, ticks, period);
    }
  }

  /** After any history the active slots of the table are exactly the sessions that the history leaves. */
  lemma {:induction false} TableFollowsHistory(n: nat, h: seq<Request>, period: nat)
    requires FreshTokens(h)
    ensures Represents(After(n, h, period), Holders(Measured, n, h, period), period)
    decreases |h|
  {
    hide Represents, Served, Held;
    if h == [] {
      NobodyAtFirst(n, period);
    } else {
      var front, r := h[..|h| - 1], h[|h| - 1];
      assert FreshTokens(front);
      TableFollowsHistory(n, front, period);
      if r.Login? {
        NewTokenIsNotHeld(Measured, n, h, period);
      }
      RequestRepresents(After(n, front, period), Holders(Measured, n, front, period), r, period);
    }
  }

  lemma NobodyAtFirst(n: nat, period: nat)
    ensures Represents(AllCleared(n), map[], period)
  {
  }

  // ---------------------------------------------------------------- one token's life

  /** When the token was last named, in ticks. */
  function LastUse(h: seq<Request>, token: string): nat {
    if h == [] then 0
    else if h[|h| - 1].token == token then h[|h| - 1].ticks
    else LastUse(h[..|h| - 1], token)
  }

  /** Request j is a logout in time. */
  predicate LogsOut(clock: Clock, n: nat, h: seq<Request>, j: nat, period: nat)
    requires j < |h|
  {
    h[j].Logout? && Timely(clock, Holders(clock, n, h[..j], period), h[j].token, h[j].ticks, period)
  }

  /** Request j does not end the session of the token: it is no logout in time, and if it uses the
      token, it does so in time. */
  predicate Spares(clock: Clock, n: nat, h: seq<Request>, token: string, j: nat, period: nat)
    requires j < |h|
  {
    && !LogsOut(clock, n, h, j, period)
    && (h[j].token == token ==> InTime(clock, h[j].ticks, LastUse(h[..j], token), period))
  }

  /** Request i logged the token in while there was room, and nothing has ended its session since. */
  predicate Alive(clock: Clock, n: nat, h: seq<Request>, token: string, i: nat, period: nat) {
    && i < |h| && h[i].Login? && h[i].token == token
    && |Holders(clock, n, h[..i], period)| < n
    && forall j :: i < j < |h| ==> Spares(clock, n, h, token, j, period)
  }

  ghost predicate Lives(clock: Clock, n: nat, h: seq<Request>, token: string, period: nat) {
    exists i: nat :: Alive(clock, n, h, token, i, period)
  }

  /** A life goes on with the last request exactly if that spares it. */
  lemma AliveGoesOn(clock: Clock, n: nat, h: seq<Request>, token: string, i: nat, period: nat)
    requires h != [] && i < |h| - 1
    ensures Alive(clock, n, h, token, i, period) <==>
            Alive(clock, n, h[..|h| - 1], token, i, period) && Spares(clock, n, h, token, |h| - 1, period)
  {
    hide InTime, Timely, Holders;
    var front := h[..|h| - 1];
    assert front[..i] == h[..i];
    forall j | 0 <= j < |front|
      ensures Spares(clock, n, front, token, j, period) <==> Spares(clock, n, h, token, j, period)
    {
      assert front[..j] == h[..j] && front[j] == h[j];
    }
  }

  lemma LivesGoesOn(clock: Clock, n: nat, h: seq<Request>, token: string, period: nat)
    requires h != []
    ensures Lives(clock, n, h, token, period) <==>
            || (Lives(clock, n, h[..|h| - 1], token, period) && Spares(clock, n, h, token, |h| - 1, period))
            || Alive(clock, n, h, token, |h| - 1, period)
  {
    hide Alive, Spares;
    var last := |h| - 1;
    var front := h[..last];
    forall i: nat ensures Alive(clock, n, front, token, i, period) ==> i < last {
      AliveIsInside(clock, n, front, token, i, period);
    }
    forall i: nat ensures Alive(clock, n, h, token, i, period) ==> i <= last {
      AliveIsInside(clock, n, h, token, i, period);
    }
    forall i: nat | i < last
      ensures Alive(clock, n, h, token, i, period) <==>
              Alive(clock, n, front, token, i, period) && Spares(clock, n, h, token, last, period)
    {
      AliveGoesOn(clock, n, h, token, i, period);
    }
  }

  lemma AliveIsInside(clock: Clock, n: nat, h: seq<Request>, token: string, i: nat, period: nat)
    ensures Alive(clock, n, h, token, i, period) ==> i < |h|
  {
  }

  lemma {:induction false} HeldIffLives(clock: Clock, n: nat, h: seq<Request>, token: string, period: nat)
    requires FreshTokens(h)
    ensures var m := Holders(clock, n, h, period);
      (token in m <==> Lives(clock, n, h, token, period)) && (token in m ==> m[token] == LastUse(h, token))
    decreases |h|
  {
    hide Lives, InTime;
    if h == [] {
      NobodyLives(clock, n, token, period);
    } else {
      var front, r := h[..|h| - 1], h[|h| - 1];
      assert FreshTokens(front);
      HeldIffLives(clock, n, front, token, period);
      LivesGoesOn(clock, n, h, token, period);
      if r.Login? {
        NewTokenIsNotHeld(clock, n, h, period);
      }
    }
  }

  lemma NobodyLives(clock: Clock, n: nat, token: string, period: nat)
    ensures !Lives(clock, n, [], token, period)
  {
  }

  /** For any number of slots and any history: a token is accepted exactly if some login found room
      for it, nobody has logged out since, and every gap between its consecutive uses, up to now, is
      measured to be within the limit. */
  lemma AcceptedIffAlive(n: nat, h: seq<Request>, token: string, ticks: nat, period: nat)
    requires FreshTokens(h)
    ensures Accepts(After(n, h, period), token, Stamp(ticks, period)) <==>
            Lives(Measured, n, h, token, period) && InTime(Measured, ticks, LastUse(h, token), period)
  {
    hide Lives, InTime, Represents, Accepts;
    TableFollowsHistory(n, h, period);
    AcceptsIfTimely(After(n, h, period), Holders(Measured, n, h, period), token, ticks, period);
    HeldIffLives(Measured, n, h, token, period);
  }

  // ---------------------------------------------------------------- true time

  /** A gap that is too long but wraps to within the limit. */
  predicate Misjudged(ticks: nat, last: nat, period: nat) {
    var elapsed := (ticks - last) * period;
    elapsed >= WRAP && elapsed % WRAP <= LIMIT
  }

  lemma ClocksDiffer(ticks: nat, last: nat, period: nat)
    requires last <= ticks
    ensures (InTime(Measured, ticks, last, period) <==> InTime(Exact, ticks, last, period))
            <==> !Misjudged(ticks, last, period)
    ensures Misjudged(ticks, last, period) ==> !InTime(Exact, ticks, last, period)
    ensures (ticks - last) * period < WRAP ==> !Misjudged(ticks, last, period)
  {
    hide Gap, Stamp;
    GapIsTrueModuloWrap(last, ticks, period);
  }

  predicate Ordered(h: seq<Request>) {
    forall i, j :: 0 <= i < j < |h| ==> h[i].ticks <= h[j].ticks
  }

  /** No gap between two uses of a session is misjudged. */
  predicate RightlyJudged(n: nat, h: seq<Request>, period: nat) {
    h == [] ||
    (var front, r := h[..|h| - 1], h[|h| - 1];
     var m := Holders(Exact, n, front, period);
     RightlyJudged(n, front, period) &&
     (!r.Login? && r.token in m ==> !Misjudged(r.ticks, m[r.token], period)))
  }

  /** A held token was last used by some request. */
  lemma {:induction false} LastUseOf(h: seq<Request>, token: string, i: nat) returns (k: nat)
    requires i < |h| && h[i].token == token
    ensures i <= k < |h| && h[k].token == token && LastUse(h, token) == h[k].ticks
    ensures forall j :: k < j < |h| ==> h[j].token != token
    decreases |h|
  {
    var last := |h| - 1;
    if h[last].token == token {
      k := last;
    } else {
      k := LastUseOf(h[..last], token, i);
    }
  }

  lemma HeldSince(n: nat, h: seq<Request>, token: string, period: nat) returns (k: nat)
    requires FreshTokens(h) && token in Holders(Exact, n, h, period)
    ensures k < |h| && h[k].token == token && Holders(Exact, n, h, period)[token] == h[k].ticks
    ensures forall j :: k < j < |h| ==> h[j].token != token
  {
    hide Lives;
    var i := HoldersLoggedIn(Exact, n, h, token, period);
    HeldIffLives(Exact, n, h, token, period);
    k := LastUseOf(h, token, i);
  }

  lemma {:induction false} ClocksAgree(n: nat, h: seq<Request>, period: nat)
    requires FreshTokens(h) && Ordered(h) && RightlyJudged(n, h, period)
    ensures Holders(Measured, n, h, period) == Holders(Exact, n, h, period)
    decreases |h|
  {
    hide InTime, Misjudged;
    if h == [] {
    } else {
      var front, r := h[..|h| - 1], h[|h| - 1];
      var m := Holders(Exact, n, front, period);
      assert FreshTokens(front) && Ordered(front);
      ClocksAgree(n, front, period);
      if r.token in m {
        var k := HeldSince(n, front, r.token, period);
        assert front[k] == h[k];
        ClocksDiffer(r.ticks, m[r.token], period);
      }
    }
  }

  /** The table answers request j, if it uses a token, as true time demands. */
  predicate AnswersTruly(n: nat, h: seq<Request>, j: nat, period: nat)
    requires j < |h|
  {
    !h[j].Login? ==>
      (Accepts(After(n, h[..j], period), h[j].token, Stamp(h[j].ticks, period)) <==>
       Timely(Exact, Holders(Exact, n, h[..j], period), h[j].token, h[j].ticks, period))
  }

  /** Up to the first misjudged gap the table answers truly, and there it does not. */
  lemma LastAnswer(n: nat, h: seq<Request>, period: nat)
    requires h != [] && FreshTokens(h) && Ordered(h) && RightlyJudged(n, h[..|h| - 1], period)
    ensures AnswersTruly(n, h, |h| - 1, period) <==> RightlyJudged(n, h, period)
  {
    hide InTime, Misjudged, Accepts, Represents, After, Stamp, Holders;
    var front, r := h[..|h| - 1], h[|h| - 1];
    var m := Holders(Exact, n, front, period);
    assert FreshTokens(front) && Ordered(front);
    TableFollowsHistory(n, front, period);
    ClocksAgree(n, front, period);
    AcceptsIfTimely(After(n, front, period), m, r.token, r.ticks, period);
    if r.token in m {
      var k := HeldSince(n, front, r.token, period);
      assert front[k] == h[k];
      ClocksDiffer(r.ticks, m[r.token], period);
    }
  }

  /** Over any history in order, the table answers every use of a token as true time demands exactly
      if no gap between two uses of a session is misjudged. */
  lemma {:induction false} TrueAnswersIffRightlyJudged(n: nat, h: seq<Request>, period: nat)
    requires FreshTokens(h) && Ordered(h)
    ensures (forall j :: 0 <= j < |h| ==> AnswersTruly(n, h, j, period)) <==> RightlyJudged(n, h, period)
    decreases |h|
  {
    hide AnswersTruly, Misjudged, Holders;
    if h == [] {
    } else {
      var last := |h| - 1;
      var front := h[..last];
      assert FreshTokens(front) && Ordered(front);
      TrueAnswersIffRightlyJudged(n, front, period);
      forall j | 0 <= j < last ensures AnswersTruly(n, front, j, period) <==> AnswersTruly(n, h, j, period) {
        SameAnswer(n, h, j, period);
      }
      if RightlyJudged(n, front, period) {
        LastAnswer(n, h, period);
      }
    }
  }

  lemma SameAnswer(n: nat, h: seq<Request>, j: nat, period: nat)
    requires j < |h| - 1
    ensures AnswersTruly(n, h[..|h| - 1], j, period) <==> AnswersTruly(n, h, j, period)
  {
    hide Accepts, Timely, After, Stamp, Holders;
    assert h[..|h| - 1][..j] == h[..j];
  }

  /** In true time: if no earlier gap was misjudged, a token is accepted exactly if its login found
      room, nobody has logged out since and every gap, up to now, is at most the limit; except that a
      session idle for at least 2^32 ms is accepted again exactly if its last gap wraps to within the
      limit. */
  lemma AcceptedInTrueTime(n: nat, h: seq<Request>, token: string, ticks: nat, period: nat)
    requires FreshTokens(h) && Ordered(h + [Check(token, ticks)]) && RightlyJudged(n, h, period)
    ensures var last := LastUse(h, token);
      (Accepts(After(n, h, period), token, Stamp(ticks, period)) <==>
        Lives(Exact, n, h, token, period) && (InTime(Exact, ticks, last, period) || Misjudged(ticks, last, period)))
  {
    hide Lives, InTime, Represents, Accepts, Misjudged;
    PrefixOrdered(h, Check(token, ticks));
    TableFollowsHistory(n, h, period);
    AcceptsIfTimely(After(n, h, period), Holders(Measured, n, h, period), token, ticks, period);
    ClocksAgree(n, h, period);
    HeldIffLives(Exact, n, h, token, period);
    if token in Holders(Exact, n, h, period) {
      var k := HeldSince(n, h, token, period);
      ClocksDiffer(ticks, LastUse(h, token), period);
    }
  }

  lemma PrefixOrdered(h: seq<Request>, r: Request)
    requires Ordered(h + [r])
    ensures Ordered(h) && forall i :: 0 <= i < |h| ==> h[i].ticks <= r.ticks
  {
    var all := h + [r];
    assert forall i :: 0 <= i < |h| ==> all[i] == h[i] && all[|h|] == r;
  }

  /** Consecutive uses of a token are less than 2^32 ms apart. */
  predicate ShortGaps(h: seq<Request>, period: nat) {
    forall i, j :: 0 <= i < j < |h| && h[i].token == h[j].token && UnusedBetween(h, i, j)
      ==> (h[j].ticks - h[i].ticks) * period < 0x1_0000_0000
  }

  predicate UnusedBetween(h: seq<Request>, i: nat, j: nat)
    requires i < j < |h|
  {
    forall k :: i < k < j ==> h[k].token != h[j].token
  }

  lemma ShortGapsOfPrefix(h: seq<Request>, period: nat)
    requires h != [] && ShortGaps(h, period)
    ensures ShortGaps(h[..|h| - 1], period)
  {
    var front := h[..|h| - 1];
    forall i: nat, j: nat | i < j < |front| && front[i].token == front[j].token && UnusedBetween(front, i, j)
      ensures (front[j].ticks - front[i].ticks) * period < WRAP
    {
      assert h[i] == front[i] && h[j] == front[j];
      assert forall k :: i < k < j ==> h[k] == front[k];
      assert UnusedBetween(h, i, j);
    }
  }

  lemma {:induction false} ShortGapsAreRightlyJudged(n: nat, h: seq<Request>, period: nat)
    requires FreshTokens(h) && Ordered(h) && ShortGaps(h, period)
    ensures RightlyJudged(n, h, period)
    decreases |h|
  {
    hide Misjudged, Holders;
    if h == [] {
    } else {
      var last := |h| - 1;
      var front, r := h[..last], h[last];
      assert FreshTokens(front) && Ordered(front);
      ShortGapsOfPrefix(h, period);
      ShortGapsAreRightlyJudged(n, front, period);
      if r.token in Holders(Exact, n, front, period) {
        var k := HeldSince(n, front, r.token, period);
        assert front[k] == h[k];
        assert forall j :: k < j < last ==> h[j] == front[j];
        assert UnusedBetween(h, k, last);
        ClocksDiffer(r.ticks, h[k].ticks, period);
      }
    }
  }

  /** So as long as no session is idle for 2^32 ms, a token is accepted exactly if its login found
      room, nobody has logged out since, and every gap between its uses, up to now, is at most
      180000 ms. */
  lemma AcceptedIffGapsWithinLimit(n: nat, h: seq<Request>, token: string, ticks: nat, period: nat)
    requires FreshTokens(h) && Ordered(h + [Check(token, ticks)]) && ShortGaps(h + [Check(token, ticks)], period)
    ensures Accepts(After(n, h, period), token, Stamp(ticks, period)) <==>
            Lives(Exact, n, h, token, period) && (ticks - LastUse(h, token)) * period <= 180000
  {
    hide Accepts, Misjudged, RightlyJudged, Lives, ShortGaps, InTime, After, Stamp, Holders;
    var all := h + [Check(token, ticks)];
    assert all[..|all| - 1] == h;
    PrefixOrdered(h, Check(token, ticks));
    ShortGapsOfPrefix(all, period);
    ShortGapsAreRightlyJudged(n, h, period);
    AcceptedInTrueTime(n, h, token, ticks, period);
    HeldIffLives(Exact, n, h, token, period);
    if token in Holders(Exact, n, h, period) {
      var k := HeldSince(n, h, token, period);
      LastGapIsShort(h, k, token, ticks, period);
      ClocksDiffer(ticks, h[k].ticks, period);
    }
    ExactIsLimit(ticks, LastUse(h, token), period);
  }

  lemma ExactIsLimit(ticks: nat, last: nat, period: nat)
    ensures InTime(Exact, ticks, last, period) <==> (ticks - last) * period <= 180000
  {
  }

  lemma LastGapIsShort(h: seq<Request>, k: nat, token: string, ticks: nat, period: nat)
    requires ShortGaps(h + [Check(token, ticks)], period) && k < |h| && h[k].token == token
    requires forall j :: k < j < |h| ==> h[j].token != token
    ensures (ticks - h[k].ticks) * period < WRAP
  {
    var all := h + [Check(token, ticks)];
    assert UnusedBetween(all, k, |h|);
  }

  /** At the default period of 10 ms, a session that was never used after its login is accepted again
      once it has been idle for 2^32 + 4 ms. */
  lemma LongIdleSessionIsAccepted(n: nat, token: string)
    requires n >= 1 && token != ""
    ensures Accepts(After(n, [Login(token, 0)], 10), token, Stamp(429496730, 10))
    ensures !InTime(Exact, 429496730, 0, 10)
  {
    var h := [Login(token, 0)];
    TableFollowsHistory(n, h, 10);
    assert h[..0] == [] && Holders(Measured, n, [], 10) == map[];
    assert Holders(Measured, n, h, 10) == map[token := 0];
    AcceptsIfTimely(After(n, h, 10), map[token := 0], token, 429496730, 10);
  }
}
