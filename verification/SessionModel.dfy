/** Login sessions: the 32-bit clock, and a fixed table scanned slot by slot. */
module SessionModel {

  const LIMIT := 180000
  const WRAP := 0x1_0000_0000

  datatype Session = Session(active: bool, token: string, lastActivity: nat)

  const CLEARED := Session(false, "", 0)

  // ---------------------------------------------------------------- the clock

  /** Milliseconds as the code computes them: a 32-bit tick count times the tick period, in 32 bits. */
  function Stamp(ticks: nat, period: nat): nat {
    ((ticks % WRAP) * period) % WRAP
  }

  /** The unsigned 32-bit difference of two stamps. */
  function Gap(now: nat, last: nat): nat {
    (now - last) % WRAP
  }

  lemma Distributes(a: int, b: int, c: int)
    ensures (a + b) * c == a * c + b * c && (a - b) * c == a * c - b * c
  {
  }

  lemma Associates(k: int, q: int, c: int)
    ensures (k * q) * c == k * (q * c)
  {
  }

  lemma ModShift(k: int, x: int)
    ensures (WRAP * k + x) % WRAP == x % WRAP
  {
  }

  lemma ModProduct(t: nat, period: nat)
    ensures ((t % WRAP) * period) % WRAP == (t * period) % WRAP
  {
    var q, r := t / WRAP, t % WRAP;
    assert t == WRAP * q + r;
    Distributes(WRAP * q, r, period);
    Associates(WRAP, q, period);
    ModShift(q * period, r * period);
  }

  lemma ModDifference(a: int, b: int)
    ensures ((a % WRAP) - (b % WRAP)) % WRAP == (a - b) % WRAP
  {
    ModShift(a / WRAP - b / WRAP, (a % WRAP) - (b % WRAP));
  }

  lemma GapModuloWrap(last: nat, now: nat, period: nat)
    ensures Gap(Stamp(now, period), Stamp(last, period)) == ((now - last) * period) % WRAP
  {
    ModProduct(now, period);
    ModProduct(last, period);
    ModDifference(now * period, last * period);
    Distributes(now, last, period);
  }

  lemma ProductIsNat(x: nat, y: nat)
    ensures x * y >= 0
  {
  }

  lemma LimitModuloWrap(elapsed: nat)
    ensures elapsed < WRAP ==> elapsed % WRAP == elapsed
    ensures (elapsed % WRAP <= LIMIT <==> elapsed <= LIMIT) <==> !(elapsed >= WRAP && elapsed % WRAP <= LIMIT)
  {
  }

  /** The measured gap is the true one modulo 2^32 ms. So it is the true gap below 2^32 ms, and the
      session limit is judged rightly unless a gap of at least 2^32 ms wraps to within the limit. */
  lemma GapIsTrueModuloWrap(last: nat, now: nat, period: nat)
    requires last <= now
    ensures var measured, elapsed := Gap(Stamp(now, period), Stamp(last, period)), (now - last) * period;
      && measured == elapsed % WRAP
      && (elapsed < WRAP ==> measured == elapsed)
      && ((measured <= LIMIT <==> elapsed <= LIMIT) <==> !(elapsed >= WRAP && elapsed % WRAP <= LIMIT))
  {
    hide Gap, Stamp;
    GapModuloWrap(last, now, period);
    ProductIsNat(now - last, period);
    LimitModuloWrap((now - last) * period);
  }

  // ---------------------------------------------------------------- the table

  /** The first slot that is active for the token, or the length of the table. */
  function Find(table: seq<Session>, token: string): (i: nat)
    ensures i <= |table|
    ensures i < |table| ==> table[i].active && table[i].token == token
    ensures forall j :: 0 <= j < i ==> !(table[j].active && table[j].token == token)
  {
    if table == [] then 0
    else if table[0].active && table[0].token == token then 0
    else 1 + Find(table[1..], token)
  }

  /** The first inactive slot, or the length of the table. */
  function FreeSlot(table: seq<Session>): (i: nat)
    ensures i <= |table|
    ensures i < |table| ==> !table[i].active
    ensures forall j :: 0 <= j < i ==> table[j].active
  {
    if table == [] then 0 else if !table[0].active then 0 else 1 + FreeSlot(table[1..])
  }

  predicate Accepts(table: seq<Session>, token: string, now: nat) {
    token != "" &&
    var i := Find(table, token);
    i < |table| && Gap(now, table[i].lastActivity) <= LIMIT
  }

  /** `validate_token`: refreshes the session, or ends it if it is too old. */
  function Validated(table: seq<Session>, token: string, now: nat): seq<Session> {
    var i := Find(table, token);
    if token == "" || i == |table| then table
    else if Accepts(table, token, now) then table[i := table[i].(lastActivity := now)]
    else table[i := table[i].(active := false)]
  }

  /** `auth_handler` after the credentials matched: the token is saved if a slot is free. */
  function Saved(table: seq<Session>, token: string, now: nat): seq<Session> {
    var i := FreeSlot(table);
    if i == |table| then table else table[i := Session(true, token, now)]
  }

  function AllCleared(n: nat): seq<Session> {
    seq(n, i => CLEARED)
  }

  // ---------------------------------------------------------------- histories

  datatype Request =
    | Login(token: string, ticks: nat)
    | Check(token: string, ticks: nat)
    | Logout(token: string, ticks: nat)

  function Served(table: seq<Session>, r: Request, period: nat): (after: seq<Session>)
    ensures |after| == |table|
  {
    var now := Stamp(r.ticks, period);
    match r
    case Login(token, _) => Saved(table, token, now)
    case Check(token, _) => Validated(table, token, now)
    case Logout(token, _) =>
      if Accepts(table, token, now) then AllCleared(|table|) else Validated(table, token, now)
  }

  /** The table of n slots after some requests. */
  function After(n: nat, h: seq<Request>, period: nat): (table: seq<Session>)
    ensures |table| == n
  {
    if h == [] then AllCleared(n)
    else Served(After(n, h[..|h| - 1], period), h[|h| - 1], period)
  }

  /** Generated tokens are not empty and differ from each other. */
  predicate FreshTokens(h: seq<Request>) {
    && (forall i :: 0 <= i < |h| && h[i].Login? ==> h[i].token != "")
    && (forall i, j :: 0 <= i < j < |h| && h[i].Login? && h[j].Login? ==> h[i].token != h[j].token)
  }
}
