/**
 * Claims with leases (src/send_step.rs, src/send_step/admission.rs, src/send_step/renewal.rs,
 * src/send_step/pass.rs, src/send_step/under_claim.rs, src/departure.rs): every node sends a
 * Message only while it has its Journey owned, under a claim held for a lease from
 * when the request that last confirmed it was asked, on the node's own clock.
 * Requests reach Xmip Storage late or never, answers come back late or never, nodes
 * start again, and clocks differ as they like while they run at one rate. What a
 * node has owned is by Journey, what it sends is by claim: a Journey claimed again
 * while its node owns it is owned under the later claim, and the departure of the
 * earlier one goes on.
 */
module Claims {
  import opened Wrappers

  /** A node's present life: how many it had before, and how far its clock is ahead of Storage's. */
  datatype Life = Life(number: nat, ahead: int)

  /** Who asked for something of a Journey, in which life, and when on that node's clock. */
  datatype Asker = Asker(node: nat, life: nat, journey: nat, asked: int)

  datatype Kind = Renew | Release | HandOn(final: bool)

  datatype Request = Request(from: Asker, token: nat, kind: Kind)

  /** A renewal answered: the claim held on, or another's by now. */
  datatype Reply = Reply(from: Asker, token: nat, held: bool)

  /** What a claim was granted as, and whether the answer is on its way still. */
  datatype Grant = Grant(from: Asker, fence: nat, onTheWay: bool)

  /** A claim as Xmip Storage keeps it: until when, on Storage's own clock, and the fence it set. */
  datatype Claim = Claim(token: nat, expiry: int, fence: nat)

  /**
   * Claimed and its place not read again yet; read, still to be sent; owned, to be
   * sent from here; or its pass over, its outcome being written.
   */
  datatype Phase = Reading | Ready | Trying | Settling

  datatype Key = Key(node: nat, journey: nat)

  /** A Message being sent from a node under a claim: the fence it is sent under, its claim's. */
  datatype Departure = Departure(key: Key, fence: nat, phase: Phase)

  /** What a node owns of a Journey: its claim, and how long it surely holds on the node's clock (`Owned`, `Standing`). */
  datatype Entry = Entry(token: nat, until: int, lost: bool)

  datatype Sent = Sent(journey: nat, token: nat, fence: nat)

  /**
   * `takes` are the claims asked for and `requests` every other request, on their
   * way to Storage; `grants` and `replies` what it answered. `departures` are by the
   * claim each is under, `owned` by Journey. `closed` holds the claims their
   * departure let go of, `fences` the last fence set for each Journey,
   * `done` the Journeys whose outcome is final, `written` the last fence one's
   * outcome was written under, `sends` every send started, in order.
   */
  datatype State = State(
    now: int,
    lease: nat,
    lives: map<nat, Life>,
    departures: map<nat, Departure>,
    owned: map<Key, Entry>,
    minted: nat,
    takes: map<nat, Asker>,
    requests: set<Request>,
    grants: map<nat, Grant>,
    replies: set<Reply>,
    claims: map<nat, Claim>,
    fences: map<nat, nat>,
    closed: set<nat>,
    done: set<nat>,
    written: map<nat, nat>,
    sends: seq<Sent>)

  function Initial(now: int, lease: nat): State {
    State(now, lease, map[], map[], map[], 0, map[], {}, map[], {}, map[], map[], {}, {}, map[], [])
  }

  datatype Step =
    | Tick(time: nat)
    | Start(node: nat, ahead: int)
    | AskClaim(node: nat, journey: nat)
    | Claiming(token: nat)
    | LoseTake(token: nat)
    | TakeUp(token: nat)
    | LoseGrant(token: nat)
    | Read(token: nat)
    | GiveBack(token: nat)
    | Drop(token: nat)
    | Own(token: nat)
    | Send(token: nat)
    | AskRenew(key: Key)
    | Settle(token: nat, kind: Kind)
    | LetGo(token: nat)
    | Serve(request: Request)
    | LoseRequest(request: Request)
    | Deliver(reply: Reply)
    | LoseReply(reply: Reply)

  function Of(m: map<nat, nat>, key: nat): nat {
    if key in m then m[key] else 0
  }

  /** The node's clock. */
  function Clock(s: State, node: nat): int
    requires node in s.lives
  {
    s.now + s.lives[node].ahead
  }

  /** `SendStep::holds`: whether the Journey is surely this node's to send, now on its own clock. */
  predicate Holds(s: State, key: Key) {
    && key in s.owned && key.node in s.lives
    && !s.owned[key].lost && Clock(s, key.node) < s.owned[key].until
  }

  /** Whether the departure under the claim passes the check before a Location is tried. */
  predicate MaySend(s: State, token: nat) {
    token in s.departures && s.departures[token].phase.Trying? && Holds(s, s.departures[token].key)
  }

  /** Whether it passes by the standing of another claim its node owns the Journey under since. */
  predicate Borrows(s: State, token: nat) {
    MaySend(s, token) && s.owned[s.departures[token].key].token != token
  }

  /** `renewed`: an entry once a renewal of the claim it holds was answered. */
  function Renewed(entry: Entry, held: bool, asked: int, lease: nat): Entry {
    if !held then entry.(lost := true)
    else entry.(until := if entry.until < asked + lease then asked + lease else entry.until, lost := false)
  }

  function AskedBy(s: State, key: Key): Asker
    requires key.node in s.lives
  {
    Asker(key.node, s.lives[key.node].number, key.journey, Clock(s, key.node))
  }

  predicate Current(lives: map<nat, Life>, from: Asker) {
    from.node in lives && lives[from.node].number == from.life
  }

  predicate Mine(claims: map<nat, Claim>, journey: nat, token: nat) {
    journey in claims && claims[journey].token == token
  }

  /** Xmip Storage granting a claim, where none is live. */
  function Granting(s: State, token: nat): State
    requires token in s.takes
  {
    var from := s.takes[token];
    var t := s.(takes := s.takes - {token});
    if from.journey in s.claims && s.claims[from.journey].expiry > s.now then t else
    var fence := Of(s.fences, from.journey) + 1;
    t.(claims := s.claims[from.journey := Claim(token, s.now + s.lease, fence)],
       fences := s.fences[from.journey := fence],
       grants := s.grants[token := Grant(from, fence, true)])
  }

  /** Xmip Storage answering any other request: a claim is renewed, or let go of, only by its holder. */
  function Served(s: State, r: Request): State {
    var t := s.(requests := s.requests - {r});
    var journey := r.from.journey;
    var mine := Mine(s.claims, journey, r.token);
    match r.kind
    case Renew =>
      t.(claims := if mine then s.claims[journey := s.claims[journey].(expiry := s.now + s.lease)] else s.claims,
         replies := s.replies + {Reply(r.from, r.token, mine)})
    case Release =>
      if mine then t.(claims := s.claims - {journey}) else t
    case HandOn(final) =>
      if !mine || s.claims[journey].expiry <= s.now then t
      else t.(claims := s.claims - {journey},
              done := if final then s.done + {journey} else s.done,
              written := s.written[journey := s.claims[journey].fence])
  }

  /** The claim granted, its Message's place to be read again by the node that asked. */
  function TakenUp(s: State, token: nat): State
    requires token in s.grants
  {
    var grant := s.grants[token];
    var t := s.(grants := s.grants[token := grant.(onTheWay := false)]);
    if !Current(s.lives, grant.from) then t else
    t.(departures := s.departures[token := Departure(Key(grant.from.node, grant.from.journey), grant.fence, Reading)])
  }

  /** `own`: the Journey owned under this claim, whatever it was owned under. */
  function Owning(s: State, token: nat): State
    requires token in s.departures && token in s.grants
  {
    var d := s.departures[token];
    s.(departures := s.departures[token := d.(phase := Trying)],
       owned := s.owned[d.key := Entry(token, s.grants[token].from.asked + s.lease, false)])
  }

  function Delivered(s: State, p: Reply): State {
    var t := s.(replies := s.replies - {p});
    var key := Key(p.from.node, p.from.journey);
    if !Current(s.lives, p.from) || key !in s.owned || s.owned[key].token != p.token then t
    else t.(owned := s.owned[key := Renewed(s.owned[key], p.held, p.from.asked, s.lease)])
  }

  /** A claim let go of by its departure: nothing is tried under it again. */
  function Closing(s: State, token: nat, kind: Kind): State
    requires token in s.departures && s.departures[token].key.node in s.lives
  {
    s.(closed := s.closed + {token}, requests := s.requests + {Request(AskedBy(s, s.departures[token].key), token, kind)})
  }

  /** Its claim given back: the Message is not this node's to send. */
  function GivenBack(s: State, token: nat): State
    requires token in s.departures && s.departures[token].key.node in s.lives
  {
    Closing(s, token, Release).(departures := s.departures - {token})
  }

  /** The departure's pass over, its outcome written or its claim given back. */
  function Settled(s: State, token: nat, kind: Kind): State
    requires token in s.departures && s.departures[token].key.node in s.lives
  {
    Closing(s, token, kind).(departures := s.departures[token := s.departures[token].(phase := Settling)])
  }

  /** Whether the departure is at this phase, on a node that runs. */
  predicate At(s: State, token: nat, phase: Phase) {
    token in s.departures && s.departures[token].phase == phase && s.departures[token].key.node in s.lives
  }

  function Next(s: State, step: Step): Option<State> {
    match step
    case Tick(time) => Some(s.(now := s.now + time))
    case Start(node, ahead) =>
      Some(s.(lives := s.lives[node := Life(if node in s.lives then s.lives[node].number + 1 else 0, ahead)],
              departures := map t | t in s.departures && s.departures[t].key.node != node :: s.departures[t],
              owned := map key | key in s.owned && key.node != node :: s.owned[key]))
    case AskClaim(node, journey) =>
      if node !in s.lives then None
      else Some(s.(minted := s.minted + 1, takes := s.takes[s.minted := AskedBy(s, Key(node, journey))]))
    case Claiming(token) => if token !in s.takes then None else Some(Granting(s, token))
    case LoseTake(token) => Some(s.(takes := s.takes - {token}))
    case TakeUp(token) => if token !in s.grants || !s.grants[token].onTheWay then None else Some(TakenUp(s, token))
    case LoseGrant(token) =>
      if token !in s.grants then None
      else Some(s.(grants := s.grants[token := s.grants[token].(onTheWay := false)]))
    case Read(token) =>
      if !At(s, token, Reading) then None
      else if s.departures[token].key.journey in s.done then Some(GivenBack(s, token))
      else Some(s.(departures := s.departures[token := s.departures[token].(phase := Ready)]))
    case GiveBack(token) => if !At(s, token, Reading) then None else Some(GivenBack(s, token))
    case Drop(token) =>
      if !At(s, token, Reading) && !At(s, token, Ready) then None else Some(s.(departures := s.departures - {token}))
    case Own(token) => if !At(s, token, Ready) || token !in s.grants then None else Some(Owning(s, token))
    case Send(token) =>
      if !MaySend(s, token) then None else
      var d := s.departures[token];
      Some(s.(sends := s.sends + [Sent(d.key.journey, token, d.fence)]))
    case AskRenew(key) =>
      if key !in s.owned || key.node !in s.lives || s.owned[key].lost then None
      else Some(s.(requests := s.requests + {Request(AskedBy(s, key), s.owned[key].token, Renew)}))
    case Settle(token, kind) => if !At(s, token, Trying) || kind.Renew? then None else Some(Settled(s, token, kind))
    case LetGo(token) =>
      if !At(s, token, Trying) && !At(s, token, Settling) then None
      else Some(s.(departures := s.departures - {token}, owned := s.owned - {s.departures[token].key}))
    case Serve(r) => if r !in s.requests then None else Some(Served(s, r))
    case LoseRequest(r) => Some(s.(requests := s.requests - {r}))
    case Deliver(p) => if p !in s.replies then None else Some(Delivered(s, p))
    case LoseReply(p) => Some(s.(replies := s.replies - {p}))
  }

  function Run(s: State, steps: seq<Step>): Option<State> {
    if steps == [] then Some(s)
    else match Run(s, steps[..|steps| - 1])
      case None => None
      case Some(t) => Next(t, steps[|steps| - 1])
  }

  // ---- What every reachable state keeps ----

  /** While `deadline` on Storage's clock is to come, the claim is held in Storage, at least until then. */
  predicate Covers(claims: map<nat, Claim>, now: int, journey: nat, token: nat, deadline: int) {
    deadline > now ==> Mine(claims, journey, token) && claims[journey].expiry >= deadline
  }

  /** When on Storage's clock a life asked, which is past. */
  ghost predicate AskerOk(from: Asker, lives: map<nat, Life>, now: int) {
    && from.node in lives && from.life <= lives[from.node].number
    && (Current(lives, from) ==> from.asked - lives[from.node].ahead <= now)
  }

  predicate IsOwned(phase: Phase) {
    phase.Trying? || phase.Settling?
  }

  /** Its departure owned its Journey once: no claim is renewed before. */
  ghost predicate Renewable(token: nat, grants: map<nat, Grant>, departures: map<nat, Departure>) {
    token in grants && !grants[token].onTheWay && (token in departures ==> IsOwned(departures[token].phase))
  }

  ghost predicate TakesOk(takes: map<nat, Asker>, lives: map<nat, Life>, now: int, minted: nat, grants: map<nat, Grant>) {
    forall t :: t in takes ==> t < minted && t !in grants && AskerOk(takes[t], lives, now)
  }

  ghost predicate RequestsOk(
      requests: set<Request>, lives: map<nat, Life>, now: int, grants: map<nat, Grant>,
      departures: map<nat, Departure>, closed: set<nat>) {
    forall r :: r in requests ==>
      AskerOk(r.from, lives, now) && if r.kind.Renew? then Renewable(r.token, grants, departures) else r.token in closed
  }

  ghost predicate Backed(
      from: Asker, token: nat, lives: map<nat, Life>, now: int, lease: nat, claims: map<nat, Claim>, closed: set<nat>) {
    Current(lives, from) && token !in closed ==>
      Covers(claims, now, from.journey, token, from.asked - lives[from.node].ahead + lease)
  }

  ghost predicate RepliesOk(
      replies: set<Reply>, lives: map<nat, Life>, now: int, lease: nat, claims: map<nat, Claim>,
      grants: map<nat, Grant>, departures: map<nat, Departure>, closed: set<nat>) {
    forall p :: p in replies ==>
      && AskerOk(p.from, lives, now) && Renewable(p.token, grants, departures)
      && (p.held ==> Backed(p.from, p.token, lives, now, lease, claims, closed))
  }

  ghost predicate GrantsOk(
      grants: map<nat, Grant>, lives: map<nat, Life>, now: int, lease: nat, minted: nat, claims: map<nat, Claim>, closed: set<nat>) {
    && (forall t :: t in grants ==> t < minted && AskerOk(grants[t].from, lives, now))
    && (forall t :: t in grants && grants[t].onTheWay ==> t !in closed && Backed(grants[t].from, t, lives, now, lease, claims, closed))
    && (forall t :: t in closed ==> t in grants)
  }

  ghost predicate DepartureOk(
      token: nat, d: Departure, lives: map<nat, Life>, now: int, lease: nat, claims: map<nat, Claim>,
      grants: map<nat, Grant>, closed: set<nat>, done: set<nat>) {
    && token in grants && !grants[token].onTheWay && grants[token].fence == d.fence
    && grants[token].from.node == d.key.node && grants[token].from.journey == d.key.journey
    && Current(lives, grants[token].from)
    && (!d.phase.Settling? ==> token !in closed)
    && (!IsOwned(d.phase) ==> Backed(grants[token].from, token, lives, now, lease, claims, closed))
    && (d.phase.Ready? || d.phase.Trying? ==> Mine(claims, d.key.journey, token) ==> d.key.journey !in done)
  }

  ghost predicate DeparturesOk(
      departures: map<nat, Departure>, lives: map<nat, Life>, now: int, lease: nat, claims: map<nat, Claim>,
      grants: map<nat, Grant>, closed: set<nat>, done: set<nat>) {
    forall t :: t in departures ==> DepartureOk(t, departures[t], lives, now, lease, claims, grants, closed, done)
  }

  /** What is owned is owned under a departure's claim, held as long as the entry says unless its departure closed it. */
  ghost predicate EntryOk(
      key: Key, e: Entry, departures: map<nat, Departure>, lives: map<nat, Life>, now: int,
      claims: map<nat, Claim>, closed: set<nat>) {
    && key.node in lives
    && e.token in departures && departures[e.token].key == key && IsOwned(departures[e.token].phase)
    && (e.token !in closed ==> Covers(claims, now, key.journey, e.token, e.until - lives[key.node].ahead))
  }

  ghost predicate EntriesOk(
      owned: map<Key, Entry>, departures: map<nat, Departure>, lives: map<nat, Life>, now: int,
      claims: map<nat, Claim>, closed: set<nat>) {
    forall key :: key in owned ==> EntryOk(key, owned[key], departures, lives, now, claims, closed)
  }

  /** The entry's time is over, and no answer on its way puts it off. */
  ghost predicate Past(key: Key, e: Entry, lives: map<nat, Life>, now: int, replies: set<Reply>) {
    && key.node in lives && e.until - lives[key.node].ahead <= now
    && forall p :: p in replies && p.token == e.token ==> !p.held
  }

  /** Another departure of the Journey from the node, owned once under its own claim. */
  predicate Beside(departures: map<nat, Departure>, key: Key, token: nat, t: nat) {
    t in departures && departures[t].key == key && IsOwned(departures[t].phase) && t != token
  }

  /** What a Journey is owned under was granted after every other departure's claim of it there, or its time is over. */
  ghost predicate OrderOk(
      owned: map<Key, Entry>, departures: map<nat, Departure>, lives: map<nat, Life>, now: int, replies: set<Reply>) {
    forall key, t :: key in owned && Beside(departures, key, owned[key].token, t) ==>
        owned[key].token in departures
        && (|| departures[t].fence < departures[owned[key].token].fence
            || (departures[t].fence > departures[owned[key].token].fence && Past(key, owned[key], lives, now, replies)))
  }

  ghost predicate ClaimsOk(
      claims: map<nat, Claim>, now: int, lease: nat, grants: map<nat, Grant>, fences: map<nat, nat>, written: map<nat, nat>) {
    forall j :: j in claims ==>
      var c := claims[j];
      && c.expiry <= now + lease
      && c.token in grants && grants[c.token].from.journey == j && grants[c.token].fence == c.fence
      && c.fence == Of(fences, j) && Of(written, j) < c.fence
  }

  ghost predicate FencesOk(grants: map<nat, Grant>, fences: map<nat, nat>, written: map<nat, nat>) {
    && (forall j :: Of(written, j) <= Of(fences, j))
    && (forall t :: t in grants ==> grants[t].fence <= Of(fences, grants[t].from.journey))
  }

  /** One claim per fence of a Journey, and every send is under a claim granted. */
  ghost predicate SendsOk(sends: seq<Sent>, grants: map<nat, Grant>) {
    && (forall t, u :: t in grants && u in grants && grants[t].from.journey == grants[u].from.journey && grants[t].fence == grants[u].fence
          ==> t == u)
    && (forall i :: 0 <= i < |sends| ==>
          var sent := sends[i];
          sent.token in grants && grants[sent.token].from.journey == sent.journey && grants[sent.token].fence == sent.fence)
  }

  ghost predicate Inv(s: State) {
    && TakesOk(s.takes, s.lives, s.now, s.minted, s.grants)
    && RequestsOk(s.requests, s.lives, s.now, s.grants, s.departures, s.closed)
    && RepliesOk(s.replies, s.lives, s.now, s.lease, s.claims, s.grants, s.departures, s.closed)
    && GrantsOk(s.grants, s.lives, s.now, s.lease, s.minted, s.claims, s.closed)
    && DeparturesOk(s.departures, s.lives, s.now, s.lease, s.claims, s.grants, s.closed, s.done)
    && EntriesOk(s.owned, s.departures, s.lives, s.now, s.claims, s.closed)
    && OrderOk(s.owned, s.departures, s.lives, s.now, s.replies)
    && ClaimsOk(s.claims, s.now, s.lease, s.grants, s.fences, s.written)
    && FencesOk(s.grants, s.fences, s.written)
    && SendsOk(s.sends, s.grants)
  }

  lemma {:induction false} TickKeeps(s: State, time: nat)
    requires Inv(s)
    ensures Inv(s.(now := s.now + time))
  {
    hide TakesOk, RequestsOk, RepliesOk, GrantsOk, DeparturesOk, EntriesOk, OrderOk, ClaimsOk, FencesOk, SendsOk;
    TickAsked(s, s.now + time);
    TickDepartures(s, s.now + time);
    TickEntries(s, s.now + time);
  }

  lemma {:induction false} TickAsked(s: State, now: int)
    requires now >= s.now && TakesOk(s.takes, s.lives, s.now, s.minted, s.grants)
    requires RequestsOk(s.requests, s.lives, s.now, s.grants, s.departures, s.closed)
    requires RepliesOk(s.replies, s.lives, s.now, s.lease, s.claims, s.grants, s.departures, s.closed)
    requires GrantsOk(s.grants, s.lives, s.now, s.lease, s.minted, s.claims, s.closed)
    ensures TakesOk(s.takes, s.lives, now, s.minted, s.grants)
    ensures RequestsOk(s.requests, s.lives, now, s.grants, s.departures, s.closed)
    ensures RepliesOk(s.replies, s.lives, now, s.lease, s.claims, s.grants, s.departures, s.closed)
    ensures GrantsOk(s.grants, s.lives, now, s.lease, s.minted, s.claims, s.closed)
  {
    hide Renewable;
  }

  lemma {:induction false} TickDepartures(s: State, now: int)
    requires now >= s.now && DeparturesOk(s.departures, s.lives, s.now, s.lease, s.claims, s.grants, s.closed, s.done)
    requires ClaimsOk(s.claims, s.now, s.lease, s.grants, s.fences, s.written)
    ensures DeparturesOk(s.departures, s.lives, now, s.lease, s.claims, s.grants, s.closed, s.done)
    ensures ClaimsOk(s.claims, now, s.lease, s.grants, s.fences, s.written)
  {
  }

  lemma {:induction false} TickEntries(s: State, now: int)
    requires now >= s.now && EntriesOk(s.owned, s.departures, s.lives, s.now, s.claims, s.closed)
    requires OrderOk(s.owned, s.departures, s.lives, s.now, s.replies)
    ensures EntriesOk(s.owned, s.departures, s.lives, now, s.claims, s.closed)
    ensures OrderOk(s.owned, s.departures, s.lives, now, s.replies)
  {
  }

  // ---- A node started again ----

  predicate Started(was: map<nat, Life>, node: nat, lives: map<nat, Life>) {
    && lives.Keys == was.Keys + {node}
    && (forall n :: n in was && n != node ==> n in lives && lives[n] == was[n])
    && node in lives && (node in was ==> lives[node].number == was[node].number + 1)
  }

  lemma {:induction false} StartKeeps(s: State, node: nat, ahead: int)
    requires Inv(s)
    ensures Inv(Next(s, Start(node, ahead)).value)
  {
    hide TakesOk, RequestsOk, RepliesOk, GrantsOk, DeparturesOk, EntriesOk, OrderOk, ClaimsOk, FencesOk, SendsOk;
    var t := Next(s, Start(node, ahead)).value;
    StartedAsked(s, node, t.lives, t.departures);
    StartedGrants(s, node, t.lives);
    StartedDepartures(s, node, t.lives, t.departures);
    StartedEntries(s, node, t.lives, t.departures, t.owned);
    StartedOrder(s, node, t.lives, t.departures, t.owned);
  }

  ghost predicate Without(was: map<nat, Departure>, node: nat, departures: map<nat, Departure>) {
    departures == map t | t in was && was[t].key.node != node :: was[t]
  }

  lemma {:induction false} StartedAsked(s: State, node: nat, lives: map<nat, Life>, departures: map<nat, Departure>)
    requires Started(s.lives, node, lives) && Without(s.departures, node, departures)
    requires TakesOk(s.takes, s.lives, s.now, s.minted, s.grants)
    requires RequestsOk(s.requests, s.lives, s.now, s.grants, s.departures, s.closed)
    requires RepliesOk(s.replies, s.lives, s.now, s.lease, s.claims, s.grants, s.departures, s.closed)
    ensures TakesOk(s.takes, lives, s.now, s.minted, s.grants)
    ensures RequestsOk(s.requests, lives, s.now, s.grants, departures, s.closed)
    ensures RepliesOk(s.replies, lives, s.now, s.lease, s.claims, s.grants, departures, s.closed)
  {
  }

  lemma {:induction false} StartedGrants(s: State, node: nat, lives: map<nat, Life>)
    requires Started(s.lives, node, lives)
    requires GrantsOk(s.grants, s.lives, s.now, s.lease, s.minted, s.claims, s.closed)
    ensures GrantsOk(s.grants, lives, s.now, s.lease, s.minted, s.claims, s.closed)
  {
  }

  lemma {:induction false} StartedDepartures(s: State, node: nat, lives: map<nat, Life>, departures: map<nat, Departure>)
    requires Started(s.lives, node, lives) && Without(s.departures, node, departures)
    requires DeparturesOk(s.departures, s.lives, s.now, s.lease, s.claims, s.grants, s.closed, s.done)
    ensures DeparturesOk(departures, lives, s.now, s.lease, s.claims, s.grants, s.closed, s.done)
  {
  }

  lemma {:induction false} StartedEntries(
      s: State, node: nat, lives: map<nat, Life>, departures: map<nat, Departure>, owned: map<Key, Entry>)
    requires Started(s.lives, node, lives) && Without(s.departures, node, departures)
    requires owned == map key | key in s.owned && key.node != node :: s.owned[key]
    requires EntriesOk(s.owned, s.departures, s.lives, s.now, s.claims, s.closed)
    ensures EntriesOk(owned, departures, lives, s.now, s.claims, s.closed)
  {
    hide Covers;
    forall key | key in owned
      ensures EntryOk(key, owned[key], departures, lives, s.now, s.claims, s.closed)
    {
      assert EntryOk(key, s.owned[key], s.departures, s.lives, s.now, s.claims, s.closed);
    }
  }

  lemma {:induction false} StartedOrder(
      s: State, node: nat, lives: map<nat, Life>, departures: map<nat, Departure>, owned: map<Key, Entry>)
    requires Started(s.lives, node, lives) && Without(s.departures, node, departures)
    requires owned == map key | key in s.owned && key.node != node :: s.owned[key]
    requires EntriesOk(s.owned, s.departures, s.lives, s.now, s.claims, s.closed)
    requires OrderOk(s.owned, s.departures, s.lives, s.now, s.replies)
    ensures OrderOk(owned, departures, lives, s.now, s.replies)
  {
    hide Covers;
    forall key, t | key in owned && Beside(departures, key, owned[key].token, t)
      ensures owned[key].token in departures
      ensures || departures[t].fence < departures[owned[key].token].fence
              || (departures[t].fence > departures[owned[key].token].fence && Past(key, owned[key], lives, s.now, s.replies))
    {
      assert EntryOk(key, s.owned[key], s.departures, s.lives, s.now, s.claims, s.closed);
      assert key in s.owned && Beside(s.departures, key, s.owned[key].token, t);
    }
  }

  lemma {:induction false} AskClaimKeeps(s: State, node: nat, journey: nat)
    requires Inv(s) && node in s.lives
    ensures Inv(Next(s, AskClaim(node, journey)).value)
  {
    hide RequestsOk, RepliesOk, DeparturesOk, EntriesOk, OrderOk, ClaimsOk, FencesOk, SendsOk;
  }

  // ---- A claim granted ----

  /** Storage grants a claim: no other is live, so it takes from no node what that one still relies on. */
  lemma {:induction false} GrantingKeeps(s: State, token: nat)
    requires Inv(s) && token in s.takes
    ensures Inv(Granting(s, token))
  {
    hide TakesOk, RequestsOk, RepliesOk, GrantsOk, DeparturesOk, EntriesOk, OrderOk, ClaimsOk, FencesOk, SendsOk;
    var from := s.takes[token];
    if from.journey in s.claims && s.claims[from.journey].expiry > s.now {
      FewerTakes(s, token);
    } else {
      NotGranted(s, token);
      GrantedKeeps(s, token, Grant(from, Of(s.fences, from.journey) + 1, true));
    }
  }

  lemma {:induction false} FewerTakes(s: State, token: nat)
    requires Inv(s)
    ensures Inv(s.(takes := s.takes - {token}))
  {
    hide RequestsOk, RepliesOk, GrantsOk, DeparturesOk, EntriesOk, OrderOk, ClaimsOk, FencesOk, SendsOk;
  }

  lemma {:induction false} NotGranted(s: State, token: nat)
    requires TakesOk(s.takes, s.lives, s.now, s.minted, s.grants) && token in s.takes
    ensures token !in s.grants
  {
  }

  lemma {:induction false} GrantedKeeps(s: State, token: nat, grant: Grant)
    requires Inv(s) && token in s.takes && token !in s.grants
    requires grant == Grant(s.takes[token], Of(s.fences, s.takes[token].journey) + 1, true)
    requires grant.from.journey in s.claims ==> s.claims[grant.from.journey].expiry <= s.now
    ensures Inv(s.(takes := s.takes - {token},
                   claims := s.claims[grant.from.journey := Claim(token, s.now + s.lease, grant.fence)],
                   fences := s.fences[grant.from.journey := grant.fence],
                   grants := s.grants[token := grant]))
  {
    hide TakesOk, RequestsOk, RepliesOk, GrantsOk, DeparturesOk, EntriesOk, OrderOk, ClaimsOk, FencesOk, SendsOk;
    var claim := Claim(token, s.now + s.lease, grant.fence);
    TakingOverReplies(s, token, grant, claim);
    TakingOverGrants(s, token, grant, claim);
    TakingOverDepartures(s, token, grant, claim);
    TakingOverEntries(s, grant, claim);
    GrantedTakes(s.takes, token, s.lives, s.now, s.minted, s.grants, grant);
    GrantedFences(s, token, grant);
    GrantedClaims(s, token, grant, claim);
    LaterFence(s, grant);
    GrantedSends(s, token, grant);
  }

  /** What a lapsed claim covered is past, so a claim taken over it uncovers nothing. */
  lemma {:induction false} TakingOverReplies(s: State, token: nat, grant: Grant, claim: Claim)
    requires RepliesOk(s.replies, s.lives, s.now, s.lease, s.claims, s.grants, s.departures, s.closed)
    requires RequestsOk(s.requests, s.lives, s.now, s.grants, s.departures, s.closed) && token !in s.grants
    requires grant.from.journey in s.claims ==> s.claims[grant.from.journey].expiry <= s.now
    ensures RepliesOk(
      s.replies, s.lives, s.now, s.lease, s.claims[grant.from.journey := claim], s.grants[token := grant], s.departures, s.closed)
    ensures RequestsOk(s.requests, s.lives, s.now, s.grants[token := grant], s.departures, s.closed)
  {
  }

  lemma {:induction false} TakingOverGrants(s: State, token: nat, grant: Grant, claim: Claim)
    requires GrantsOk(s.grants, s.lives, s.now, s.lease, s.minted, s.claims, s.closed)
    requires TakesOk(s.takes, s.lives, s.now, s.minted, s.grants)
    requires token in s.takes && grant.from == s.takes[token] && grant.onTheWay && claim == Claim(token, s.now + s.lease, grant.fence)
    requires grant.from.journey in s.claims ==> s.claims[grant.from.journey].expiry <= s.now
    ensures GrantsOk(s.grants[token := grant], s.lives, s.now, s.lease, s.minted, s.claims[grant.from.journey := claim], s.closed)
  {
  }

  lemma {:induction false} TakingOverDepartures(s: State, token: nat, grant: Grant, claim: Claim)
    requires DeparturesOk(s.departures, s.lives, s.now, s.lease, s.claims, s.grants, s.closed, s.done)
    requires token !in s.grants && claim.token == token
    requires grant.from.journey in s.claims ==> s.claims[grant.from.journey].expiry <= s.now
    ensures DeparturesOk(
      s.departures, s.lives, s.now, s.lease, s.claims[grant.from.journey := claim], s.grants[token := grant], s.closed, s.done)
  {
  }

  lemma {:induction false} TakingOverEntries(s: State, grant: Grant, claim: Claim)
    requires EntriesOk(s.owned, s.departures, s.lives, s.now, s.claims, s.closed)
    requires grant.from.journey in s.claims ==> s.claims[grant.from.journey].expiry <= s.now
    ensures EntriesOk(s.owned, s.departures, s.lives, s.now, s.claims[grant.from.journey := claim], s.closed)
  {
  }

  lemma {:induction false} GrantedTakes(
      takes: map<nat, Asker>, token: nat, lives: map<nat, Life>, now: int, minted: nat, grants: map<nat, Grant>, grant: Grant)
    requires TakesOk(takes, lives, now, minted, grants)
    ensures TakesOk(takes - {token}, lives, now, minted, grants[token := grant])
  {
  }

  lemma {:induction false} GrantedClaims(s: State, token: nat, grant: Grant, claim: Claim)
    requires ClaimsOk(s.claims, s.now, s.lease, s.grants, s.fences, s.written) && token !in s.grants
    requires Of(s.written, grant.from.journey) <= Of(s.fences, grant.from.journey)
    requires grant.fence == Of(s.fences, grant.from.journey) + 1 && claim == Claim(token, s.now + s.lease, grant.fence)
    ensures ClaimsOk(s.claims[grant.from.journey := claim], s.now, s.lease, s.grants[token := grant],
                     s.fences[grant.from.journey := grant.fence], s.written)
  {
  }

  lemma {:induction false} GrantedFences(s: State, token: nat, grant: Grant)
    requires FencesOk(s.grants, s.fences, s.written) && token !in s.grants
    requires grant.fence == Of(s.fences, grant.from.journey) + 1
    ensures FencesOk(s.grants[token := grant], s.fences[grant.from.journey := grant.fence], s.written)
    ensures Of(s.written, grant.from.journey) <= Of(s.fences, grant.from.journey)
  {
    var fences := s.fences[grant.from.journey := grant.fence];
    assert forall j :: Of(s.fences, j) <= Of(fences, j);
  }

  lemma {:induction false} GrantedSends(s: State, token: nat, grant: Grant)
    requires SendsOk(s.sends, s.grants) && token !in s.grants
    requires forall t :: t in s.grants && s.grants[t].from.journey == grant.from.journey ==> s.grants[t].fence < grant.fence
    ensures SendsOk(s.sends, s.grants[token := grant])
  {
  }

  lemma {:induction false} LaterFence(s: State, grant: Grant)
    requires FencesOk(s.grants, s.fences, s.written) && grant.fence == Of(s.fences, grant.from.journey) + 1
    ensures forall t :: t in s.grants && s.grants[t].from.journey == grant.from.journey ==> s.grants[t].fence < grant.fence
  {
  }

  lemma {:induction false} LandedKeeps(s: State, token: nat)
    requires Inv(s) && token in s.grants
    ensures Inv(s.(grants := s.grants[token := s.grants[token].(onTheWay := false)]))
  {
    hide TakesOk, RequestsOk, RepliesOk, GrantsOk, DeparturesOk, EntriesOk, OrderOk, ClaimsOk, FencesOk, SendsOk;
    var grants := s.grants[token := s.grants[token].(onTheWay := false)];
    LandedAsked(s, token, grants);
    LandedDepartures(s, token, grants);
    LandedClaims(s, token, grants);
    LandedSends(s.sends, s.grants, token, grants);
  }

  lemma {:induction false} LandedAsked(s: State, token: nat, grants: map<nat, Grant>)
    requires RequestsOk(s.requests, s.lives, s.now, s.grants, s.departures, s.closed)
    requires RepliesOk(s.replies, s.lives, s.now, s.lease, s.claims, s.grants, s.departures, s.closed)
    requires token in s.grants && grants == s.grants[token := s.grants[token].(onTheWay := false)]
    ensures RequestsOk(s.requests, s.lives, s.now, grants, s.departures, s.closed)
    ensures RepliesOk(s.replies, s.lives, s.now, s.lease, s.claims, grants, s.departures, s.closed)
  {
    hide Backed, AskerOk;
  }

  lemma {:induction false} LandedDepartures(s: State, token: nat, grants: map<nat, Grant>)
    requires TakesOk(s.takes, s.lives, s.now, s.minted, s.grants)
    requires GrantsOk(s.grants, s.lives, s.now, s.lease, s.minted, s.claims, s.closed)
    requires DeparturesOk(s.departures, s.lives, s.now, s.lease, s.claims, s.grants, s.closed, s.done)
    requires token in s.grants && grants == s.grants[token := s.grants[token].(onTheWay := false)]
    ensures TakesOk(s.takes, s.lives, s.now, s.minted, grants)
    ensures GrantsOk(grants, s.lives, s.now, s.lease, s.minted, s.claims, s.closed)
    ensures DeparturesOk(s.departures, s.lives, s.now, s.lease, s.claims, grants, s.closed, s.done)
  {
    hide Backed, AskerOk;
  }

  lemma {:induction false} LandedClaims(s: State, token: nat, grants: map<nat, Grant>)
    requires ClaimsOk(s.claims, s.now, s.lease, s.grants, s.fences, s.written) && FencesOk(s.grants, s.fences, s.written)
    requires token in s.grants && grants == s.grants[token := s.grants[token].(onTheWay := false)]
    ensures ClaimsOk(s.claims, s.now, s.lease, grants, s.fences, s.written) && FencesOk(grants, s.fences, s.written)
  {
  }

  lemma {:induction false} LandedSends(sends: seq<Sent>, was: map<nat, Grant>, token: nat, grants: map<nat, Grant>)
    requires SendsOk(sends, was) && token in was && grants == was[token := was[token].(onTheWay := false)]
    ensures SendsOk(sends, grants)
  {
  }

  // ---- A departure begun, and what becomes of it ----

  lemma {:induction false} TakenUpKeeps(s: State, token: nat)
    requires Inv(s) && token in s.grants && s.grants[token].onTheWay
    ensures Inv(TakenUp(s, token))
  {
    hide TakesOk, RequestsOk, RepliesOk, GrantsOk, DeparturesOk, EntriesOk, OrderOk, ClaimsOk, FencesOk, SendsOk;
    var grant := s.grants[token];
    var t := s.(grants := s.grants[token := grant.(onTheWay := false)]);
    LandedKeeps(s, token);
    if Current(s.lives, grant.from) {
      var d := Departure(Key(grant.from.node, grant.from.journey), grant.fence, Reading);
      BegunOk(s, token, d);
      NotRenewed(s, token);
      BegunAsked(t, token, d);
      BegunOwned(s, token, d);
      DepartureKeeps(t.departures, token, d, t.lives, t.now, t.lease, t.claims, t.grants, t.closed, t.done);
    }
  }

  lemma {:induction false} BegunOk(s: State, token: nat, d: Departure)
    requires GrantsOk(s.grants, s.lives, s.now, s.lease, s.minted, s.claims, s.closed)
    requires token in s.grants && s.grants[token].onTheWay && Current(s.lives, s.grants[token].from)
    requires d == Departure(Key(s.grants[token].from.node, s.grants[token].from.journey), s.grants[token].fence, Reading)
    ensures DepartureOk(
      token, d, s.lives, s.now, s.lease, s.claims, s.grants[token := s.grants[token].(onTheWay := false)], s.closed, s.done)
  {
  }

  /** A claim whose answer is on its way was never renewed. */
  lemma {:induction false} NotRenewed(s: State, token: nat)
    requires RequestsOk(s.requests, s.lives, s.now, s.grants, s.departures, s.closed)
    requires RepliesOk(s.replies, s.lives, s.now, s.lease, s.claims, s.grants, s.departures, s.closed)
    requires token in s.grants && s.grants[token].onTheWay
    ensures forall r :: r in s.requests && r.kind.Renew? ==> r.token != token
    ensures forall p :: p in s.replies ==> p.token != token
  {
  }

  lemma {:induction false} BegunAsked(s: State, token: nat, d: Departure)
    requires RequestsOk(s.requests, s.lives, s.now, s.grants, s.departures, s.closed)
    requires RepliesOk(s.replies, s.lives, s.now, s.lease, s.claims, s.grants, s.departures, s.closed)
    requires forall r :: r in s.requests && r.kind.Renew? ==> r.token != token
    requires forall p :: p in s.replies ==> p.token != token
    ensures RequestsOk(s.requests, s.lives, s.now, s.grants, s.departures[token := d], s.closed)
    ensures RepliesOk(s.replies, s.lives, s.now, s.lease, s.claims, s.grants, s.departures[token := d], s.closed)
  {
    hide Backed, AskerOk;
  }

  lemma {:induction false} BegunOwned(s: State, token: nat, d: Departure)
    requires DeparturesOk(s.departures, s.lives, s.now, s.lease, s.claims, s.grants, s.closed, s.done)
    requires EntriesOk(s.owned, s.departures, s.lives, s.now, s.claims, s.closed)
    requires OrderOk(s.owned, s.departures, s.lives, s.now, s.replies)
    requires token in s.grants && s.grants[token].onTheWay && d.phase.Reading?
    ensures EntriesOk(s.owned, s.departures[token := d], s.lives, s.now, s.claims, s.closed)
    ensures OrderOk(s.owned, s.departures[token := d], s.lives, s.now, s.replies)
  {
    hide Backed, Past, Covers;
    assert token !in s.departures;
  }

  lemma {:induction false} DepartureKeeps(
      departures: map<nat, Departure>, token: nat, d: Departure, lives: map<nat, Life>, now: int, lease: nat,
      claims: map<nat, Claim>, grants: map<nat, Grant>, closed: set<nat>, done: set<nat>)
    requires DeparturesOk(departures, lives, now, lease, claims, grants, closed, done)
    requires DepartureOk(token, d, lives, now, lease, claims, grants, closed, done)
    ensures DeparturesOk(departures[token := d], lives, now, lease, claims, grants, closed, done)
  {
    hide DepartureOk;
  }

  /** A departure at another phase, not owned before nor after, or owned before and after. */
  lemma {:induction false} PhaseKeeps(s: State, token: nat, phase: Phase)
    requires Inv(s) && token in s.departures && (IsOwned(phase) <==> IsOwned(s.departures[token].phase))
    requires phase.Ready? ==> s.departures[token].key.journey !in s.done
    requires phase.Settling? || phase.Ready?
    ensures Inv(s.(departures := s.departures[token := s.departures[token].(phase := phase)]))
  {
    hide TakesOk, RequestsOk, RepliesOk, GrantsOk, DeparturesOk, EntriesOk, OrderOk, ClaimsOk, FencesOk, SendsOk;
    var d := s.departures[token].(phase := phase);
    PhaseOk(s, token, phase);
    DepartureKeeps(s.departures, token, d, s.lives, s.now, s.lease, s.claims, s.grants, s.closed, s.done);
    PhaseAsked(s, token, d);
    PhaseOwned(s, token, d);
  }

  lemma {:induction false} PhaseOk(s: State, token: nat, phase: Phase)
    requires DeparturesOk(s.departures, s.lives, s.now, s.lease, s.claims, s.grants, s.closed, s.done)
    requires token in s.departures && (IsOwned(phase) <==> IsOwned(s.departures[token].phase))
    requires phase.Ready? ==> s.departures[token].key.journey !in s.done
    requires phase.Settling? || phase.Ready?
    ensures DepartureOk(token, s.departures[token].(phase := phase), s.lives, s.now, s.lease, s.claims, s.grants, s.closed, s.done)
  {
    assert DepartureOk(token, s.departures[token], s.lives, s.now, s.lease, s.claims, s.grants, s.closed, s.done);
  }

  lemma {:induction false} PhaseAsked(s: State, token: nat, d: Departure)
    requires RequestsOk(s.requests, s.lives, s.now, s.grants, s.departures, s.closed)
    requires RepliesOk(s.replies, s.lives, s.now, s.lease, s.claims, s.grants, s.departures, s.closed)
    requires token in s.departures && (IsOwned(s.departures[token].phase) ==> IsOwned(d.phase))
    ensures RequestsOk(s.requests, s.lives, s.now, s.grants, s.departures[token := d], s.closed)
    ensures RepliesOk(s.replies, s.lives, s.now, s.lease, s.claims, s.grants, s.departures[token := d], s.closed)
  {
    hide Backed, AskerOk;
  }

  lemma {:induction false} PhaseOwned(s: State, token: nat, d: Departure)
    requires EntriesOk(s.owned, s.departures, s.lives, s.now, s.claims, s.closed)
    requires OrderOk(s.owned, s.departures, s.lives, s.now, s.replies)
    requires token in s.departures && (IsOwned(s.departures[token].phase) <==> IsOwned(d.phase))
    requires d.key == s.departures[token].key && d.fence == s.departures[token].fence
    ensures EntriesOk(s.owned, s.departures[token := d], s.lives, s.now, s.claims, s.closed)
    ensures OrderOk(s.owned, s.departures[token := d], s.lives, s.now, s.replies)
  {
    hide Past, Covers;
  }

  /** A departure gone, with what its Journey is owned under there, where it was owned. */
  lemma {:induction false} GoneKeeps(s: State, token: nat, owned: map<Key, Entry>)
    requires Inv(s) && token in s.departures
    requires owned == if IsOwned(s.departures[token].phase) then s.owned - {s.departures[token].key} else s.owned
    ensures Inv(s.(departures := s.departures - {token}, owned := owned))
  {
    hide TakesOk, RequestsOk, RepliesOk, GrantsOk, DeparturesOk, EntriesOk, OrderOk, ClaimsOk, FencesOk, SendsOk;
    GoneAsked(s, token);
    GoneOwned(s, token, owned);
  }

  lemma {:induction false} GoneAsked(s: State, token: nat)
    requires RequestsOk(s.requests, s.lives, s.now, s.grants, s.departures, s.closed)
    requires RepliesOk(s.replies, s.lives, s.now, s.lease, s.claims, s.grants, s.departures, s.closed)
    requires DeparturesOk(s.departures, s.lives, s.now, s.lease, s.claims, s.grants, s.closed, s.done)
    ensures RequestsOk(s.requests, s.lives, s.now, s.grants, s.departures - {token}, s.closed)
    ensures RepliesOk(s.replies, s.lives, s.now, s.lease, s.claims, s.grants, s.departures - {token}, s.closed)
    ensures DeparturesOk(s.departures - {token}, s.lives, s.now, s.lease, s.claims, s.grants, s.closed, s.done)
  {
    hide Backed, AskerOk, DepartureOk;
  }

  lemma {:induction false} GoneOwned(s: State, token: nat, owned: map<Key, Entry>)
    requires EntriesOk(s.owned, s.departures, s.lives, s.now, s.claims, s.closed)
    requires OrderOk(s.owned, s.departures, s.lives, s.now, s.replies)
    requires token in s.departures
    requires owned == if IsOwned(s.departures[token].phase) then s.owned - {s.departures[token].key} else s.owned
    ensures EntriesOk(owned, s.departures - {token}, s.lives, s.now, s.claims, s.closed)
    ensures OrderOk(owned, s.departures - {token}, s.lives, s.now, s.replies)
  {
    hide Past, Covers;
    assert forall key :: key in owned ==> EntryOk(key, owned[key], s.departures, s.lives, s.now, s.claims, s.closed);
  }

  /** A claim closed, and what is asked for it: no departure sends under it any more. */
  lemma {:induction false} ClosingKeeps(s: State, token: nat, r: Request)
    requires Inv(s) && token in s.grants && !s.grants[token].onTheWay
    requires token in s.departures ==> s.departures[token].phase.Settling?
    requires AskerOk(r.from, s.lives, s.now) && r.token == token && !r.kind.Renew?
    ensures Inv(s.(closed := s.closed + {token}, requests := s.requests + {r}))
  {
    hide TakesOk, RequestsOk, RepliesOk, GrantsOk, DeparturesOk, EntriesOk, OrderOk, ClaimsOk, FencesOk, SendsOk;
    ClosedAsked(s, token, r);
    ClosedDepartures(s, token);
  }

  lemma {:induction false} ClosedAsked(s: State, token: nat, r: Request)
    requires RequestsOk(s.requests, s.lives, s.now, s.grants, s.departures, s.closed)
    requires RepliesOk(s.replies, s.lives, s.now, s.lease, s.claims, s.grants, s.departures, s.closed)
    requires AskerOk(r.from, s.lives, s.now) && r.token == token && !r.kind.Renew?
    ensures RequestsOk(s.requests + {r}, s.lives, s.now, s.grants, s.departures, s.closed + {token})
    ensures RepliesOk(s.replies, s.lives, s.now, s.lease, s.claims, s.grants, s.departures, s.closed + {token})
  {
    hide AskerOk, Renewable;
  }

  lemma {:induction false} ClosedDepartures(s: State, token: nat)
    requires GrantsOk(s.grants, s.lives, s.now, s.lease, s.minted, s.claims, s.closed)
    requires DeparturesOk(s.departures, s.lives, s.now, s.lease, s.claims, s.grants, s.closed, s.done)
    requires EntriesOk(s.owned, s.departures, s.lives, s.now, s.claims, s.closed)
    requires token in s.grants && !s.grants[token].onTheWay
    requires token in s.departures ==> s.departures[token].phase.Settling?
    ensures GrantsOk(s.grants, s.lives, s.now, s.lease, s.minted, s.claims, s.closed + {token})
    ensures DeparturesOk(s.departures, s.lives, s.now, s.lease, s.claims, s.grants, s.closed + {token}, s.done)
    ensures EntriesOk(s.owned, s.departures, s.lives, s.now, s.claims, s.closed + {token})
  {
    hide AskerOk, Covers;
  }

  /** A departure's claim is granted and landed, and its node asks in its present life. */
  lemma {:induction false} OfItsGrant(s: State, token: nat)
    requires DeparturesOk(s.departures, s.lives, s.now, s.lease, s.claims, s.grants, s.closed, s.done) && token in s.departures
    ensures token in s.grants && !s.grants[token].onTheWay && s.departures[token].key.node in s.lives
    ensures AskerOk(AskedBy(s, s.departures[token].key), s.lives, s.now)
  {
    assert DepartureOk(token, s.departures[token], s.lives, s.now, s.lease, s.claims, s.grants, s.closed, s.done);
  }

  lemma {:induction false} GivenBackKeeps(s: State, token: nat)
    requires Inv(s) && At(s, token, Reading)
    ensures Inv(GivenBack(s, token))
  {
    hide TakesOk, RequestsOk, RepliesOk, GrantsOk, DeparturesOk, EntriesOk, OrderOk, ClaimsOk, FencesOk, SendsOk;
    OfItsGrant(s, token);
    GoneKeeps(s, token, s.owned);
    var t := s.(departures := s.departures - {token});
    ClosingKeeps(t, token, Request(AskedBy(s, s.departures[token].key), token, Release));
  }

  lemma {:induction false} SettledKeeps(s: State, token: nat, kind: Kind)
    requires Inv(s) && At(s, token, Trying) && !kind.Renew?
    ensures Inv(Settled(s, token, kind))
  {
    hide TakesOk, RequestsOk, RepliesOk, GrantsOk, DeparturesOk, EntriesOk, OrderOk, ClaimsOk, FencesOk, SendsOk;
    OfItsGrant(s, token);
    PhaseKeeps(s, token, Settling);
    var t := s.(departures := s.departures[token := s.departures[token].(phase := Settling)]);
    ClosingKeeps(t, token, Request(AskedBy(s, s.departures[token].key), token, kind));
  }

  // ---- A Journey owned ----

  lemma {:induction false} OwningKeeps(s: State, token: nat)
    requires Inv(s) && At(s, token, Ready) && token in s.grants
    ensures Inv(Owning(s, token))
  {
    hide TakesOk, RequestsOk, RepliesOk, GrantsOk, DeparturesOk, EntriesOk, OrderOk, ClaimsOk, FencesOk, SendsOk;
    var d := s.departures[token].(phase := Trying);
    var e := Entry(token, s.grants[token].from.asked + s.lease, false);
    OwningOk(s, token, d);
    DepartureKeeps(s.departures, token, d, s.lives, s.now, s.lease, s.claims, s.grants, s.closed, s.done);
    PhaseAsked(s, token, d);
    OwnedEntry(s, token, e);
    OwnedEntries(s, token, d, e);
    OwnedOrder(s, token, d, e);
  }

  lemma {:induction false} OwningOk(s: State, token: nat, d: Departure)
    requires DeparturesOk(s.departures, s.lives, s.now, s.lease, s.claims, s.grants, s.closed, s.done)
    requires token in s.departures && s.departures[token].phase.Ready? && d == s.departures[token].(phase := Trying)
    ensures DepartureOk(token, d, s.lives, s.now, s.lease, s.claims, s.grants, s.closed, s.done)
  {
    assert DepartureOk(token, s.departures[token], s.lives, s.now, s.lease, s.claims, s.grants, s.closed, s.done);
  }

  /** The claim owned covers its entry; or a later one was granted, and its time is over with nothing to put it off. */
  lemma {:induction false} OwnedEntry(s: State, token: nat, e: Entry)
    requires DeparturesOk(s.departures, s.lives, s.now, s.lease, s.claims, s.grants, s.closed, s.done)
    requires RepliesOk(s.replies, s.lives, s.now, s.lease, s.claims, s.grants, s.departures, s.closed)
    requires ClaimsOk(s.claims, s.now, s.lease, s.grants, s.fences, s.written)
    requires token in s.departures && s.departures[token].phase.Ready? && token in s.grants
    requires e == Entry(token, s.grants[token].from.asked + s.lease, false)
    ensures var key := s.departures[token].key;
      && key.node in s.lives && token !in s.closed
      && Covers(s.claims, s.now, key.journey, token, e.until - s.lives[key.node].ahead)
      && (s.departures[token].fence < Of(s.fences, key.journey) ==> Past(key, e, s.lives, s.now, s.replies))
  {
    assert DepartureOk(token, s.departures[token], s.lives, s.now, s.lease, s.claims, s.grants, s.closed, s.done);
  }

  lemma {:induction false} OwnedEntries(s: State, token: nat, d: Departure, e: Entry)
    requires EntriesOk(s.owned, s.departures, s.lives, s.now, s.claims, s.closed)
    requires token in s.departures && s.departures[token].phase.Ready? && d == s.departures[token].(phase := Trying)
    requires e.token == token && d.key.node in s.lives
    requires Covers(s.claims, s.now, d.key.journey, token, e.until - s.lives[d.key.node].ahead)
    ensures EntriesOk(s.owned[d.key := e], s.departures[token := d], s.lives, s.now, s.claims, s.closed)
  {
    hide Covers;
    assert forall key :: key in s.owned ==> EntryOk(key, s.owned[key], s.departures, s.lives, s.now, s.claims, s.closed);
  }

  lemma {:induction false} OwnedOrder(s: State, token: nat, d: Departure, e: Entry)
    requires EntriesOk(s.owned, s.departures, s.lives, s.now, s.claims, s.closed)
    requires OrderOk(s.owned, s.departures, s.lives, s.now, s.replies)
    requires DeparturesOk(s.departures, s.lives, s.now, s.lease, s.claims, s.grants, s.closed, s.done)
    requires FencesOk(s.grants, s.fences, s.written) && SendsOk(s.sends, s.grants)
    requires token in s.departures && s.departures[token].phase.Ready? && d == s.departures[token].(phase := Trying)
    requires e.token == token
    requires d.fence < Of(s.fences, d.key.journey) ==> Past(d.key, e, s.lives, s.now, s.replies)
    ensures OrderOk(s.owned[d.key := e], s.departures[token := d], s.lives, s.now, s.replies)
  {
    hide Past, EntryOk, Backed;
    var departures := s.departures[token := d];
    forall t | Beside(departures, d.key, token, t)
      ensures departures[t].fence < d.fence || (departures[t].fence > d.fence && Past(d.key, e, s.lives, s.now, s.replies))
    {
      assert DepartureOk(t, s.departures[t], s.lives, s.now, s.lease, s.claims, s.grants, s.closed, s.done);
      assert DepartureOk(token, s.departures[token], s.lives, s.now, s.lease, s.claims, s.grants, s.closed, s.done);
    }
    OthersOrdered(s, token, d, departures, e);
  }

  lemma {:induction false} OthersOrdered(s: State, token: nat, d: Departure, departures: map<nat, Departure>, e: Entry)
    requires EntriesOk(s.owned, s.departures, s.lives, s.now, s.claims, s.closed)
    requires OrderOk(s.owned, s.departures, s.lives, s.now, s.replies)
    requires token in s.departures && s.departures[token].phase.Ready? && d == s.departures[token].(phase := Trying)
    requires e.token == token && departures == s.departures[token := d]
    requires forall t :: Beside(departures, d.key, token, t) ==>
        || departures[t].fence < d.fence
        || (departures[t].fence > d.fence && Past(d.key, e, s.lives, s.now, s.replies))
    ensures OrderOk(s.owned[d.key := e], departures, s.lives, s.now, s.replies)
  {
    hide Past, Covers;
    assert forall key :: key in s.owned ==> EntryOk(key, s.owned[key], s.departures, s.lives, s.now, s.claims, s.closed);
  }

  // ---- Requests and answers ----

  lemma {:induction false} AskRenewKeeps(s: State, key: Key)
    requires Inv(s) && Next(s, AskRenew(key)).Some?
    ensures Inv(Next(s, AskRenew(key)).value)
  {
    hide TakesOk, RequestsOk, RepliesOk, GrantsOk, DeparturesOk, EntriesOk, OrderOk, ClaimsOk, FencesOk, SendsOk;
    OwnedIsRenewable(s, key);
    RequestKeeps(s, Request(AskedBy(s, key), s.owned[key].token, Renew));
  }

  lemma {:induction false} OwnedIsRenewable(s: State, key: Key)
    requires EntriesOk(s.owned, s.departures, s.lives, s.now, s.claims, s.closed) && key in s.owned
    requires DeparturesOk(s.departures, s.lives, s.now, s.lease, s.claims, s.grants, s.closed, s.done)
    ensures Renewable(s.owned[key].token, s.grants, s.departures)
    ensures key.node in s.lives && AskerOk(AskedBy(s, key), s.lives, s.now)
  {
    assert EntryOk(key, s.owned[key], s.departures, s.lives, s.now, s.claims, s.closed);
    var token := s.owned[key].token;
    assert DepartureOk(token, s.departures[token], s.lives, s.now, s.lease, s.claims, s.grants, s.closed, s.done);
  }

  lemma {:induction false} RequestKeeps(s: State, r: Request)
    requires RequestsOk(s.requests, s.lives, s.now, s.grants, s.departures, s.closed)
    requires r.kind.Renew? && Renewable(r.token, s.grants, s.departures) && AskerOk(r.from, s.lives, s.now)
    ensures RequestsOk(s.requests + {r}, s.lives, s.now, s.grants, s.departures, s.closed)
  {
  }

  lemma {:induction false} FewerKeeps(s: State, requests: set<Request>, replies: set<Reply>)
    requires Inv(s) && requests <= s.requests && replies <= s.replies
    ensures Inv(s.(requests := requests, replies := replies))
  {
    hide TakesOk, GrantsOk, DeparturesOk, EntriesOk, ClaimsOk, FencesOk, SendsOk, Renewable, AskerOk, Backed;
  }

  lemma {:induction false} ServedKeeps(s: State, r: Request)
    requires Inv(s) && r in s.requests
    ensures Inv(Served(s, r))
  {
    hide TakesOk, RequestsOk, RepliesOk, GrantsOk, DeparturesOk, EntriesOk, OrderOk, ClaimsOk, FencesOk, SendsOk;
    FewerKeeps(s, s.requests - {r}, s.replies);
    Known(s, r);
    ServedOneKeeps(s.(requests := s.requests - {r}), r, s);
  }

  lemma {:induction false} Known(s: State, r: Request)
    requires RequestsOk(s.requests, s.lives, s.now, s.grants, s.departures, s.closed) && r in s.requests
    ensures AskerOk(r.from, s.lives, s.now)
    ensures if r.kind.Renew? then Renewable(r.token, s.grants, s.departures) else r.token in s.closed
  {
  }

  lemma {:induction false} ServedOneKeeps(t: State, r: Request, s: State)
    requires Inv(t) && t == s.(requests := s.requests - {r})
    requires AskerOk(r.from, t.lives, t.now)
    requires if r.kind.Renew? then Renewable(r.token, t.grants, t.departures) else r.token in t.closed
    ensures Inv(Served(s, r))
  {
    hide TakesOk, RequestsOk, RepliesOk, GrantsOk, DeparturesOk, EntriesOk, OrderOk, ClaimsOk, FencesOk, SendsOk;
    var journey := r.from.journey;
    match r.kind
    case Renew =>
      RenewKeeps(t, r.from, r.token);
    case Release =>
      if Mine(t.claims, journey, r.token) { LetGoKeeps(t, journey, t.done, t.written); }
    case HandOn(final) =>
      if Mine(t.claims, journey, r.token) && t.claims[journey].expiry > t.now {
        LetGoKeeps(t, journey, if final then t.done + {journey} else t.done, t.written[journey := t.claims[journey].fence]);
      }
  }

  /** A claim held for longer covers what it covered, and what its renewal answers. */
  lemma {:induction false} RenewKeeps(s: State, from: Asker, token: nat)
    requires Inv(s) && AskerOk(from, s.lives, s.now) && Renewable(token, s.grants, s.departures)
    ensures var mine := Mine(s.claims, from.journey, token);
      Inv(s.(claims := if mine then s.claims[from.journey := s.claims[from.journey].(expiry := s.now + s.lease)] else s.claims,
             replies := s.replies + {Reply(from, token, mine)}))
  {
    hide TakesOk, RequestsOk, RepliesOk, GrantsOk, DeparturesOk, EntriesOk, OrderOk, ClaimsOk, FencesOk, SendsOk;
    if Mine(s.claims, from.journey, token) {
      LongerKeeps(s, from.journey);
      var t := s.(claims := s.claims[from.journey := s.claims[from.journey].(expiry := s.now + s.lease)]);
      LastClaimOrdered(t, from.journey, token);
      ReplyKeeps(t, Reply(from, token, true));
    } else {
      ReplyKeeps(s, Reply(from, token, false));
    }
  }

  lemma {:induction false} LongerKeeps(s: State, journey: nat)
    requires Inv(s) && journey in s.claims
    ensures Inv(s.(claims := s.claims[journey := s.claims[journey].(expiry := s.now + s.lease)]))
  {
    hide TakesOk, RequestsOk, RepliesOk, GrantsOk, DeparturesOk, EntriesOk, OrderOk, ClaimsOk, FencesOk, SendsOk;
    LongerClaims(s, journey);
    LongerReplies(s, journey);
    LongerDepartures(s, journey);
  }

  lemma {:induction false} LongerClaims(s: State, journey: nat)
    requires ClaimsOk(s.claims, s.now, s.lease, s.grants, s.fences, s.written) && journey in s.claims
    ensures ClaimsOk(s.claims[journey := s.claims[journey].(expiry := s.now + s.lease)], s.now, s.lease, s.grants, s.fences, s.written)
    ensures s.claims[journey].expiry <= s.now + s.lease
  {
  }

  lemma {:induction false} LongerReplies(s: State, journey: nat)
    requires RepliesOk(s.replies, s.lives, s.now, s.lease, s.claims, s.grants, s.departures, s.closed)
    requires GrantsOk(s.grants, s.lives, s.now, s.lease, s.minted, s.claims, s.closed)
    requires journey in s.claims && s.claims[journey].expiry <= s.now + s.lease
    ensures var claims := s.claims[journey := s.claims[journey].(expiry := s.now + s.lease)];
      && RepliesOk(s.replies, s.lives, s.now, s.lease, claims, s.grants, s.departures, s.closed)
      && GrantsOk(s.grants, s.lives, s.now, s.lease, s.minted, claims, s.closed)
  {
    hide AskerOk, Renewable;
  }

  lemma {:induction false} LongerDepartures(s: State, journey: nat)
    requires DeparturesOk(s.departures, s.lives, s.now, s.lease, s.claims, s.grants, s.closed, s.done)
    requires EntriesOk(s.owned, s.departures, s.lives, s.now, s.claims, s.closed)
    requires journey in s.claims && s.claims[journey].expiry <= s.now + s.lease
    ensures var claims := s.claims[journey := s.claims[journey].(expiry := s.now + s.lease)];
      && DeparturesOk(s.departures, s.lives, s.now, s.lease, claims, s.grants, s.closed, s.done)
      && EntriesOk(s.owned, s.departures, s.lives, s.now, claims, s.closed)
  {
  }

  /** Where a Journey is owned under this claim, every other departure of it there is under an earlier one. */
  ghost predicate Foremost(owned: map<Key, Entry>, departures: map<nat, Departure>, token: nat) {
    forall key, t :: key in owned && owned[key].token == token && Beside(departures, key, token, t) ==>
      token in departures && departures[t].fence < departures[token].fence
  }

  /** Where a Journey is owned under the claim Storage holds, every other departure of it there is under an earlier one. */
  lemma {:induction false} LastClaimOrdered(s: State, journey: nat, token: nat)
    requires Mine(s.claims, journey, token)
    requires ClaimsOk(s.claims, s.now, s.lease, s.grants, s.fences, s.written) && FencesOk(s.grants, s.fences, s.written)
    requires DeparturesOk(s.departures, s.lives, s.now, s.lease, s.claims, s.grants, s.closed, s.done)
    requires EntriesOk(s.owned, s.departures, s.lives, s.now, s.claims, s.closed)
    requires OrderOk(s.owned, s.departures, s.lives, s.now, s.replies)
    ensures Foremost(s.owned, s.departures, token)
  {
    hide Backed, Past, Covers;
    forall key, t | key in s.owned && s.owned[key].token == token && Beside(s.departures, key, token, t)
      ensures token in s.departures && s.departures[t].fence < s.departures[token].fence
    {
      assert EntryOk(key, s.owned[key], s.departures, s.lives, s.now, s.claims, s.closed);
      assert DepartureOk(t, s.departures[t], s.lives, s.now, s.lease, s.claims, s.grants, s.closed, s.done);
      assert DepartureOk(token, s.departures[token], s.lives, s.now, s.lease, s.claims, s.grants, s.closed, s.done);
    }
  }

  lemma {:induction false} ReplyKeeps(s: State, p: Reply)
    requires Inv(s) && AskerOk(p.from, s.lives, s.now) && Renewable(p.token, s.grants, s.departures)
    requires p.held ==> Mine(s.claims, p.from.journey, p.token) && s.claims[p.from.journey].expiry == s.now + s.lease
    requires p.held ==> Foremost(s.owned, s.departures, p.token)
    ensures Inv(s.(replies := s.replies + {p}))
  {
    hide TakesOk, RequestsOk, RepliesOk, GrantsOk, DeparturesOk, EntriesOk, OrderOk, ClaimsOk, FencesOk, SendsOk;
    AnsweredReplies(s, p);
    AnsweredOrder(s, p);
  }

  lemma {:induction false} AnsweredReplies(s: State, p: Reply)
    requires RepliesOk(s.replies, s.lives, s.now, s.lease, s.claims, s.grants, s.departures, s.closed)
    requires AskerOk(p.from, s.lives, s.now) && Renewable(p.token, s.grants, s.departures)
    requires p.held ==> Mine(s.claims, p.from.journey, p.token) && s.claims[p.from.journey].expiry == s.now + s.lease
    ensures RepliesOk(s.replies + {p}, s.lives, s.now, s.lease, s.claims, s.grants, s.departures, s.closed)
  {
  }

  lemma {:induction false} AnsweredOrder(s: State, p: Reply)
    requires OrderOk(s.owned, s.departures, s.lives, s.now, s.replies)
    requires p.held ==> Foremost(s.owned, s.departures, p.token)
    ensures OrderOk(s.owned, s.departures, s.lives, s.now, s.replies + {p})
  {
  }

  /** A claim its departure closed covers nothing any node still relies on. */
  lemma {:induction false} LetGoKeeps(s: State, journey: nat, done: set<nat>, written: map<nat, nat>)
    requires Inv(s) && journey in s.claims && s.claims[journey].token in s.closed
    requires s.done <= done <= s.done + {journey}
    requires written == s.written || written == s.written[journey := s.claims[journey].fence]
    ensures Inv(s.(claims := s.claims - {journey}, done := done, written := written))
  {
    hide TakesOk, RequestsOk, RepliesOk, GrantsOk, DeparturesOk, EntriesOk, OrderOk, ClaimsOk, FencesOk, SendsOk;
    LetGoReplies(s, journey);
    LetGoDepartures(s, journey, done);
    LetGoEntries(s, journey);
    LetGoClaims(s, journey, written);
  }

  lemma {:induction false} LetGoReplies(s: State, journey: nat)
    requires RepliesOk(s.replies, s.lives, s.now, s.lease, s.claims, s.grants, s.departures, s.closed)
    requires GrantsOk(s.grants, s.lives, s.now, s.lease, s.minted, s.claims, s.closed)
    requires journey in s.claims && s.claims[journey].token in s.closed
    ensures RepliesOk(s.replies, s.lives, s.now, s.lease, s.claims - {journey}, s.grants, s.departures, s.closed)
    ensures GrantsOk(s.grants, s.lives, s.now, s.lease, s.minted, s.claims - {journey}, s.closed)
  {
    hide AskerOk, Renewable;
  }

  lemma {:induction false} LetGoDepartures(s: State, journey: nat, done: set<nat>)
    requires DeparturesOk(s.departures, s.lives, s.now, s.lease, s.claims, s.grants, s.closed, s.done)
    requires journey in s.claims && s.claims[journey].token in s.closed
    requires s.done <= done <= s.done + {journey}
    ensures DeparturesOk(s.departures, s.lives, s.now, s.lease, s.claims - {journey}, s.grants, s.closed, done)
  {
  }

  lemma {:induction false} LetGoEntries(s: State, journey: nat)
    requires EntriesOk(s.owned, s.departures, s.lives, s.now, s.claims, s.closed)
    requires journey in s.claims && s.claims[journey].token in s.closed
    ensures EntriesOk(s.owned, s.departures, s.lives, s.now, s.claims - {journey}, s.closed)
  {
  }

  lemma {:induction false} LetGoClaims(s: State, journey: nat, written: map<nat, nat>)
    requires ClaimsOk(s.claims, s.now, s.lease, s.grants, s.fences, s.written) && FencesOk(s.grants, s.fences, s.written)
    requires journey in s.claims
    requires written == s.written || written == s.written[journey := s.claims[journey].fence]
    ensures ClaimsOk(s.claims - {journey}, s.now, s.lease, s.grants, s.fences, written)
    ensures FencesOk(s.grants, s.fences, written)
  {
  }

  lemma {:induction false} DeliveredKeeps(s: State, p: Reply)
    requires Inv(s) && p in s.replies
    ensures Inv(Delivered(s, p))
  {
    hide TakesOk, RequestsOk, RepliesOk, GrantsOk, DeparturesOk, EntriesOk, OrderOk, ClaimsOk, FencesOk, SendsOk;
    hide EntryOk;
    var t := s.(replies := s.replies - {p});
    FewerKeeps(s, s.requests, t.replies);
    var key := Key(p.from.node, p.from.journey);
    if Current(s.lives, p.from) && key in s.owned && s.owned[key].token == p.token {
      RenewedOk(s, p);
      RenewedOrder(s, p);
    }
  }

  lemma {:induction false} RenewedOk(s: State, p: Reply)
    requires EntriesOk(s.owned, s.departures, s.lives, s.now, s.claims, s.closed)
    requires RepliesOk(s.replies, s.lives, s.now, s.lease, s.claims, s.grants, s.departures, s.closed) && p in s.replies
    requires var key := Key(p.from.node, p.from.journey);
      Current(s.lives, p.from) && key in s.owned && s.owned[key].token == p.token
    ensures var key := Key(p.from.node, p.from.journey);
      EntriesOk(s.owned[key := Renewed(s.owned[key], p.held, p.from.asked, s.lease)], s.departures, s.lives, s.now, s.claims, s.closed)
  {
    var key := Key(p.from.node, p.from.journey);
    assert EntryOk(key, s.owned[key], s.departures, s.lives, s.now, s.claims, s.closed);
  }

  lemma {:induction false} RenewedOrder(s: State, p: Reply)
    requires OrderOk(s.owned, s.departures, s.lives, s.now, s.replies) && p in s.replies
    requires var key := Key(p.from.node, p.from.journey); key in s.owned && s.owned[key].token == p.token
    ensures var key := Key(p.from.node, p.from.journey);
      OrderOk(s.owned[key := Renewed(s.owned[key], p.held, p.from.asked, s.lease)], s.departures, s.lives, s.now, s.replies - {p})
  {
  }

  lemma {:induction false} SendKeeps(s: State, token: nat)
    requires Inv(s) && MaySend(s, token)
    ensures Inv(Next(s, Send(token)).value)
  {
    hide TakesOk, RequestsOk, RepliesOk, GrantsOk, DeparturesOk, EntriesOk, OrderOk, ClaimsOk, FencesOk, SendsOk;
    var d := s.departures[token];
    assert DepartureOk(token, d, s.lives, s.now, s.lease, s.claims, s.grants, s.closed, s.done) by {
      IsOk(s, token);
    }
    SentKeeps(s.sends, s.grants, Sent(d.key.journey, token, d.fence));
  }

  lemma {:induction false} IsOk(s: State, token: nat)
    requires DeparturesOk(s.departures, s.lives, s.now, s.lease, s.claims, s.grants, s.closed, s.done) && token in s.departures
    ensures DepartureOk(token, s.departures[token], s.lives, s.now, s.lease, s.claims, s.grants, s.closed, s.done)
  {
  }

  lemma {:induction false} SentKeeps(sends: seq<Sent>, grants: map<nat, Grant>, sent: Sent)
    requires SendsOk(sends, grants)
    requires sent.token in grants && grants[sent.token].from.journey == sent.journey && grants[sent.token].fence == sent.fence
    ensures SendsOk(sends + [sent], grants)
  {
  }

  lemma {:induction false} ReadKeeps(s: State, token: nat)
    requires Inv(s) && Next(s, Read(token)).Some?
    ensures Inv(Next(s, Read(token)).value)
  {
    hide TakesOk, RequestsOk, RepliesOk, GrantsOk, DeparturesOk, EntriesOk, OrderOk, ClaimsOk, FencesOk, SendsOk;
    if s.departures[token].key.journey in s.done {
      GivenBackKeeps(s, token);
    } else {
      PhaseKeeps(s, token, Ready);
    }
  }

  lemma {:induction false} NextKeepsInv(s: State, step: Step, t: State)
    requires Inv(s) && Next(s, step) == Some(t)
    ensures Inv(t)
  {
    hide TakesOk, RequestsOk, RepliesOk, GrantsOk, DeparturesOk, EntriesOk, OrderOk, ClaimsOk, FencesOk, SendsOk;
    hide Granting, TakenUp, Owning, Delivered, GivenBack, Settled, Served;
    match step
    case Tick(time) => TickKeeps(s, time);
    case Start(node, ahead) => StartKeeps(s, node, ahead);
    case AskClaim(node, journey) => AskClaimKeeps(s, node, journey);
    case Claiming(token) => GrantingKeeps(s, token);
    case LoseTake(token) => FewerTakes(s, token);
    case TakeUp(token) => TakenUpKeeps(s, token);
    case LoseGrant(token) => LandedKeeps(s, token);
    case Read(token) => ReadKeeps(s, token);
    case GiveBack(token) => GivenBackKeeps(s, token);
    case Drop(token) => GoneKeeps(s, token, s.owned);
    case Own(token) => OwningKeeps(s, token);
    case Send(token) => SendKeeps(s, token);
    case AskRenew(key) => AskRenewKeeps(s, key);
    case Settle(token, kind) => SettledKeeps(s, token, kind);
    case LetGo(token) => GoneKeeps(s, token, s.owned - {s.departures[token].key});
    case Serve(r) => ServedKeeps(s, r);
    case LoseRequest(r) => FewerKeeps(s, s.requests - {r}, s.replies);
    case Deliver(p) => DeliveredKeeps(s, p);
    case LoseReply(p) => FewerKeeps(s, s.requests, s.replies - {p});
  }

  lemma {:induction false} RunKeepsInv(now: int, lease: nat, steps: seq<Step>, s: State)
    requires Run(Initial(now, lease), steps) == Some(s)
    ensures Inv(s)
  {
    hide Inv, Next;
    if steps == [] {
      InitialInv(now, lease);
    } else {
      var before := Run(Initial(now, lease), steps[..|steps| - 1]).value;
      RunKeepsInv(now, lease, steps[..|steps| - 1], before);
      NextKeepsInv(before, steps[|steps| - 1], s);
    }
  }

  lemma {:induction false} InitialInv(now: int, lease: nat)
    ensures Inv(Initial(now, lease))
  {
    var s := Initial(now, lease);
    assert forall j :: Of(s.written, j) <= Of(s.fences, j);
  }
}
