// The synthetic account manager as a value: account slots, ramp tokens, and
// what each message and tick does to them.
module RampModel {
  import opened Common

  const READINESS_TIMEOUT: Time := 5_000_000_000
  const TICKS_PER_SECOND := 10

  datatype AccountState = Unavailable | Pending | Activating | Active | Failed

  datatype Slot = Slot(state: AccountState, userID: UserId, activatedAt: Time)

  datatype RampConfig = RampConfig(targetCount: nat, rampRate: nat)

  // ticks and started record what has happened: the ticks so far and the
  // accounts whose activation was started, in order.
  datatype Loop = Loop(
    slots: map<int, Slot>,
    tokens: real,
    shuttingDown: bool,
    totalActivated: nat,
    disconnects: nat,
    provisioned: bool,
    ticks: nat,
    started: seq<int>)

  // What a tick finds outside: whether the hub takes an account's client, which
  // clients are gone or ready, and the time.
  datatype Outside = Outside(registers: int -> bool, disconnected: int -> bool, ready: int -> bool, now: Time)

  function InitialSlots(target: nat): map<int, Slot> {
    if target == 0 then map[] else InitialSlots(target - 1)[target := Slot(Unavailable, 0, 0)]
  }

  function Initial(cfg: RampConfig): Loop {
    Loop(InitialSlots(cfg.targetCount), 0.0, false, 0, 0, false, 0, [])
  }

  function In(slots: map<int, Slot>, state: AccountState): set<int> {
    set a | a in slots && slots[a].state == state
  }

  // ------------------------------------------------------------------
  // Provisioning
  // ------------------------------------------------------------------

  // An account's user, or none if it could not be provisioned.
  function ProvisionedSlot(slot: Slot, user: Option<UserId>): Slot {
    match user
    case Some(id) => slot.(state := Pending, userID := id)
    case None => slot.(state := Failed)
  }

  // The slots with the listed results merged in.
  function Merged(slots: map<int, Slot>, result: map<int, Option<UserId>>): map<int, Slot> {
    map a | a in slots :: if a in result then ProvisionedSlot(slots[a], result[a]) else slots[a]
  }

  predicate IsUnavailable(slot: Slot) {
    slot.state == Unavailable || (slot.state == Pending && slot.userID == 0)
  }

  function GivenUp(slots: map<int, Slot>, done: int): map<int, Slot> {
    map a | a in slots :: if a <= done && IsUnavailable(slots[a]) then slots[a].(state := Failed) else slots[a]
  }

  // ------------------------------------------------------------------
  // Ticks
  // ------------------------------------------------------------------

  function TokensAdded(cfg: RampConfig, s: Loop): Loop {
    s.(ticks := s.ticks + 1,
       tokens := if cfg.rampRate > 0 then s.tokens + cfg.rampRate as real / TICKS_PER_SECOND as real else s.tokens)
  }

  function ProcessedSlot(slot: Slot, a: int, outside: Outside): Slot {
    match slot.state
    case Activating =>
      if outside.disconnected(a) then slot.(state := Failed)
      else if outside.ready(a) then slot.(state := Active)
      else if outside.now - slot.activatedAt >= READINESS_TIMEOUT then slot.(state := Failed)
      else slot
    case Active => if outside.disconnected(a) then slot.(state := Failed) else slot
    case _ => slot
  }

  // The accounts up to a number processed.
  function ProcessedSlots(slots: map<int, Slot>, done: int, outside: Outside): map<int, Slot> {
    map a | a in slots :: if a <= done then ProcessedSlot(slots[a], a, outside) else slots[a]
  }

  // Those that become ready, and those that drop out once active.

  ghost function GoingActive(slots: map<int, Slot>, done: int, outside: Outside): set<int> {
    set a | a in slots && a <= done && slots[a].state == Activating && !outside.disconnected(a) && outside.ready(a)
  }

  ghost function DroppingOut(slots: map<int, Slot>, done: int, outside: Outside): set<int> {
    set a | a in slots && a <= done && slots[a].state == Active && outside.disconnected(a)
  }

  ghost function Processed(s: Loop, done: int, outside: Outside): Loop {
    s.(slots := ProcessedSlots(s.slots, done, outside),
       totalActivated := s.totalActivated + |GoingActive(s.slots, done, outside)|,
       disconnects := s.disconnects + |DroppingOut(s.slots, done, outside)|)
  }

  // The lowest-numbered pending account.
  ghost predicate IsNext(slots: map<int, Slot>, a: int) {
    a in In(slots, Pending) && forall b | b in In(slots, Pending) :: a <= b
  }

  function StartedSlot(slot: Slot, a: int, outside: Outside): Slot {
    if outside.registers(a) then slot.(state := Activating, activatedAt := outside.now) else slot.(state := Failed)
  }

  function StartedOne(cfg: RampConfig, s: Loop, a: int, outside: Outside): Loop
    requires a in s.slots
  {
    s.(slots := s.slots[a := StartedSlot(s.slots[a], a, outside)],
       tokens := if cfg.rampRate > 0 then s.tokens - 1.0 else s.tokens,
       started := s.started + [a])
  }

  // Accounts started one after the other, the lowest pending first, as long as
  // there are accounts and tokens.
  ghost predicate Activates(cfg: RampConfig, s: Loop, outside: Outside, t: Loop, n: nat)
    decreases n
  {
    if n == 0 then t == s
    else exists a | a in s.slots ::
      IsNext(s.slots, a) && (cfg.rampRate > 0 ==> s.tokens >= 1.0)
      && Activates(cfg, StartedOne(cfg, s, a, outside), outside, t, n - 1)
  }

  ghost predicate Exhausted(cfg: RampConfig, s: Loop) {
    In(s.slots, Pending) == {} || (cfg.rampRate > 0 && s.tokens < 1.0)
  }

  ghost predicate Ticked(cfg: RampConfig, s: Loop, outside: Outside, t: Loop) {
    if s.shuttingDown then t == s
    else
      Exhausted(cfg, t)
      && exists n: nat :: Activates(cfg, Processed(TokensAdded(cfg, s), cfg.targetCount, outside), outside, t, n)
  }

  // ------------------------------------------------------------------
  // Runs
  // ------------------------------------------------------------------

  datatype Event =
    | Provision(result: map<int, Option<UserId>>)
    | ProvisionFailed
    | Tick(outside: Outside)
    | Shutdown

  // One provisioning answer comes, before any account can start.
  ghost predicate Step(cfg: RampConfig, s: Loop, e: Event, t: Loop) {
    match e
    case Provision(result) =>
      && !s.provisioned && result.Keys <= s.slots.Keys
      && t == s.(slots := Merged(s.slots, result), provisioned := true)
    case ProvisionFailed =>
      && !s.provisioned
      && t == s.(slots := GivenUp(s.slots, cfg.targetCount), provisioned := true)
    case Tick(outside) => Ticked(cfg, s, outside, t)
    case Shutdown => t == s.(shuttingDown := true)
  }

  ghost predicate IsRun(cfg: RampConfig, states: seq<Loop>, events: seq<Event>) {
    && |states| == |events| + 1
    && states[0] == Initial(cfg)
    && forall i | 0 <= i < |events| :: Step(cfg, states[i], events[i], states[i + 1])
  }
}
