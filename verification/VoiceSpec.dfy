/** The pending-voice registry of messaging/voice.py between its suspension points.

    Every locked section is one event. A cancel call spans several: it protects the claim it runs for,
    selects and removes its targets under the lock, then drains their handoff tasks, and ends. Claims
    are numbered in reservation order, so the number is the unique `claim_id`. `clock` orders the
    protections and selections; `departures` records how each claim left the registry. */
module VoiceSpec {
  import opened Options

  type Scope = nat
  type MessageId = nat
  type ClaimNo = nat
  type CallId = nat

  datatype Claim = Claim(scope: Scope, voiceId: MessageId, claimNo: ClaimNo)

  datatype Key = Key(scope: Scope, id: MessageId)

  datatype Task = NoTask | Running | Done

  datatype Entry = Entry(claim: Claim, status: Option<MessageId>, task: Task)

  datatype Departure = Completed | Cancelled | Discarded

  /** One `cancel`, `cancel_all` or `cancel_scope` in progress, on behalf of the handoff it runs in. */
  datatype Call = Call(source: Option<ClaimNo>, start: nat, selected: Option<nat>, targets: set<ClaimNo>)

  datatype State = State(
    pending: map<Key, ClaimNo>, entries: map<ClaimNo, Entry>, nextClaim: ClaimNo,
    protection: map<ClaimNo, nat>, calls: map<CallId, Call>, clock: nat,
    departures: map<ClaimNo, Departure>)

  datatype Event =
    | Reserve(scope: Scope, voiceId: MessageId)
    | BindStatus(claim: Claim, status: MessageId)
    | StartHandoff(claim: Claim)
    | TaskEnds(no: ClaimNo)
    | FinishOwnership(no: ClaimNo)
    | Discard(claim: Claim)
    | CancelBegins(call: CallId, source: Option<ClaimNo>)
    | CancelSelects(call: CallId, key: Key)
    | CancelSelectsScope(call: CallId, within: Option<Scope>)
    | CancelEnds(call: CallId)

  // ---- Lookup and removal ----

  function VoiceKey(e: Entry): Key {
    Key(e.claim.scope, e.claim.voiceId)
  }

  function StatusKey(e: Entry): Key
    requires e.status.Some?
  {
    Key(e.claim.scope, e.status.value)
  }

  /** `_entry_for_claim`. */
  function EntryFor(s: State, claim: Claim): Option<ClaimNo> {
    var key := Key(claim.scope, claim.voiceId);
    if key in s.pending && s.pending[key] in s.entries && s.entries[s.pending[key]].claim == claim
    then Some(s.pending[key])
    else None
  }

  function DropIf(pending: map<Key, ClaimNo>, key: Key, no: ClaimNo): map<Key, ClaimNo> {
    if key in pending && pending[key] == no then map k | k in pending && k != key :: pending[k] else pending
  }

  function DropEntry(pending: map<Key, ClaimNo>, e: Entry, no: ClaimNo): map<Key, ClaimNo> {
    var left := DropIf(pending, VoiceKey(e), no);
    if e.status.Some? then DropIf(left, StatusKey(e), no) else left
  }

  /** `_remove`, with the reason why. */
  function Remove(s: State, no: ClaimNo, how: Departure): State
    requires no in s.entries
  {
    s.(pending := DropEntry(s.pending, s.entries[no], no), departures := s.departures[no := how])
  }

  // ---- Protection ----

  function Protections(s: State, no: ClaimNo): nat {
    if no in s.protection then s.protection[no] else 0
  }

  /** `_is_excluded`. */
  predicate Excluded(s: State, no: ClaimNo, source: Option<ClaimNo>) {
    source == Some(no) || Protections(s, no) > 0
  }

  function Protect(s: State, source: Option<ClaimNo>): State {
    match source
    case None => s
    case Some(no) => s.(protection := s.protection[no := Protections(s, no) + 1])
  }

  function Unprotect(s: State, source: Option<ClaimNo>): State {
    match source
    case None => s
    case Some(no) =>
      if Protections(s, no) > 1 then s.(protection := s.protection[no := Protections(s, no) - 1])
      else s.(protection := map k | k in s.protection && k != no :: s.protection[k])
  }

  function EndCall(s: State, call: CallId): State
    requires call in s.calls
  {
    Unprotect(s, s.calls[call].source).(calls := map c | c in s.calls && c != call :: s.calls[c])
  }

  /** The call takes these targets out of the registry and starts to drain them. */
  function Select(s: State, call: CallId, targets: set<ClaimNo>): State
    requires call in s.calls
  {
    s.(calls := s.calls[call := s.calls[call].(selected := Some(s.clock), targets := targets)], clock := s.clock + 1)
  }

  function InScope(s: State, scope: Option<Scope>, source: Option<ClaimNo>): set<ClaimNo> {
    set k | k in s.pending && (scope.None? || k.scope == scope.value) && !Excluded(s, s.pending[k], source) :: s.pending[k]
  }

  function RemoveAll(s: State, targets: set<ClaimNo>): State {
    s.(pending := map k | k in s.pending && s.pending[k] !in targets :: s.pending[k],
       departures := s.departures + map no | no in targets :: Cancelled)
  }

  /** Which of the user's messages a cancelled voice note deletes. */
  function DeleteIds(e: Entry, reference: Option<MessageId>): set<MessageId> {
    var voice := if reference.Some? && reference.value != e.claim.voiceId then {} else {e.claim.voiceId};
    if e.status.Some? then voice + {e.status.value} else voice
  }

  // ---- Steps ----

  predicate TasksOver(s: State, targets: set<ClaimNo>) {
    forall no | no in targets :: no in s.entries && !s.entries[no].task.Running?
  }

  predicate Enabled(s: State, e: Event) {
    match e
    case Reserve(_, _) => s.nextClaim !in s.entries
    case BindStatus(_, _) => true
    case StartHandoff(_) => true
    case TaskEnds(no) => no in s.entries && s.entries[no].task.Running?
    case FinishOwnership(no) => no in s.entries && s.entries[no].task.Done?
    case Discard(_) => true
    case CancelBegins(call, source) => call !in s.calls
    case CancelSelects(call, key) =>
      call in s.calls && s.calls[call].selected.None? && (key in s.pending ==> s.pending[key] in s.entries)
    case CancelSelectsScope(call, _) => call in s.calls && s.calls[call].selected.None?
    case CancelEnds(call) => call in s.calls && s.calls[call].selected.Some? && TasksOver(s, s.calls[call].targets)
  }

  function Step(s: State, e: Event): State
    requires Enabled(s, e)
  {
    match e
    case Reserve(scope, voiceId) =>
      if Key(scope, voiceId) in s.pending then s
      else
        s.(pending := s.pending[Key(scope, voiceId) := s.nextClaim],
           entries := s.entries[s.nextClaim := Entry(Claim(scope, voiceId, s.nextClaim), None, NoTask)],
           nextClaim := s.nextClaim + 1)
    case BindStatus(claim, status) => if CanBind(s, claim, status) then Bind(s, EntryFor(s, claim).value, status) else s
    case StartHandoff(claim) =>
      if CanHandOff(s, claim) then
        var no := EntryFor(s, claim).value;
        s.(entries := s.entries[no := s.entries[no].(task := Running)])
      else s
    case TaskEnds(no) => s.(entries := s.entries[no := s.entries[no].(task := Done)])
    case FinishOwnership(no) =>
      if EntryFor(s, s.entries[no].claim) == Some(no) then Remove(s, no, Completed) else s
    case Discard(claim) =>
      (match EntryFor(s, claim)
       case None => s
       case Some(no) => Remove(s, no, Discarded))
    case CancelBegins(call, source) =>
      Protect(s, source).(calls := s.calls[call := Call(source, s.clock, None, {})], clock := s.clock + 1)
    case CancelSelects(call, key) =>
      if key !in s.pending || Excluded(s, s.pending[key], s.calls[call].source) then EndCall(s, call)
      else Select(Remove(s, s.pending[key], Cancelled), call, {s.pending[key]})
    case CancelSelectsScope(call, scope) =>
      var targets := InScope(s, scope, s.calls[call].source);
      Select(RemoveAll(s, targets), call, targets)
    case CancelEnds(call) => EndCall(s, call)
  }

  /** `bind_status` writes: the claim is live, has no status, and the status id is nobody else's key. */
  predicate CanBind(s: State, claim: Claim, status: MessageId) {
    var entry := EntryFor(s, claim);
    && entry.Some?
    && s.entries[entry.value].status.None?
    && (Key(claim.scope, status) in s.pending ==> s.pending[Key(claim.scope, status)] == entry.value)
  }

  function Bind(s: State, no: ClaimNo, status: MessageId): State
    requires no in s.entries
  {
    s.(pending := s.pending[Key(s.entries[no].claim.scope, status) := no],
       entries := s.entries[no := s.entries[no].(status := Some(status))])
  }

  /** What `bind_status` answers. */
  predicate BindAnswer(s: State, claim: Claim, status: MessageId) {
    var entry := EntryFor(s, claim);
    CanBind(s, claim, status) || (entry.Some? && s.entries[entry.value].status == Some(status))
  }

  predicate CanHandOff(s: State, claim: Claim) {
    var entry := EntryFor(s, claim);
    && entry.Some?
    && s.entries[entry.value].status.Some?
    && s.entries[entry.value].task.NoTask?
  }

  function Start(): State {
    State(map[], map[], 0, map[], map[], 0, map[])
  }
}
