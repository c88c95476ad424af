/** Slot occupations and the numbers that name them: generation counters, io_uring operation identifiers
    (operation.rs) and poll tokens (token.rs, on a 64-bit machine). */
module Identifiers {
  import opened Common

  // ---------------------------------------------------------------- generations

  const URING_MODULUS: nat := 0x1_0000
  const TOKEN_MODULUS: nat := 0x4000_0000

  /** The generation after `previous`, in a counter of the given width; zero is skipped. */
  function NextGeneration(modulus: nat, previous: nat): (next: nat)
    requires modulus > 1
  {
    var next := (previous + 1) % modulus;
    if next == 0 then 1 else next
  }

  /** The generation of the k-th occupation of a slot; zero before the first. */
  function GenerationAt(modulus: nat, k: nat): (g: nat)
    requires modulus > 1
  {
    if k == 0 then 0 else NextGeneration(modulus, GenerationAt(modulus, k - 1))
  }

  /** The counter runs through 1 .. modulus - 1 and starts over. */
  lemma {:induction false} GenerationIsPeriodic(modulus: nat, k: nat)
    requires modulus > 1 && k > 0
    ensures GenerationAt(modulus, k) == (k - 1) % (modulus - 1) + 1
    ensures 0 < GenerationAt(modulus, k) < modulus
  {
    if k == 1 {
      SmallRemainder(0, modulus - 1);
      NextInRange(modulus, 0);
    } else {
      GenerationIsPeriodic(modulus, k - 1);
      NextRemainder(k - 2, modulus - 1);
      NextInRange(modulus, GenerationAt(modulus, k - 1));
    }
  }

  lemma NextInRange(modulus: nat, previous: nat)
    requires previous < modulus && modulus > 1
    ensures NextGeneration(modulus, previous) == if previous + 1 == modulus then 1 else previous + 1
  {
    if previous + 1 < modulus {
      SmallRemainder(previous + 1, modulus);
    } else {
      Remainder(previous + 1, 1, 0, modulus);
    }
  }

  /** A generation names an occupation uniquely among any modulus - 1 consecutive ones, and no more: the exact
      condition under which two occupations of a slot are confused. */
  lemma SameGeneration(modulus: nat, a: nat, b: nat)
    requires modulus > 1 && 0 < a <= b
    ensures GenerationAt(modulus, a) == GenerationAt(modulus, b) <==> (b - a) % (modulus - 1) == 0
    ensures b - a < modulus - 1 ==> (GenerationAt(modulus, a) == GenerationAt(modulus, b) <==> a == b)
  {
    GenerationIsPeriodic(modulus, a);
    GenerationIsPeriodic(modulus, b);
    EqualRemainders(a - 1, b - 1, modulus - 1);
    if b - a < modulus - 1 {
      SmallRemainder(b - a, modulus - 1);
    }
  }

  // ---------------------------------------------------------------- io_uring operations

  datatype OperationKind = Accept | Read | Write | ProxyConnect | ProxyWrite | ProxyRead

  datatype OperationId = OperationId(slot: nat, generation: nat, kind: OperationKind)

  const WORD: nat := 0x1_0000_0000_0000_0000
  const CONTROL_USER_DATA: nat := 0
  const CANCEL_USER_DATA: nat := WORD - 1
  const DNS_USER_DATA: nat := WORD - 2
  const TIMER_USER_DATA: nat := WORD - 3
  const PROXY_CANCEL_USER_DATA: nat := WORD - 4

  predicate IsReserved(value: nat) {
    || value == CONTROL_USER_DATA || value == CANCEL_USER_DATA || value == DNS_USER_DATA
    || value == TIMER_USER_DATA || value == PROXY_CANCEL_USER_DATA
  }

  /** An identifier the worker can issue: a 32-bit slot and a non-zero 16-bit generation. */
  predicate IsOperation(id: OperationId) {
    id.slot < 0x1_0000_0000 && 0 < id.generation < 0x1_0000
  }

  function KindCode(kind: OperationKind): nat {
    match kind
    case Accept => 1
    case Read => 2
    case Write => 3
    case ProxyConnect => 4
    case ProxyWrite => 5
    case ProxyRead => 6
  }

  function KindOf(code: nat): Option<OperationKind> {
    match code
    case 1 => Some(Accept)
    case 2 => Some(Read)
    case 3 => Some(Write)
    case 4 => Some(ProxyConnect)
    case 5 => Some(ProxyWrite)
    case 6 => Some(ProxyRead)
    case _ => None
  }

  /** The three fields side by side: the kind above bit 48, the generation above bit 32, the slot below. */
  function Encode(id: OperationId): nat {
    KindCode(id.kind) * 0x1_0000_0000_0000 + id.generation * 0x1_0000_0000 + id.slot
  }

  function Decode(value: nat): Option<OperationId> {
    match KindOf(value / 0x1_0000_0000_0000)
    case None => None
    case Some(kind) =>
      var generation := value / 0x1_0000_0000 % 0x1_0000;
      if generation == 0 then None else Some(OperationId(value % 0x1_0000_0000, generation, kind))
  }

  /** The source packs and unpacks with shifts, masks and bitwise or; on fields that fit, that is the arithmetic
      above. */
  lemma ShiftsAreArithmetic(kind: bv64, generation: bv64, slot: bv64, value: bv64)
    requires kind <= 6 && generation <= 0xffff && slot <= 0xffff_ffff
    ensures (kind << 48) | (generation << 32) | slot
            == kind * 0x1_0000_0000_0000 + generation * 0x1_0000_0000 + slot
    ensures value >> 48 == value / 0x1_0000_0000_0000
    ensures (value >> 32) & 0xffff == value / 0x1_0000_0000 % 0x1_0000
    ensures value & 0xffff_ffff == value % 0x1_0000_0000
  {
  }

  /** Encoding then decoding gives the identifier back, and the code is never a reserved value. */
  lemma DecodeEncode(id: OperationId)
    requires IsOperation(id)
    ensures Encode(id) < WORD
    ensures Decode(Encode(id)) == Some(id)
    ensures !IsReserved(Encode(id))
  {
    var value := Encode(id);
    assert value / 0x1_0000_0000 == KindCode(id.kind) * 0x1_0000 + id.generation;
    assert value / 0x1_0000_0000_0000 == KindCode(id.kind);
  }

  /** Whatever decodes is the code of exactly that identifier; no reserved value decodes. */
  lemma EncodeDecode(value: nat)
    requires value < WORD
    ensures Decode(value).Some? ==> IsOperation(Decode(value).value) && Encode(Decode(value).value) == value
    ensures IsReserved(value) ==> Decode(value) == None
  {
  }

  // ---------------------------------------------------------------- poll tokens

  datatype SocketRole = Client | Upstream

  datatype ConnectionId = ConnectionId(slot: nat, generation: nat)

  const CONTROL_TOKEN: nat := WORD - 1
  const CONNECTION_TAG: nat := 0x8000_0000_0000_0000
  const UPSTREAM_TAG: nat := 0x4000_0000_0000_0000
  const SLOT_MASK: nat := 0xffff_ffff
  const GENERATION_MASK: nat := 0x3fff_ffff

  function RawToken(id: ConnectionId, role: SocketRole): nat {
    CONNECTION_TAG + (if role.Upstream? then UPSTREAM_TAG else 0) + id.generation * 0x1_0000_0000 + id.slot
  }

  function Token(id: ConnectionId, role: SocketRole): Option<nat> {
    if id.slot > SLOT_MASK || id.generation == 0 || id.generation > GENERATION_MASK then None
    else if RawToken(id, role) == CONTROL_TOKEN then None
    else Some(RawToken(id, role))
  }

  function FromToken(token: nat): Option<(ConnectionId, SocketRole)> {
    if token == CONTROL_TOKEN || token / CONNECTION_TAG % 2 == 0 then None
    else
      var generation := token / 0x1_0000_0000 % 0x4000_0000;
      var role := if token / UPSTREAM_TAG % 2 == 0 then Client else Upstream;
      if generation == 0 then None else Some((ConnectionId(token % 0x1_0000_0000, generation), role))
  }

  lemma TokenShiftsAreArithmetic(tag: bv64, role: bv64, generation: bv64, slot: bv64, token: bv64)
    requires (tag == 0x8000_0000_0000_0000) && (role == 0 || role == 0x4000_0000_0000_0000)
    requires generation <= 0x3fff_ffff && slot <= 0xffff_ffff
    ensures tag | role | (generation << 32) | slot == tag + role + generation * 0x1_0000_0000 + slot
    ensures (token & 0x8000_0000_0000_0000 == 0) == (token / 0x8000_0000_0000_0000 % 2 == 0)
    ensures (token & 0x4000_0000_0000_0000 == 0) == (token / 0x4000_0000_0000_0000 % 2 == 0)
    ensures (token >> 32) & 0x3fff_ffff == token / 0x1_0000_0000 % 0x4000_0000
  {
  }

  predicate IsConnectionId(id: ConnectionId) {
    id.slot <= SLOT_MASK && 0 < id.generation <= GENERATION_MASK
  }

  /** Exactly one otherwise valid identifier has no token: the one whose bits are all set. */
  lemma TokenDefined(id: ConnectionId, role: SocketRole)
    requires IsConnectionId(id)
    ensures Token(id, role).None? <==> id == ConnectionId(SLOT_MASK, GENERATION_MASK) && role == Upstream
  {
  }

  /** A token leads back to its identifier and role, and is neither the control token nor a listener index. */
  lemma FromTokenToken(id: ConnectionId, role: SocketRole, listeners: nat)
    requires Token(id, role).Some? && listeners <= CONNECTION_TAG
    ensures Token(id, role).value < WORD
    ensures FromToken(Token(id, role).value) == Some((id, role))
    ensures Token(id, role).value != CONTROL_TOKEN && Token(id, role).value >= listeners
  {
    var token := Token(id, role).value;
    var r := if role.Upstream? then 1 else 0;
    assert token / 0x1_0000_0000 == 0x8000_0000 + r * 0x4000_0000 + id.generation;
    assert token / UPSTREAM_TAG == 2 + r;
    assert token / CONNECTION_TAG == 1;
  }

  lemma TokenFromToken(token: nat)
    requires token < WORD && FromToken(token).Some?
    ensures var (id, role) := FromToken(token).value; IsConnectionId(id) && Token(id, role) == Some(token)
  {
    var high := token / 0x1_0000_0000;
    assert token / UPSTREAM_TAG == high / 0x4000_0000 && token / CONNECTION_TAG == high / 0x8000_0000;
    assert high == high / 0x4000_0000 * 0x4000_0000 + high % 0x4000_0000;
  }
}
