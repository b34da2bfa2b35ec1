/** One vault of the sync service: devices, enrollments, invitations, and what a request does to them. */
module ServiceVault {
  import opened Basics

  const SECOND := 1_000_000_000             // clock readings are in nanoseconds
  const LIFETIME := 600
  const MAX_ATTEMPTS := 5
  const PROTOCOL_VERSION := 1

  type Id = string
  type Key = string

  /** The text form of a clock reading: whole seconds, rounded down. */
  function Text(now: Time): int { now / SECOND }

  /** A digest of both keys, ideal and so standing for them. */
  datatype Fingerprint = Fingerprint(signing: Key, wrapping: Key)

  datatype Device = Device(id: Id, signing: Key, wrapping: Key)

  function FingerprintOf(d: Device): Fingerprint { Fingerprint(d.signing, d.wrapping) }

  datatype DeviceRow = DeviceRow(device: Device, revokedAt: Option<int>)

  /** `wellFormed`: the key and ciphertext decode to the right lengths. */
  datatype Envelope = Envelope(content: string, wellFormed: bool)

  datatype Enrollment = Enrollment(device: Device, approved: bool, envelope: Option<Envelope>)

  datatype InvitationState = Pending | Approved | Cancelled | Rejected | Expired | AttemptsExhausted

  datatype Invitation = Invitation(version: int, state: InvitationState, expiresAt: int, failed: nat,
                                   terminalAt: Option<int>, actor: Option<Id>)

  datatype Vault = Vault(devices: map<Id, DeviceRow>, enrollments: map<Id, Enrollment>, invitations: map<Id,
    Invitation>)

  datatype Verb = Approve | Reject | Cancel

  datatype Binding = Binding(version: int, device: Id, fingerprint: Fingerprint)

  /** What an authenticated request asks for. */
  datatype Call =
    | ReadEnrollment(target: Id)
    | ReadInvitation(target: Id)
    | ReadInvitations
    | ApproveEnrollment(target: Id, envelope: Option<Envelope>)   // None: the body does not decode
    | RevokeDevice(target: Id)
    | Transition(target: Id, verb: Verb, binding: Option<Binding>, sealed: Envelope)
    | Ordinary(content: string)                                   // records, objects, lists, events

  /** Pending devices may only do these. */
  predicate AllowsPending(c: Call) { c.ReadEnrollment? || c.ReadInvitation? || c.Transition? }

  predicate Active(v: Vault, id: Id) { id in v.devices && v.devices[id].revokedAt.None? }

  function ActiveDevices(v: Vault): set<Id> { set id | id in v.devices && v.devices[id].revokedAt.None? }

  function Expire(inv: Invitation, now: Time): Invitation {
    if inv.state == Pending && now >= inv.expiresAt * SECOND
    then inv.(state := Expired, terminalAt := Some(Text(now)), actor := Some("server"))
    else inv
  }

  function FailAttempt(inv: Invitation, now: Time, actor: Id): Invitation {
    if inv.failed + 1 >= MAX_ATTEMPTS
    then inv.(failed := inv.failed + 1, state := AttemptsExhausted, terminalAt := Some(Text(now)), actor := Some(actor))
    else inv.(failed := inv.failed + 1, state := Pending, terminalAt := None, actor := None)
  }

  function End(inv: Invitation, state: InvitationState, now: Time, actor: Id): Invitation {
    inv.(state := state, terminalAt := Some(Text(now)), actor := Some(actor))
  }

  predicate RoleOk(v: Vault, verb: Verb, actor: Id, target: Id) {
    if verb == Cancel then actor == target && !Active(v, actor) else Active(v, actor)
  }

  predicate BindingOk(inv: Invitation, device: Device, binding: Option<Binding>) {
    binding == Some(Binding(inv.version, device.id, FingerprintOf(device)))
  }

  predicate Invited(v: Vault, id: Id) { id in v.invitations && id in v.enrollments }

  function WithInvitation(v: Vault, id: Id, inv: Invitation): Vault { v.(invitations := v.invitations[id := inv]) }

  /** An accepted enrollment becomes a device; a name that is already taken undoes the transaction. */
  function Admitted(v: Vault, id: Id, envelope: Envelope): Option<Vault>
    requires id in v.enrollments
  {
    if v.enrollments[id].approved || id in v.devices then None
    else Some(v.(enrollments := v.enrollments[id := v.enrollments[id].(approved := true, envelope := Some(envelope))],
                 devices := v.devices[id := DeviceRow(v.enrollments[id].device, None)]))
  }

  function Transitioned(v: Vault, now: Time, actor: Id, c: Call): Option<Vault>
    requires c.Transition?
  {
    if !Invited(v, c.target) then Some(v)
    else
      var inv := Expire(v.invitations[c.target], now);
      if inv.state != Pending then Some(WithInvitation(v, c.target, inv))
      else if RoleOk(v, c.verb, actor, c.target) && BindingOk(inv, v.enrollments[c.target].device, c.binding) &&
              (c.verb == Approve ==> c.sealed.wellFormed) then
        match c.verb
        case Approve => Admitted(WithInvitation(v, c.target, End(inv, Approved, now, actor)), c.target, c.sealed)
        case Reject => Some(WithInvitation(v, c.target, End(inv, Rejected, now, actor)))
        case Cancel => Some(WithInvitation(v, c.target, End(inv, Cancelled, now, actor)))
      else Some(WithInvitation(v, c.target, FailAttempt(inv, now, actor)))
  }

  function Revoked(v: Vault, now: Time, target: Id): Vault {
    if !Active(v, target) || |ActiveDevices(v)| <= 1 then v
    else v.(devices := v.devices[target := v.devices[target].(revokedAt := Some(Text(now)))])
  }

  function ExpireAll(v: Vault, now: Time): Vault {
    v.(invitations := map id | id in v.invitations ::
         if id in v.enrollments then Expire(v.invitations[id], now) else v.invitations[id])
  }

  /** What an authenticated request leaves of its vault; None when the transaction is undone. */
  function Act(v: Vault, now: Time, actor: Id, c: Call): Option<Vault> {
    match c
    case ReadInvitation(target) =>
      if Invited(v, target) && (Active(v, actor) || actor == target)
      then Some(WithInvitation(v, target, Expire(v.invitations[target], now)))
      else Some(v)
    case ReadInvitations => Some(ExpireAll(v, now))
    case ApproveEnrollment(target, envelope) =>
      if envelope.None? || target !in v.enrollments || v.enrollments[target].approved || target in v.invitations
      then Some(v)
      else Admitted(v, target, envelope.value)
    case RevokeDevice(target) => Some(Revoked(v, now, target))
    case Transition(_, _, _, _) => Transitioned(v, now, actor, c)
    case _ => Some(v)
  }

  // ----- What every vault keeps ----------------------------------------------------------------

  /** Enrolled, sealed a key for, and listed as a device with the same keys. */
  predicate Joined(v: Vault, id: Id) {
    && id in v.enrollments && v.enrollments[id].approved && v.enrollments[id].envelope.Some?
    && id in v.devices && v.devices[id].device == v.enrollments[id].device
  }

  predicate InvitationOk(v: Vault, id: Id)
    requires id in v.invitations
  {
    var inv := v.invitations[id];
    && id in v.enrollments
    && (inv.state == Pending ==> inv.failed < MAX_ATTEMPTS)
    && (inv.state == AttemptsExhausted <==> inv.failed == MAX_ATTEMPTS) && inv.failed <= MAX_ATTEMPTS
    && (inv.state == Approved <==> v.enrollments[id].approved)
  }

  predicate EnrollmentOk(v: Vault, id: Id)
    requires id in v.enrollments
  {
    && v.enrollments[id].device.id == id
    && (v.enrollments[id].approved ==> Joined(v, id))
    && (!v.enrollments[id].approved ==> id !in v.devices && v.enrollments[id].envelope.None?)
  }

  predicate VaultOk(v: Vault) {
    && ActiveDevices(v) != {}
    && (forall id :: id in v.devices ==> v.devices[id].device.id == id)
    && (forall id :: id in v.enrollments ==> EnrollmentOk(v, id))
    && forall id :: id in v.invitations ==> InvitationOk(v, id)
  }

  /** A new device identifier: nobody ever had it. */
  predicate Unused(v: Vault, id: Id) { id !in v.devices && id !in v.enrollments && id !in v.invitations }

  function Founded(d: Device): Vault { Vault(map[d.id := DeviceRow(d, None)], map[], map[]) }

  function Enrolled(v: Vault, d: Device): Vault { v.(enrollments := v.enrollments[d.id := Enrollment(d, false, None)]) }

  function Invite(v: Vault, d: Device, version: int, now: Time): Vault {
    WithInvitation(Enrolled(v, d), d.id, Invitation(version, Pending, Text(now + LIFETIME * SECOND), 0, None, None))
  }

  lemma FoundedOk(d: Device)
    ensures VaultOk(Founded(d))
  {
    assert d.id in ActiveDevices(Founded(d));
  }

  lemma InviteOk(v: Vault, d: Device, version: int, now: Time)
    requires VaultOk(v) && Unused(v, d.id)
    ensures VaultOk(Enrolled(v, d)) && VaultOk(Invite(v, d, version, now))
  {
    assert ActiveDevices(Enrolled(v, d)) == ActiveDevices(v);
    assert ActiveDevices(Invite(v, d, version, now)) == ActiveDevices(v);
    forall id | id in v.enrollments
      ensures EnrollmentOk(Enrolled(v, d), id) && EnrollmentOk(Invite(v, d, version, now), id)
    {
      assert EnrollmentOk(v, id);
    }
    forall id | id in v.invitations
      ensures InvitationOk(Enrolled(v, d), id) && InvitationOk(Invite(v, d, version, now), id)
    {
      assert InvitationOk(v, id);
    }
  }

  lemma RevokedOk(v: Vault, now: Time, target: Id)
    requires VaultOk(v)
    ensures VaultOk(Revoked(v, now, target))
  {
    var w := Revoked(v, now, target);
    if w != v {
      assert ActiveDevices(w) == ActiveDevices(v) - {target};
      assert |ActiveDevices(w)| == |ActiveDevices(v)| - 1 by { assert target in ActiveDevices(v); }
      forall id | id in w.enrollments ensures EnrollmentOk(w, id) { assert EnrollmentOk(v, id); }
      forall id | id in w.invitations ensures InvitationOk(w, id) { assert InvitationOk(v, id); }
    }
  }

  /** Changing one invitation, its approval aside, keeps everything. */
  lemma WithInvitationOk(v: Vault, id: Id, inv: Invitation)
    requires VaultOk(v) && Invited(v, id) && InvitationOk(WithInvitation(v, id, inv), id)
    ensures VaultOk(WithInvitation(v, id, inv))
  {
    var w := WithInvitation(v, id, inv);
    assert ActiveDevices(w) == ActiveDevices(v);
    forall k | k in w.enrollments ensures EnrollmentOk(w, k) { assert EnrollmentOk(v, k); }
    forall k | k in w.invitations ensures InvitationOk(w, k) { if k != id { assert InvitationOk(v, k); } }
  }

  lemma ExpireAllOk(v: Vault, now: Time)
    requires VaultOk(v)
    ensures VaultOk(ExpireAll(v, now))
  {
    var w := ExpireAll(v, now);
    assert ActiveDevices(w) == ActiveDevices(v);
    forall k | k in w.enrollments ensures EnrollmentOk(w, k) { assert EnrollmentOk(v, k); }
    forall k | k in w.invitations ensures InvitationOk(w, k) { assert InvitationOk(v, k); }
  }

  /** Admitting the enrollment whose invitation, if any, has just been approved. */
  lemma AdmittedOk(v: Vault, w: Vault, id: Id, envelope: Envelope)
    requires VaultOk(v) && id in v.enrollments && w.enrollments == v.enrollments && w.devices == v.devices
    requires forall k :: k in w.invitations ==> k in v.invitations && (k != id ==> w.invitations[k] == v.invitations[k])
    requires id in w.invitations ==> w.invitations[id].state == Approved && w.invitations[id].failed < MAX_ATTEMPTS
    ensures Admitted(w, id, envelope).Some? ==> VaultOk(Admitted(w, id, envelope).value)
    ensures Admitted(w, id, envelope).None? <==> v.enrollments[id].approved
  {
    assert EnrollmentOk(v, id);
    if Admitted(w, id, envelope).Some? {
      var x := Admitted(w, id, envelope).value;
      assert id in ActiveDevices(x);
      forall k | k in x.enrollments ensures EnrollmentOk(x, k) { assert EnrollmentOk(v, k); }
      forall k | k in x.invitations ensures InvitationOk(x, k) { if k != id { assert InvitationOk(v, k); } }
    }
  }

  lemma TransitionedOk(v: Vault, now: Time, actor: Id, c: Call)
    requires VaultOk(v) && c.Transition?
    ensures Transitioned(v, now, actor, c).Some? && VaultOk(Transitioned(v, now, actor, c).value)
  {
    if Invited(v, c.target) {
      assert InvitationOk(v, c.target) && EnrollmentOk(v, c.target);
      var inv := Expire(v.invitations[c.target], now);
      var approves := inv.state == Pending && c.verb == Approve && RoleOk(v, c.verb, actor, c.target) &&
                      BindingOk(inv, v.enrollments[c.target].device, c.binding) && c.sealed.wellFormed;
      if approves {
        hide VaultOk, EnrollmentOk, InvitationOk;
        AdmittedOk(v, WithInvitation(v, c.target, End(inv, Approved, now, actor)), c.target, c.sealed);
      } else {
        var w := Transitioned(v, now, actor, c).value;
        assert InvitationOk(w, c.target);
        assert w == WithInvitation(v, c.target, w.invitations[c.target]);
        hide VaultOk, EnrollmentOk, InvitationOk, Transitioned;
        WithInvitationOk(v, c.target, w.invitations[c.target]);
      }
    }
  }

  /** No request can break a vault, and none is undone for a name that is taken. */
  lemma ActKeeps(v: Vault, now: Time, actor: Id, c: Call)
    requires VaultOk(v)
    ensures Act(v, now, actor, c).Some? && VaultOk(Act(v, now, actor, c).value)
  {
    match c
    case ReadInvitation(target) =>
      if Invited(v, target) {
        assert InvitationOk(v, target);
        WithInvitationOk(v, target, Expire(v.invitations[target], now));
      }
    case ReadInvitations => ExpireAllOk(v, now);
    case ApproveEnrollment(target, envelope) =>
      if target in v.enrollments && envelope.Some? && target !in v.invitations { AdmittedOk(v, v, target,
        envelope.value); }
    case RevokeDevice(target) => RevokedOk(v, now, target);
    case Transition(_, _, _, _) => TransitionedOk(v, now, actor, c);
    case _ =>
  }

  /** An invitation is approved exactly when its device has joined, with the enrolled keys. */
  lemma ApprovedExactly(v: Vault, id: Id)
    requires VaultOk(v) && id in v.invitations
    ensures v.invitations[id].state == Approved <==> Joined(v, id)
    ensures v.invitations[id].state == AttemptsExhausted <==> v.invitations[id].failed == MAX_ATTEMPTS
    ensures v.invitations[id].state == Pending ==> v.invitations[id].failed < MAX_ATTEMPTS
  {
    assert InvitationOk(v, id) && EnrollmentOk(v, id);
  }

  // ----- Expiry and failed attempts ------------------------------------------------------------

  /** An invitation as it is found at several moments, one after the other. */
  function Looked(inv: Invitation, times: seq<Time>): Invitation {
    if times == [] then inv else Expire(Looked(inv, times[..|times| - 1]), times[|times| - 1])
  }

  predicate Due(inv: Invitation, times: seq<Time>, k: nat) { k < |times| && times[k] >= inv.expiresAt * SECOND }

  /** Looking at a pending invitation before its expiry changes nothing, however often. */
  lemma {:induction false} UndueStays(inv: Invitation, times: seq<Time>)
    requires inv.state == Pending && forall k: nat :: !Due(inv, times, k)
    ensures Looked(inv, times) == inv
  {
    if times != [] {
      var most := times[..|times| - 1];
      assert forall k: nat :: Due(inv, most, k) ==> Due(inv, times, k);
      UndueStays(inv, most);
      assert !Due(inv, times, |times| - 1);
    }
  }

  /** The first look at or after the expiry ends it, says so, and is the last to change anything. */
  lemma {:induction false} ExpiresAtFirstLook(inv: Invitation, times: seq<Time>, k: nat)
    requires inv.state == Pending && Due(inv, times, k) && forall j: nat :: j < k ==> !Due(inv, times, j)
    ensures Looked(inv, times) == inv.(state := Expired, terminalAt := Some(Text(times[k])), actor := Some("server"))
    ensures Text(times[k]) >= inv.expiresAt
  {
    var most, last := times[..|times| - 1], times[|times| - 1];
    assert forall j: nat :: j < |most| ==> most[j] == times[j];
    if k < |most| {
      assert forall j: nat :: j < |most| ==> (Due(inv, most, j) <==> Due(inv, times, j));
      ExpiresAtFirstLook(inv, most, k);
    } else {
      assert forall j: nat :: Due(inv, most, j) ==> Due(inv, times, j);
      UndueStays(inv, most);
    }
  }

  /** One attempt that did not fit: when, and by whom. */
  datatype Try = Try(now: Time, actor: Id)

  function Attempted(inv: Invitation, tries: seq<Try>): Invitation {
    if tries == [] then inv
    else
      var before := Attempted(inv, tries[..|tries| - 1]);
      if before.state == Pending then FailAttempt(before, tries[|tries| - 1].now, tries[|tries| - 1].actor) else before
  }

  /** A new invitation bears four failures; the fifth exhausts it, and whatever follows changes nothing. */
  lemma {:induction false} FifthFailureExhausts(inv: Invitation, tries: seq<Try>)
    requires inv.state == Pending && inv.failed == 0 && inv.terminalAt == None && inv.actor == None
    ensures Attempted(inv, tries) ==
            if |tries| < MAX_ATTEMPTS then inv.(failed := |tries|)
            else inv.(failed := MAX_ATTEMPTS, state := AttemptsExhausted,
                      terminalAt := Some(Text(tries[MAX_ATTEMPTS - 1].now)), actor :=
                        Some(tries[MAX_ATTEMPTS - 1].actor))
  {
    if tries != [] { FifthFailureExhausts(inv, tries[..|tries| - 1]); }
  }

  // ----- What one request may change -----------------------------------------------------------

  /** An invitation that has left "pending" never changes again. */
  lemma TerminalStays(v: Vault, now: Time, actor: Id, c: Call, id: Id)
    requires Act(v, now, actor, c).Some? && id in v.invitations && v.invitations[id].state != Pending
    ensures id in Act(v, now, actor, c).value.invitations
    ensures Act(v, now, actor, c).value.invitations[id] == v.invitations[id]
  {
  }

  /**
   * An invitation becomes approved only in a transaction whose actor is an active device, before
   * the invitation expired, with the invitation's own version, device and keys confirmed.
   */
  lemma ApprovalIsEarned(v: Vault, now: Time, actor: Id, c: Call, id: Id)
    requires VaultOk(v) && Act(v, now, actor, c).Some? && id in v.invitations && v.invitations[id].state != Approved
    requires var w := Act(v, now, actor, c).value; id in w.invitations && w.invitations[id].state == Approved
    ensures Active(v, actor) && actor != id && now < v.invitations[id].expiresAt * SECOND
              && v.invitations[id].state == Pending
    ensures c.Transition? && c.target == id && c.verb == Approve && c.sealed.wellFormed && id in v.enrollments
    ensures c.binding == Some(Binding(v.invitations[id].version, id, FingerprintOf(v.enrollments[id].device)))
    ensures var w := Act(v, now, actor, c).value;
            && Joined(w, id) && w.enrollments[id].envelope == Some(c.sealed)
            && w.devices[id].device == v.enrollments[id].device && w.invitations[id].actor == Some(actor)
  {
    assert InvitationOk(v, id) && EnrollmentOk(v, id);
  }

  /** A device exists because it founded the vault or because its enrollment was approved. */
  lemma DevicesStay(v: Vault, now: Time, actor: Id, c: Call, id: Id)
    requires Act(v, now, actor, c).Some? && id in v.devices
    ensures var w := Act(v, now, actor, c).value;
            && id in w.devices && w.devices[id].device == v.devices[id].device
            && (v.devices[id].revokedAt.Some? ==> w.devices[id] == v.devices[id])
  {
  }

  lemma EnrollmentsStay(v: Vault, now: Time, actor: Id, c: Call, id: Id)
    requires Act(v, now, actor, c).Some? && id in v.enrollments
    ensures var w := Act(v, now, actor, c).value;
            && id in w.enrollments && w.enrollments[id].device == v.enrollments[id].device
            && (v.enrollments[id].approved ==> w.enrollments[id] == v.enrollments[id])
  {
  }
}
