/** The request handlers, each one transaction over the tables. */
module ServiceHandlers {
  import opened Basics
  import opened ServiceVault
  import opened Service
  import opened ServiceAccess

  datatype Answer = Done | NotFound | Unauthorized | Conflict | BadRequest | PersistError

  /** The device was not there and now is. */
  predicate Admits(before: Tables, after: Tables, vault: VaultId, id: Id) {
    && vault in before.vaults && vault in after.vaults
    && id !in before.vaults[vault].devices && id in after.vaults[vault].devices
  }

  /** The device was active and no longer is. */
  predicate Retires(before: Tables, after: Tables, vault: VaultId, id: Id) {
    && vault in before.vaults && vault in after.vaults
    && Active(before.vaults[vault], id) && !Active(after.vaults[vault], id)
  }

  function Ending(verb: Verb): InvitationState {
    match verb case Approve => Approved case Reject => Rejected case Cancel => Cancelled
  }

  /** The invitation was pending and now has this state. */
  predicate EndsIn(v: Vault, w: Vault, id: Id, state: InvitationState) {
    && id in v.invitations && id in w.invitations
    && v.invitations[id].state == Pending && w.invitations[id].state == state
  }

  predicate Ends(before: Tables, after: Tables, vault: VaultId, id: Id, state: InvitationState) {
    vault in before.vaults && vault in after.vaults && EndsIn(before.vaults[vault], after.vaults[vault], id, state)
  }

  /** The one constraint an approval could hit never is: a pending invitation has no device yet. */
  lemma NotYetAdmitted(v: Vault, id: Id)
    requires id in v.invitations && InvitationOk(v, id) && v.invitations[id].state == Pending
    requires id in v.enrollments && EnrollmentOk(v, id)
    ensures !v.enrollments[id].approved && id !in v.devices
  {
  }

  lemma NothingEnds(t: Tables, vault: VaultId, id: Id, state: InvitationState)
    requires state != Pending
    ensures !Ends(t, t, vault, id, state)
    ensures vault in t.vaults ==> !EndsIn(t.vaults[vault], t.vaults[vault], id, state)
  {
  }

  lemma NoneUninvited(v: Vault, id: Id)
    requires VaultOk(v) && !Invited(v, id)
    ensures id !in v.invitations
  {
  }

  class SyncService {
    const reliable: bool       // commits are not lost
    var vaults: map<VaultId, Vault>
    var nonces: map<NonceKey, int>

    constructor (reliable: bool)
      ensures Rows() == Tables(map[], map[]) && TablesOk(Rows()) && this.reliable == reliable
    {
      this.reliable := reliable;
      vaults, nonces := map[], map[];
    }

    function Rows(): Tables
      reads this
    {
      Tables(vaults, nonces)
    }

    /** The transaction as the specification has it, or none at all. */
    twostate predicate Transacted(now: Time, e: Event, answer: Answer)
      reads this
    {
      Rows() == if answer == PersistError then old(Rows()) else Next(old(Rows()), now, e)
    }

    method Commit(tx: Tables) returns (ok: bool)
      modifies this
      ensures Rows() == (if ok then tx else old(Rows())) && (reliable ==> ok)
    {
      ok := *;
      ok := ok || reliable;
      if ok { vaults, nonces := tx.vaults, tx.nonces; }
    }

    /** Inserts the nonce, prunes old ones, and only then looks at what the device may do. */
    method AuthenticateDevice(now: Time, q: Request) returns (auth: Auth)
      ensures auth == Authenticate(Rows(), now, q)
      ensures TablesOk(Rows()) ==> (auth.Passed? <==> MayPass(Rows(), now, q))
    {
      if TablesOk(Rows()) { AcceptedExactly(Rows(), now, q); }
      hide TablesOk, MayPass;
      var m := q.message;
      if m.vault !in vaults { return Refused; }
      var v := vaults[m.vault];
      var device: Device;
      var reason := false;
      if q.claimed in v.devices {
        device := v.devices[q.claimed].device;
        reason := v.devices[q.claimed].revokedAt.Some?;
      } else if q.claimed in v.enrollments {
        device := v.enrollments[q.claimed].device;
        reason := !AllowsPending(m.call);
      } else {
        return Refused;
      }
      if device.id == "" { return Refused; }
      if q.signer != Some(device.signing) { return Refused; }
      if !Timely(m.timestamp, now) || m.nonce.None? { return Refused; }
      var key := NonceKey(m.vault, device.id, m.nonce.value);
      if key in nonces { return Refused; }
      var kept := Prune(nonces[key := Text(now)], now);
      return if reason then Denied(kept) else Passed(kept);
    }

    /** What a refused or denied request leaves behind: at most its nonce. */
    method TurnAway(now: Time, q: Request, auth: Auth) returns (answer: Answer)
      requires auth == Authenticate(Rows(), now, q) && !auth.Passed?
      modifies this
      ensures Transacted(now, Handle(q), answer) && (answer == Unauthorized || answer == PersistError)
      ensures vaults == old(vaults) && (reliable ==> answer == Unauthorized)
    {
      if auth.Refused? { return Unauthorized; }
      var ok := Commit(Tables(vaults, auth.nonces));
      answer := if ok then Unauthorized else PersistError;
    }

    /** `wellFormed`: the body decodes, names what it must, and the keys are keys. */
    method CreateVault(now: Time, wellFormed: bool, id: VaultId, d: Device) returns (answer: Answer)
      requires Enabled(Rows(), Found(id, d))
      modifies this
      ensures if answer == BadRequest then Rows() == old(Rows()) else Transacted(now, Found(id, d), answer)
      ensures answer == BadRequest <==> !wellFormed
      ensures wellFormed ==> (answer == Done || answer == PersistError) && (reliable ==> answer == Done)
    {
      if !wellFormed { return BadRequest; }
      var ok := Commit(Tables(vaults[id := Vault(map[d.id := DeviceRow(d, None)], map[], map[])], nonces));
      answer := if ok then Done else PersistError;
    }

    method RequestEnrollment(now: Time, wellFormed: bool, id: VaultId, d: Device) returns (answer: Answer)
      requires id in vaults ==> Enabled(Rows(), Enroll(id, d))
      modifies this
      ensures if answer == BadRequest then Rows() == old(Rows()) else Transacted(now, Enroll(id, d), answer)
      ensures answer == NotFound <==> id !in old(vaults)
      ensures answer == BadRequest <==> id in old(vaults) && !wellFormed
      ensures id in old(vaults) && wellFormed ==>
                (answer == Done || answer == PersistError) && (reliable ==> answer == Done)
    {
      if id !in vaults { return NotFound; }
      if !wellFormed { return BadRequest; }
      var v := vaults[id];
      var w := v.(enrollments := v.enrollments[d.id := Enrollment(d, false, None)]);
      var ok := Commit(Tables(vaults[id := w], nonces));
      answer := if ok then Done else PersistError;
    }

    method CreateInvitation(now: Time, wellFormed: bool, id: VaultId, d: Device) returns (answer: Answer)
      requires id in vaults ==> Enabled(Rows(), Invite(id, d))
      modifies this
      ensures if answer == BadRequest then Rows() == old(Rows()) else Transacted(now, Invite(id, d), answer)
      ensures answer == NotFound <==> id !in old(vaults)
      ensures answer == BadRequest <==> id in old(vaults) && !wellFormed
      ensures id in old(vaults) && wellFormed ==>
                (answer == Done || answer == PersistError) && (reliable ==> answer == Done)
    {
      if id !in vaults { return NotFound; }
      if !wellFormed { return BadRequest; }
      var v := vaults[id];
      var expiresAt := Text(now + LIFETIME * SECOND);
      var w := v.(enrollments := v.enrollments[d.id := Enrollment(d, false, None)],
                  invitations :=
                    v.invitations[d.id := Invitation(PROTOCOL_VERSION, Pending, expiresAt, 0, None, None)]);
      var ok := Commit(Tables(vaults[id := w], nonces));
      answer := if ok then Done else PersistError;
    }

    /** Ends the transaction of an authenticated request. */
    method Finish(now: Time, q: Request, auth: Auth, w: Vault, result: Answer) returns (answer: Answer)
      requires auth == Authenticate(Rows(), now, q) && auth.Passed? && result != PersistError
      requires Act(vaults[q.message.vault], now, q.claimed, q.message.call) == Some(w) && !q.message.call.RevokeDevice?
      modifies this
      ensures Transacted(now, Handle(q), answer)
      ensures vaults == if answer == PersistError then old(vaults) else old(vaults)[q.message.vault := w]
      ensures (answer == result || answer == PersistError) && (reliable ==> answer == result)
    {
      hide Act;
      var ok := Commit(Tables(vaults[q.message.vault := w], auth.nonces));
      answer := if ok then result else PersistError;
    }

    method RevokeDevice(now: Time, q: Request) returns (answer: Answer)
      requires q.message.call.RevokeDevice?
      modifies this
      ensures Transacted(now, Handle(q), answer)
      ensures answer == Done ==>
                && q.message.vault in old(vaults)
                && var v, target := old(vaults)[q.message.vault], q.message.call.target;
                Active(v, q.claimed) && Active(v, target) && |ActiveDevices(v)| > 1
      ensures answer == Done <==> Retires(old(Rows()), Rows(), q.message.vault, q.message.call.target)
      ensures reliable && TablesOk(old(Rows())) ==>
                answer ==
                if !MayPass(old(Rows()), now, q) then Unauthorized
                else if q.message.call.target !in old(vaults)[q.message.vault].devices then NotFound
                else if Retires(old(Rows()), Rows(), q.message.vault, q.message.call.target) then Done
                else Conflict
      ensures reliable ==> answer != PersistError
    {
      var auth := AuthenticateDevice(now, q);
      if !auth.Passed? { answer := TurnAway(now, q, auth); return; }
      var v, target := vaults[q.message.vault], q.message.call.target;
      var w, left, result := v, auth.nonces, Done;
      if target !in v.devices { result := NotFound; }
      else if v.devices[target].revokedAt.Some? { result := Conflict; }
      else if |ActiveDevices(v)| <= 1 { result := Conflict; }
      else {
        w := v.(devices := v.devices[target := v.devices[target].(revokedAt := Some(Text(now)))]);
        left := Forget(auth.nonces, q.message.vault, target);
      }
      var ok := Commit(Tables(vaults[q.message.vault := w], left));
      answer := if ok then result else PersistError;
    }

    /** The older approval, for enrollments without an invitation. */
    method ApproveEnrollment(now: Time, q: Request) returns (answer: Answer)
      requires q.message.call.ApproveEnrollment? && TablesOk(Rows())
      modifies this
      ensures Transacted(now, Handle(q), answer)
      ensures answer == Done <==> Admits(old(Rows()), Rows(), q.message.vault, q.message.call.target)
      ensures answer == Done ==> Admission(old(Rows()), now, q, q.message.vault, q.message.call.target)
      ensures reliable ==> (answer == Unauthorized <==> !MayPass(old(Rows()), now, q))
      ensures reliable && MayPass(old(Rows()), now, q) ==>
                var v, c := old(vaults)[q.message.vault], q.message.call;
                && (answer == BadRequest <==> c.envelope.None?)
                && (answer == NotFound <==> c.envelope.Some? && c.target !in v.enrollments)
      ensures reliable ==> answer != PersistError
    {
      var auth := AuthenticateDevice(now, q);
      if !auth.Passed? { answer := TurnAway(now, q, auth); return; }
      var v, call := vaults[q.message.vault], q.message.call;
      if call.envelope.None? { answer := Finish(now, q, auth, v, BadRequest); return; }
      if call.target !in v.enrollments { answer := Finish(now, q, auth, v, NotFound); return; }
      if v.enrollments[call.target].approved { answer := Finish(now, q, auth, v, Conflict); return; }
      if call.target in v.invitations { answer := Finish(now, q, auth, v, Conflict); return; }
      var approved := v.enrollments[call.target].(approved := true, envelope := Some(call.envelope.value));
      if call.target in v.devices { assert false; return PersistError; }
      var w := v.(enrollments := v.enrollments[call.target := approved],
                  devices := v.devices[call.target := DeviceRow(approved.device, None)]);
      answer := Finish(now, q, auth, w, Done);
    }

    method GetInvitation(now: Time, q: Request) returns (answer: Answer, shown: Option<Invitation>)
      requires q.message.call.ReadInvitation?
      modifies this
      ensures Transacted(now, Handle(q), answer)
      ensures shown.Some? ==>
                && answer == Done && q.message.vault in vaults
                && q.message.call.target in vaults[q.message.vault].invitations
                && shown.value == vaults[q.message.vault].invitations[q.message.call.target]
      ensures answer == Done <==> shown.Some?
      ensures reliable ==> answer != PersistError
      ensures reliable && TablesOk(old(Rows())) ==>
                answer ==
                if !MayPass(old(Rows()), now, q) then Unauthorized
                else if q.message.call.target !in old(vaults)[q.message.vault].invitations then NotFound
                else if FromActive(old(vaults)[q.message.vault], q) || q.claimed == q.message.call.target then Done
                else Unauthorized
    {
      shown := None;
      var auth := AuthenticateDevice(now, q);
      if !auth.Passed? { answer := TurnAway(now, q, auth); return; }
      var v, target := vaults[q.message.vault], q.message.call.target;
      if !Invited(v, target) { answer := Finish(now, q, auth, v, NotFound); return; }
      if !Active(v, q.claimed) && q.claimed != target { answer := Finish(now, q, auth, v, Unauthorized); return; }
      var inv := ExpireInvitation(v.invitations[target], now);
      answer := Finish(now, q, auth, WithInvitation(v, target, inv), Done);
      if answer == Done { shown := Some(inv); }
    }

    /** Nothing overdue is left pending, and nothing else changes. */
    method ExpireInvitation(inv: Invitation, now: Time) returns (after: Invitation)
      ensures after == Expire(inv, now)
      ensures after.state == Pending ==> now < after.expiresAt * SECOND
      ensures after != inv <==> inv.state == Pending && now >= inv.expiresAt * SECOND
      ensures after != inv ==>
                after.state == Expired && after.terminalAt.Some? && after.terminalAt.value >= inv.expiresAt
    {
      after := inv;
      if inv.state != Pending { return; }
      if now < inv.expiresAt * SECOND { return; }
      after := inv.(state := Expired, terminalAt := Some(Text(now)), actor := Some("server"));
    }

    /** Expires every overdue invitation of the vault before listing them. */
    method ListInvitations(now: Time, q: Request) returns (answer: Answer, shown: map<Id, Invitation>)
      requires q.message.call.ReadInvitations?
      modifies this
      ensures Transacted(now, Handle(q), answer)
      ensures answer == Done || answer == Unauthorized || answer == PersistError
      ensures reliable ==> (answer == Done <==> Authenticate(old(Rows()), now, q).Passed?)
      ensures answer == Done ==>
                && q.message.vault in vaults
                && (forall id :: id in shown <==> Invited(vaults[q.message.vault], id))
                && (forall id :: id in shown ==> shown[id] == vaults[q.message.vault].invitations[id])
                && forall id :: id in shown && shown[id].state == Pending ==> now < shown[id].expiresAt * SECOND
      ensures answer != Done ==> shown == map[]
    {
      shown := map[];
      var auth := AuthenticateDevice(now, q);
      if !auth.Passed? { answer := TurnAway(now, q, auth); return; }
      var w := ExpireInvitations(vaults[q.message.vault], now);
      answer := Finish(now, q, auth, w, Done);
      if answer == Done { shown := map id | id in w.invitations && id in w.enrollments :: w.invitations[id]; }
    }

    method ExpireInvitations(v: Vault, now: Time) returns (w: Vault)
      ensures w == ExpireAll(v, now)
    {
      hide Expire;
      w := v;
      var left := v.invitations.Keys;
      while left != {}
        invariant left <= v.invitations.Keys && w == v.(invitations := w.invitations)
        invariant w.invitations.Keys == v.invitations.Keys
        invariant forall id :: id in v.invitations ==>
                    w.invitations[id] == if id in v.enrollments && id !in left then Expire(v.invitations[id], now)
                      else v.invitations[id]
        decreases |left|
      {
        var id :| id in left;
        left := left - {id};
        if Invited(v, id) {
          var inv := ExpireInvitation(v.invitations[id], now);
          w := WithInvitation(w, id, inv);
        }
      }
    }

    /** Approves, rejects or cancels; a request that does not fit costs an attempt. */
    method TransitionInvitation(now: Time, q: Request) returns (answer: Answer)
      requires q.message.call.Transition? && TablesOk(Rows())
      modifies this
      ensures Transacted(now, Handle(q), answer)
      ensures answer == Done <==>
                Ends(old(Rows()), Rows(), q.message.vault, q.message.call.target, Ending(q.message.call.verb))
      ensures answer == Done && q.message.call.verb == Approve ==>
                Admits(old(Rows()), Rows(), q.message.vault, q.message.call.target)
      ensures reliable ==> answer != PersistError
    {
      hide Act, VaultOk, EndsIn;
      NothingEnds(Rows(), q.message.vault, q.message.call.target, Ending(q.message.call.verb));
      var auth := AuthenticateDevice(now, q);
      if !auth.Passed? { answer := TurnAway(now, q, auth); return; }
      var w, result := Transition(vaults[q.message.vault], now, q.claimed, q.message.call);
      answer := Finish(now, q, auth, w, result);
    }

    /** What becomes of the vault, and what is answered. */
    method Transition(v: Vault, now: Time, actor: Id, call: Call) returns (w: Vault, answer: Answer)
      requires VaultOk(v) && call.Transition?
      ensures Act(v, now, actor, call) == Some(w) && answer != PersistError
      ensures answer == Done <==> EndsIn(v, w, call.target, Ending(call.verb))
      ensures answer == Done && call.verb == Approve ==> call.target !in v.devices && call.target in w.devices
      ensures answer == NotFound <==> !Invited(v, call.target)
      ensures Invited(v, call.target) ==>
                answer ==
                var inv := v.invitations[call.target];
                if inv.state != Pending || now >= inv.expiresAt * 1_000_000_000 then Conflict
                else if Fitting(v, call.target, actor, call) then Done
                else if inv.failed == 4 then Conflict
                else BadRequest
    {
      if !Invited(v, call.target) {
        NoneUninvited(v, call.target);
        return v, NotFound;
      }
      var inv := ExpireInvitation(v.invitations[call.target], now);
      w := WithInvitation(v, call.target, inv);
      if inv.state != Pending { return w, Conflict; }
      assert InvitationOk(v, call.target);
      var fits := Fits(v, inv, actor, call);
      if !fits {
        var failed := FailInvitationAttempt(inv, now, actor);
        w := WithInvitation(v, call.target, failed);
        return w, if failed.state == AttemptsExhausted then Conflict else BadRequest;
      }
      w := EndInvitation(v, inv, now, actor, call);
      answer := Done;
    }

    /** Role, binding and, for an approval, envelope. */
    method Fits(v: Vault, inv: Invitation, actor: Id, call: Call) returns (ok: bool)
      requires call.Transition? && call.target in v.enrollments
      ensures ok <==>
                && RoleOk(v, call.verb, actor, call.target)
                && BindingOk(inv, v.enrollments[call.target].device, call.binding)
                && (call.verb == Approve ==> call.sealed.wellFormed)
    {
      var device := v.enrollments[call.target].device;
      var active := Active(v, actor);
      var roleOk := (call.verb == Cancel && actor == call.target && !active) || (call.verb != Cancel && active);
      var bindingOk := call.binding.Some? && call.binding.value.version == inv.version &&
                       call.binding.value.device == device.id
                         && call.binding.value.fingerprint == FingerprintOf(device);
      ok := roleOk && bindingOk && (call.verb != Approve || call.sealed.wellFormed);
    }

    /** Ends the invitation as asked; an approval makes the enrollment a device, which it never was before. */
    method EndInvitation(v: Vault, inv: Invitation, now: Time, actor: Id, call: Call) returns (w: Vault)
      requires VaultOk(v) && call.Transition? && Invited(v, call.target)
      requires inv == Expire(v.invitations[call.target], now) && inv.state == Pending
      requires RoleOk(v, call.verb, actor, call.target) && (call.verb == Approve ==> call.sealed.wellFormed)
      requires BindingOk(inv, v.enrollments[call.target].device, call.binding)
      ensures Act(v, now, actor, call) == Some(w)
      ensures call.target in w.invitations && w.invitations[call.target].state == Ending(call.verb)
      ensures call.verb == Approve ==> call.target !in v.devices && call.target in w.devices
    {
      assert InvitationOk(v, call.target) && EnrollmentOk(v, call.target);
      hide VaultOk, InvitationOk, EnrollmentOk, RoleOk, BindingOk, Joined;
      var next := Ending(call.verb);
      w := WithInvitation(v, call.target, inv.(state := next, terminalAt := Some(Text(now)), actor := Some(actor)));
      if call.verb == Approve {
        NotYetAdmitted(v, call.target);
        var approved := v.enrollments[call.target].(approved := true, envelope := Some(call.sealed));
        w := w.(enrollments := w.enrollments[call.target := approved],
                devices := w.devices[call.target := DeviceRow(v.enrollments[call.target].device, None)]);
      }
    }

    method FailInvitationAttempt(inv: Invitation, now: Time, actor: Id) returns (after: Invitation)
      requires inv.state == Pending
      ensures after == FailAttempt(inv, now, actor)
      ensures after.failed == inv.failed + 1 && after.expiresAt == inv.expiresAt && after.version == inv.version
      ensures after.state == AttemptsExhausted <==> after.failed >= MAX_ATTEMPTS
      ensures after.state == Pending <==> after.failed < MAX_ATTEMPTS
    {
      var failed := inv.failed + 1;
      after := inv.(failed := failed, state := Pending, terminalAt := None, actor := None);
      if failed >= MAX_ATTEMPTS {
        after := after.(state := AttemptsExhausted, terminalAt := Some(Text(now)), actor := Some(actor));
      }
    }
  }
}
