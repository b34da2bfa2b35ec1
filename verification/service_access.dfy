/**
 * Who may do what: which requests the service accepts, where every device comes from, and what
 * becomes of a pending invitation, each stated of the requests themselves.
 */
module ServiceAccess {
  import opened Basics
  import opened ServiceVault
  import opened Service

  // ----- Which requests are accepted -----------------------------------------------------------

  /** Signed with the key of an active device. */
  predicate FromActive(v: Vault, q: Request) {
    && q.claimed in v.devices && v.devices[q.claimed].revokedAt.None?
    && q.signer == Some(v.devices[q.claimed].device.signing)
  }

  /** Signed with the key of an enrollment that is not a device yet, and one of the calls it may make. */
  predicate FromPending(v: Vault, q: Request) {
    && q.claimed !in v.devices && q.claimed in v.enrollments
    && q.signer == Some(v.enrollments[q.claimed].device.signing)
    && var c := q.message.call; c.ReadEnrollment? || c.ReadInvitation? || c.Transition?
  }

  /** Stamped at most five minutes before or after the clock. */
  predicate InTime(q: Request, now: Time) {
    q.message.timestamp.Some? && -300_000_000_000 <= now - q.message.timestamp.value * 1_000_000_000 <= 300_000_000_000
  }

  /**
   * From an active device, or from a pending one that may make this call, in time and with a nonce
   * that is not known.
   */
  predicate MayPass(t: Tables, now: Time, q: Request) {
    && q.message.vault in t.vaults && q.claimed != "" && InTime(q, now)
    && (FromActive(t.vaults[q.message.vault], q) || FromPending(t.vaults[q.message.vault], q))
    && q.message.nonce.Some? && NonceKey(q.message.vault, q.claimed, q.message.nonce.value) !in t.nonces
  }

  /** These are the requests that are accepted, and no others. */
  lemma AcceptedExactly(t: Tables, now: Time, q: Request)
    requires TablesOk(t)
    ensures Accepts(t, now, q) <==> MayPass(t, now, q)
    ensures Authenticate(t, now, q).Passed? <==> MayPass(t, now, q)
  {
    if q.message.vault in t.vaults {
      var v := t.vaults[q.message.vault];
      IdentityIs(v, q.claimed);
      ActKeeps(v, now, q.claimed, q.message.call);
    }
    hide VaultOk, Act;
  }

  /** A revoked device is never heard again. */
  lemma RevokedIsSilent(run: seq<Tables>, clock: seq<Time>, events: seq<Event>, i: nat, j: nat)
    requires IsRun(run, clock, events) && run[0] == Tables(map[], map[]) && i <= j < |events| && events[j].Handle?
    requires Gone(run[i], events[j].request.message.vault, events[j].request.claimed)
    ensures !Accepts(run[j], clock[j], events[j].request)
  {
    RunsStayOk(run, clock, events, j);
    GoneForever(run, clock, events, i, j, events[j].request.message.vault, events[j].request.claimed);
    hide TablesOk, Accepts;
    AcceptedExactly(run[j], clock[j], events[j].request);
  }

  lemma {:induction false} GoneForever(run: seq<Tables>, clock: seq<Time>, events: seq<Event>, i: nat, j: nat,
                                       v: VaultId, id: Id)
    requires IsRun(run, clock, events) && i <= j < |run| && Gone(run[i], v, id)
    ensures Gone(run[j], v, id)
    decreases j
  {
    if i < j {
      GoneForever(run, clock, events, i, j - 1, v, id);
      assert Enabled(run[j - 1], events[j - 1]);
      hide Gone, Next, Enabled;
      ActKeepsGone(run[j - 1], clock[j - 1], events[j - 1], v, id);
    }
  }

  /**
   * Which nonces are known once a request was accepted: its own, and the earlier ones of the last
   * ten minutes, in whole seconds, unless it revoked their device.
   */
  lemma NoncesExactly(t: Tables, now: Time, q: Request, k: NonceKey)
    requires TablesOk(t) && Accepts(t, now, q)
    ensures q.message.vault in Serve(t, now, q).vaults
    ensures var own := NonceKey(q.message.vault, q.claimed, q.message.nonce.value);
            var v, w := t.vaults[q.message.vault], Serve(t, now, q).vaults[q.message.vault];
            k in Serve(t, now, q).nonces <==>
              && (k == own || (k in t.nonces && t.nonces[k] >= (now - 600_000_000_000) / 1_000_000_000))
              && !(k.vault == q.message.vault && k.device in v.devices && k.device in w.devices
                   && v.devices[k.device].revokedAt.None? && w.devices[k.device].revokedAt.Some?)
    ensures k in Serve(t, now, q).nonces ==>
              Serve(t, now, q).nonces[k] ==
                if k == NonceKey(q.message.vault, q.claimed, q.message.nonce.value) then now / 1_000_000_000
                else t.nonces[k]
  {
    var v, c := t.vaults[q.message.vault], q.message.call;
    IdentityIs(v, q.claimed);
    OnlyRevocationRevokes(v, now, q.claimed, c, k.device);
    hide VaultOk, Act;
  }

  /** Signed with the key of a device or an enrollment, whether or not it may do anything. */
  predicate FromKnown(v: Vault, q: Request) {
    if q.claimed in v.devices then q.signer == Some(v.devices[q.claimed].device.signing)
    else q.claimed in v.enrollments && q.signer == Some(v.enrollments[q.claimed].device.signing)
  }

  /**
   * A request that is not accepted changes no vault. It leaves its nonce behind if it was rightly
   * signed, in time and fresh, so that it is not even denied twice, and nothing at all otherwise.
   */
  lemma RefusedLeavesNonce(t: Tables, now: Time, q: Request)
    requires TablesOk(t) && !MayPass(t, now, q)
    ensures Serve(t, now, q).vaults == t.vaults
    ensures if q.message.vault in t.vaults && q.claimed != "" && InTime(q, now) && q.message.nonce.Some?
                 && FromKnown(t.vaults[q.message.vault], q)
                 && NonceKey(q.message.vault, q.claimed, q.message.nonce.value) !in t.nonces
            then
              var own, nonces := NonceKey(q.message.vault, q.claimed, q.message.nonce.value), Serve(t, now, q).nonces;
              && own in nonces && nonces[own] == now / 1_000_000_000
              && forall k :: k != own ==>
                   && (k in nonces <==> k in t.nonces && t.nonces[k] >= (now - 600_000_000_000) / 1_000_000_000)
                   && (k in nonces ==> nonces[k] == t.nonces[k])
            else Serve(t, now, q) == t
  {
    AcceptedExactly(t, now, q);
    if q.message.vault in t.vaults { IdentityIs(t.vaults[q.message.vault], q.claimed); }
    hide VaultOk, Act;
  }

  /**
   * What a request makes of a device: dated as revoked, if that is what is asked and another device
   * is active; and nothing otherwise.
   */
  lemma DeviceBecomes(v: Vault, now: Time, actor: Id, c: Call, id: Id)
    requires Act(v, now, actor, c).Some? && id in v.devices
    ensures id in Act(v, now, actor, c).value.devices
    ensures Act(v, now, actor, c).value.devices[id] ==
              if c.RevokeDevice? && c.target == id && v.devices[id].revokedAt.None?
                 && exists other :: other != id && other in v.devices && v.devices[other].revokedAt.None?
              then DeviceRow(v.devices[id].device, Some(now / 1_000_000_000))
              else v.devices[id]
  {
    if v.devices[id].revokedAt.None? { OthersAreActive(v, id); }
  }

  lemma OthersAreActive(v: Vault, id: Id)
    requires id in v.devices && v.devices[id].revokedAt.None?
    ensures |ActiveDevices(v)| > 1 <==>
              exists other :: other != id && other in v.devices && v.devices[other].revokedAt.None?
  {
    var others := ActiveDevices(v) - {id};
    assert ActiveDevices(v) == others + {id};
    if other :| other != id && other in v.devices && v.devices[other].revokedAt.None? { assert other in others; }
    if |others| > 0 {
      var other :| other in others;
      assert other != id && other in v.devices;
    }
  }

  lemma OnlyRevocationRevokes(v: Vault, now: Time, actor: Id, c: Call, id: Id)
    requires Act(v, now, actor, c).Some?
    ensures var w := Act(v, now, actor, c).value;
            id in v.devices ==>
              && id in w.devices
              && (v.devices[id].revokedAt.None? && w.devices[id].revokedAt.Some? <==> Revokes(v, c) && c.target == id)
    ensures Revokes(v, c) ==> c.target in v.devices && v.devices[c.target].revokedAt.None?
  {
  }

  // ----- Where devices come from ---------------------------------------------------------------

  /** The request admits the enrollment: an active device asks for it, or approves its invitation as it should be. */
  predicate Admission(t: Tables, now: Time, q: Request, v: VaultId, id: Id) {
    && q.message.vault == v && v in t.vaults
    && var w, c := t.vaults[v], q.message.call;
       && q.claimed in w.devices && w.devices[q.claimed].revokedAt.None? && id in w.enrollments && id !in w.devices
       && (|| (c.ApproveEnrollment? && c.target == id && c.envelope.Some? && id !in w.invitations)
           || Earns(w, now, q, id))
  }

  predicate IsDevice(t: Tables, v: VaultId, id: Id) { v in t.vaults && id in t.vaults[v].devices }

  lemma AdmittedBy(v: Vault, now: Time, actor: Id, c: Call, id: Id)
    requires VaultOk(v) && Act(v, now, actor, c).Some? && id !in v.devices && id in Act(v, now, actor, c).value.devices
    ensures id in v.enrollments && Act(v, now, actor, c).value.devices[id].device == v.enrollments[id].device
    ensures || (c.ApproveEnrollment? && c.target == id && c.envelope.Some? && id !in v.invitations)
            || (id in v.invitations && v.invitations[id].state == Pending && c.Transition?
                && id in Act(v, now, actor, c).value.invitations
                && Act(v, now, actor, c).value.invitations[id].state == Approved)
  {
  }

  /**
   * What a request makes of an enrollment: approved with the very envelope it brings, and an active
   * device with the enrolled keys, both or neither.
   */
  lemma EnrollmentBecomes(v: Vault, now: Time, actor: Id, c: Call, id: Id)
    requires Act(v, now, actor, c).Some? && id in v.enrollments
    ensures var w := Act(v, now, actor, c).value;
            && id in w.enrollments
            && if id !in v.devices && id in w.devices then
                 && w.devices[id] == DeviceRow(v.enrollments[id].device, None)
                 && ((c.ApproveEnrollment? && c.envelope.Some?) || c.Transition?)
                 && w.enrollments[id] ==
                    Enrollment(v.enrollments[id].device, true, if c.Transition? then Some(c.sealed) else c.envelope)
               else w.enrollments[id] == v.enrollments[id]
  {
  }

  lemma DeviceStep(t: Tables, now: Time, e: Event, v: VaultId, id: Id)
    requires TablesOk(t) && Enabled(t, e) && IsDevice(Next(t, now, e), v, id) && !IsDevice(t, v, id)
    ensures || (e.Found? && e.vault == v && e.device.id == id
              && Next(t, now, e).vaults[v].devices[id].device == e.device)
            || (e.Handle? && Accepts(t, now, e.request) && Admission(t, now, e.request, v, id)
                && Next(t, now, e).vaults[v].devices[id].device == t.vaults[v].enrollments[id].device)
  {
    hide VaultOk, Act;
    if e.Handle? && Accepts(t, now, e.request) && e.request.message.vault == v {
      var q := e.request;
      AcceptedExactly(t, now, q);
      AdmittedBy(t.vaults[v], now, q.claimed, q.message.call, id);
      if !q.message.call.ApproveEnrollment? {
        ApprovalIsEarned(t.vaults[v], now, q.claimed, q.message.call, id);
      }
    }
  }

  lemma DeviceRemains(t: Tables, now: Time, e: Event, v: VaultId, id: Id)
    requires Enabled(t, e) && IsDevice(t, v, id)
    ensures IsDevice(Next(t, now, e), v, id)
    ensures Next(t, now, e).vaults[v].devices[id].device == t.vaults[v].devices[id].device
  {
    hide Act;
    if e.Handle? && Accepts(t, now, e.request) && e.request.message.vault == v {
      DevicesStay(t.vaults[v], now, e.request.claimed, e.request.message.call, id);
    }
  }

  /**
   * Every device of a reachable vault founded it, or was admitted by one accepted request that an
   * active device of the vault made for it, and has had its enrolled keys ever since.
   */
  lemma {:induction false} DeviceWasAdmitted(run: seq<Tables>, clock: seq<Time>, events: seq<Event>, k: nat, v: VaultId,
                                             id: Id) returns (j: nat)
    requires IsRun(run, clock, events) && run[0] == Tables(map[], map[]) && k < |run| && IsDevice(run[k], v, id)
    ensures j < k && !IsDevice(run[j], v, id)
    ensures || (events[j].Found? && events[j].vault == v && events[j].device.id == id
                && run[k].vaults[v].devices[id].device == events[j].device)
            || (events[j].Handle? && Accepts(run[j], clock[j], events[j].request)
                && Admission(run[j], clock[j], events[j].request, v, id)
                && run[k].vaults[v].devices[id].device == run[j].vaults[v].enrollments[id].device)
  {
    assert k > 0;
    RunsStayOk(run, clock, events, k - 1);
    assert Enabled(run[k - 1], events[k - 1]);
    if IsDevice(run[k - 1], v, id) {
      j := DeviceWasAdmitted(run, clock, events, k - 1, v, id);
      hide TablesOk, Enabled, Next, Accepts, Admission;
      DeviceRemains(run[k - 1], clock[k - 1], events[k - 1], v, id);
    } else {
      j := k - 1;
      hide TablesOk, Next, Accepts, Admission;
      DeviceStep(run[j], clock[j], events[j], v, id);
    }
  }

  // ----- What becomes of a pending invitation --------------------------------------------------

  /** The actor may end it so, and confirms its version, device and keys. */
  predicate Fitting(v: Vault, id: Id, actor: Id, c: Call)
    requires c.Transition? && id in v.invitations && id in v.enrollments
  {
    var active := actor in v.devices && v.devices[actor].revokedAt.None?;
    var device := v.enrollments[id].device;
    && (if c.verb.Cancel? then actor == id && !active else active)
    && c.binding == Some(Binding(v.invitations[id].version, device.id, Fingerprint(device.signing, device.wrapping)))
    && (c.verb.Approve? ==> c.sealed.wellFormed)
  }

  /** The request looks at the invitation. */
  predicate LooksAt(v: Vault, id: Id, actor: Id, c: Call) {
    || c.ReadInvitations?
    || (c.Transition? && c.target == id)
    || (c.ReadInvitation? && c.target == id &&
        (actor == id || (actor in v.devices && v.devices[actor].revokedAt.None?)))
  }

  /**
   * What one request makes of a pending invitation: overdue, it expires at the first look; in time,
   * it ends as asked if everything fits, costs an attempt if something does not, the fifth of which
   * exhausts it, and is left alone by every other request.
   */
  lemma PendingBecomes(v: Vault, now: Time, actor: Id, c: Call, id: Id)
    requires VaultOk(v) && Act(v, now, actor, c).Some? && id in v.invitations && v.invitations[id].state == Pending
    ensures id in v.enrollments && id in Act(v, now, actor, c).value.invitations
    ensures var inv, after, text :=
              v.invitations[id], Act(v, now, actor, c).value.invitations[id], Some(now / 1_000_000_000);
            if LooksAt(v, id, actor, c) && now >= inv.expiresAt * 1_000_000_000 then
              after == inv.(state := Expired, terminalAt := text, actor := Some("server"))
            else if c.Transition? && c.target == id then
              if !Fitting(v, id, actor, c) then
                if inv.failed == 4 then
                  after == inv.(failed := 5, state := AttemptsExhausted, terminalAt := text, actor := Some(actor))
                else
                  after.failed == inv.failed + 1 && after.state == Pending && after.terminalAt == None
                  && after.version == inv.version && after.expiresAt == inv.expiresAt
              else
                match c.verb
                case Approve => after == inv.(state := Approved, terminalAt := text, actor := Some(actor))
                case Reject => after == inv.(state := Rejected, terminalAt := text, actor := Some(actor))
                case Cancel => after == inv.(state := Cancelled, terminalAt := text, actor := Some(actor))
            else after == inv
  {
    assert InvitationOk(v, id) && EnrollmentOk(v, id);
    hide VaultOk, EnrollmentOk, InvitationOk;
  }

  /** Made by one request of the run, for ten minutes in whole seconds, for the device it still names. */
  predicate MadeBy(e: Event, now: Time, v: VaultId, w: Vault, id: Id) {
    && e.Invite? && e.vault == v && e.device.id == id
    && id in w.invitations && w.invitations[id].version == 1
    && w.invitations[id].expiresAt == (now + 600_000_000_000) / 1_000_000_000
    && id in w.enrollments && w.enrollments[id].device == e.device
  }

  lemma MadeStep(t: Tables, now: Time, e: Event, v: VaultId, id: Id)
    requires Enabled(t, e) && v in Next(t, now, e).vaults && id in Next(t, now, e).vaults[v].invitations
    ensures || MadeBy(e, now, v, Next(t, now, e).vaults[v], id)
            || (v in t.vaults && id in t.vaults[v].invitations)
  {
    hide Act;
    if e.Handle? && Accepts(t, now, e.request) {
      var q := e.request;
      InvitationsAreNotMade(t.vaults[q.message.vault], now, q.claimed, q.message.call, id);
    }
  }

  lemma TermsStay(v: Vault, now: Time, actor: Id, c: Call, id: Id)
    requires Act(v, now, actor, c).Some? && id in v.invitations
    ensures var w := Act(v, now, actor, c).value;
            && id in w.invitations && w.invitations[id].version == v.invitations[id].version
            && w.invitations[id].expiresAt == v.invitations[id].expiresAt
  {
  }

  lemma MadeStays(t: Tables, now: Time, e: Event, v: VaultId, id: Id, maker: Event, at: Time)
    requires Enabled(t, e) && v in t.vaults && MadeBy(maker, at, v, t.vaults[v], id)
    ensures v in Next(t, now, e).vaults && MadeBy(maker, at, v, Next(t, now, e).vaults[v], id)
  {
    hide Act;
    if e.Handle? && Accepts(t, now, e.request) && e.request.message.vault == v {
      var q := e.request;
      TermsStay(t.vaults[v], now, q.claimed, q.message.call, id);
      EnrollmentsStay(t.vaults[v], now, q.claimed, q.message.call, id);
    }
  }

  lemma {:induction false} InvitationWasMade(run: seq<Tables>, clock: seq<Time>, events: seq<Event>, k: nat, v: VaultId,
                                             id: Id) returns (i: nat)
    requires IsRun(run, clock, events) && run[0] == Tables(map[], map[]) && k < |run|
    requires v in run[k].vaults && id in run[k].vaults[v].invitations
    ensures i < k && MadeBy(events[i], clock[i], v, run[k].vaults[v], id)
  {
    assert k > 0;
    assert Enabled(run[k - 1], events[k - 1]);
    hide Enabled, Next, MadeBy;
    MadeStep(run[k - 1], clock[k - 1], events[k - 1], v, id);
    if MadeBy(events[k - 1], clock[k - 1], v, run[k].vaults[v], id) {
      i := k - 1;
    } else {
      i := InvitationWasMade(run, clock, events, k - 1, v, id);
      MadeStays(run[k - 1], clock[k - 1], events[k - 1], v, id, events[i], clock[i]);
    }
  }

  /** An approved invitation was approved less than ten minutes after it was made. */
  lemma ApprovedInTime(run: seq<Tables>, clock: seq<Time>, events: seq<Event>, k: nat, v: VaultId, id: Id)
    returns (i: nat, j: nat)
    requires IsRun(run, clock, events) && run[0] == Tables(map[], map[]) && k < |run| && IsApproved(run[k], v, id)
    ensures i < j < k && events[i].Invite? && events[i].vault == v && events[i].device.id == id
    ensures events[j].Handle? && Accepts(run[j], clock[j], events[j].request)
              && v in run[j].vaults && Earns(run[j].vaults[v], clock[j], events[j].request, id)
    ensures 0 <= clock[j] - clock[i] < 600_000_000_000
  {
    j := ApprovedWasEarned(run, clock, events, k, v, id);
    i := InvitationWasMade(run, clock, events, j, v, id);
    hide Accepts;
  }
}
