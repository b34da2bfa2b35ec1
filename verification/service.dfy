/** The sync service: authenticated requests over many vaults, and why none is accepted twice. */
module Service {
  import opened Basics
  import opened ServiceVault

  const WINDOW := 300
  const RETENTION := 600

  type VaultId = string

  /** The signed part of a request: the call and its path, a timestamp and a nonce; not the device header. */
  datatype Message = Message(vault: VaultId, call: Call, timestamp: Option<int>, nonce: Option<string>)

  /** Signatures are ideal: a request says whose key signed exactly this message, if anybody's. */
  datatype Request = Request(claimed: Id, message: Message, signer: Option<Key>)

  datatype NonceKey = NonceKey(vault: VaultId, device: Id, nonce: string)

  datatype Tables = Tables(vaults: map<VaultId, Vault>, nonces: map<NonceKey, int>)

  // ----- Authentication ------------------------------------------------------------------------

  predicate Timely(timestamp: Option<int>, now: Time) {
    timestamp.Some? && -WINDOW * SECOND <= now - timestamp.value * SECOND <= WINDOW * SECOND
  }

  function Prune(nonces: map<NonceKey, int>, now: Time): map<NonceKey, int> {
    map k | k in nonces && nonces[k] >= Text(now - RETENTION * SECOND) :: nonces[k]
  }

  function Identity(v: Vault, id: Id): Option<Device> {
    if id in v.devices then Some(v.devices[id].device)
    else if id in v.enrollments then Some(v.enrollments[id].device)
    else None
  }

  predicate Authorized(v: Vault, id: Id, c: Call) {
    if id in v.devices then v.devices[id].revokedAt.None? else AllowsPending(c)
  }

  datatype Auth = Refused | Denied(nonces: map<NonceKey, int>) | Passed(nonces: map<NonceKey, int>)

  /** Who signed is settled before what they may do; a known nonce ends the matter either way. */
  function Authenticate(t: Tables, now: Time, q: Request): Auth {
    var m := q.message;
    if m.vault !in t.vaults then Refused
    else
      var v := t.vaults[m.vault];
      var device := Identity(v, q.claimed);
      if device.None? || device.value.id == "" || q.signer != Some(device.value.signing) then Refused
      else if !Timely(m.timestamp, now) || m.nonce.None? then Refused
      else
        var key := NonceKey(m.vault, device.value.id, m.nonce.value);
        if key in t.nonces then Refused
        else
          var nonces := Prune(t.nonces[key := Text(now)], now);
          if Authorized(v, q.claimed, m.call) then Passed(nonces) else Denied(nonces)
  }

  function Forget(nonces: map<NonceKey, int>, vault: VaultId, device: Id): map<NonceKey, int> {
    map k | k in nonces && !(k.vault == vault && k.device == device) :: nonces[k]
  }

  predicate Revokes(v: Vault, c: Call) { c.RevokeDevice? && Active(v, c.target) && |ActiveDevices(v)| > 1 }

  /** One transaction; an undone one leaves the tables as they were. */
  function Serve(t: Tables, now: Time, q: Request): Tables {
    match Authenticate(t, now, q)
    case Refused => t
    case Denied(nonces) => t.(nonces := nonces)
    case Passed(nonces) =>
      var m := q.message;
      var v := t.vaults[m.vault];
      match Act(v, now, q.claimed, m.call)
      case None => t
      case Some(w) =>
        Tables(t.vaults[m.vault := w],
               if Revokes(v, m.call) then Forget(nonces, m.vault, m.call.target) else nonces)
  }

  /** The request was authenticated and authorized, and its transaction committed. */
  predicate Accepts(t: Tables, now: Time, q: Request) {
    Authenticate(t, now, q).Passed? && Act(t.vaults[q.message.vault], now, q.claimed, q.message.call).Some?
  }

  // ----- Runs ----------------------------------------------------------------------------------

  /** One transaction of the service; identifiers it makes up are new. */
  datatype Event =
    | Found(vault: VaultId, device: Device)
    | Enroll(vault: VaultId, device: Device)
    | Invite(vault: VaultId, device: Device)
    | Handle(request: Request)
    | Undone

  predicate Enabled(t: Tables, e: Event) {
    match e
    case Found(v, d) => v !in t.vaults && d.id != ""
    case Enroll(v, d) => v in t.vaults && Unused(t.vaults[v], d.id) && d.id != ""
    case Invite(v, d) => v in t.vaults && Unused(t.vaults[v], d.id) && d.id != ""
    case Handle(_) => true
    case Undone => true
  }

  function Next(t: Tables, now: Time, e: Event): Tables {
    match e
    case Found(v, d) => t.(vaults := t.vaults[v := Founded(d)])
    case Enroll(v, d) => if v in t.vaults then t.(vaults := t.vaults[v := Enrolled(t.vaults[v], d)]) else t
    case Invite(v, d) => if v in t.vaults
      then t.(vaults := t.vaults[v := ServiceVault.Invite(t.vaults[v], d, PROTOCOL_VERSION, now)]) else t
    case Handle(q) => Serve(t, now, q)
    case Undone => t
  }

  /** Serialized transactions under a clock that never goes back; clock[k] is read by event k. */
  ghost predicate IsRun(run: seq<Tables>, clock: seq<Time>, events: seq<Event>) {
    && |run| == |events| + 1 && |clock| == |events|
    && (forall j, k :: 0 <= j <= k < |clock| ==> clock[j] <= clock[k])
    && forall k {:trigger events[k]} :: 0 <= k < |events| ==>
         Enabled(run[k], events[k]) && run[k + 1] == Next(run[k], clock[k], events[k])
  }

  predicate TablesOk(t: Tables) {
    forall v :: v in t.vaults ==> VaultOk(t.vaults[v])
  }

  lemma NextKeeps(t: Tables, now: Time, e: Event)
    requires TablesOk(t) && Enabled(t, e)
    ensures TablesOk(Next(t, now, e))
  {
    hide VaultOk, Act;
    match e
    case Found(v, d) => FoundedOk(d);
    case Enroll(v, d) => InviteOk(t.vaults[v], d, PROTOCOL_VERSION, now);
    case Invite(v, d) => InviteOk(t.vaults[v], d, PROTOCOL_VERSION, now);
    case Handle(q) =>
      if Authenticate(t, now, q).Passed? { ActKeeps(t.vaults[q.message.vault], now, q.claimed, q.message.call); }
    case Undone =>
  }

  lemma {:induction false} RunsStayOk(run: seq<Tables>, clock: seq<Time>, events: seq<Event>, k: nat)
    requires IsRun(run, clock, events) && run[0] == Tables(map[], map[]) && k < |run|
    ensures TablesOk(run[k])
  {
    hide TablesOk, Enabled, Next;
    if k == 0 {
      NothingYet();
    } else {
      RunsStayOk(run, clock, events, k - 1);
      assert Enabled(run[k - 1], events[k - 1]);
      NextKeeps(run[k - 1], clock[k - 1], events[k - 1]);
    }
  }

  lemma NothingYet()
    ensures TablesOk(Tables(map[], map[]))
  {
  }

  /** In every reachable state: somebody active in each vault, and every invitation is what it says. */
  lemma ReachableVaults(run: seq<Tables>, clock: seq<Time>, events: seq<Event>, k: nat, v: VaultId)
    requires IsRun(run, clock, events) && run[0] == Tables(map[], map[]) && k < |run| && v in run[k].vaults
    ensures exists id :: Active(run[k].vaults[v], id)
    ensures forall id :: id in run[k].vaults[v].invitations ==>
              var inv := run[k].vaults[v].invitations[id];
              && (inv.state == Approved <==> Joined(run[k].vaults[v], id))
              && (inv.state == AttemptsExhausted <==> inv.failed == MAX_ATTEMPTS)
              && (inv.state == Pending ==> inv.failed < MAX_ATTEMPTS)
  {
    RunsStayOk(run, clock, events, k);
    var w := run[k].vaults[v];
    assert VaultOk(w);
    var id :| id in ActiveDevices(w);
    assert Active(w, id);
    forall id | id in w.invitations
      ensures (w.invitations[id].state == Approved <==> Joined(w, id)) &&
              (w.invitations[id].state == AttemptsExhausted <==> w.invitations[id].failed == MAX_ATTEMPTS) &&
              (w.invitations[id].state == Pending ==> w.invitations[id].failed < MAX_ATTEMPTS)
    {
      ApprovedExactly(w, id);
    }
  }

  lemma TerminalStep(t: Tables, now: Time, e: Event, v: VaultId, id: Id)
    requires Enabled(t, e) && v in t.vaults && id in t.vaults[v].invitations
               && t.vaults[v].invitations[id].state != Pending
    ensures var u := Next(t, now, e);
            v in u.vaults && id in u.vaults[v].invitations && u.vaults[v].invitations[id] == t.vaults[v].invitations[id]
  {
    hide Act;
    if e.Handle? && Accepts(t, now, e.request) && e.request.message.vault == v {
      TerminalStays(t.vaults[v], now, e.request.claimed, e.request.message.call, id);
    }
  }

  /** An invitation that is not pending is the same for the rest of the run. */
  lemma {:induction false} TerminalForever(run: seq<Tables>, clock: seq<Time>, events: seq<Event>, i: nat, j: nat,
                                           v: VaultId, id: Id)
    requires IsRun(run, clock, events) && i <= j < |run|
    requires v in run[i].vaults && id in run[i].vaults[v].invitations
               && run[i].vaults[v].invitations[id].state != Pending
    ensures v in run[j].vaults && id in run[j].vaults[v].invitations
    ensures run[j].vaults[v].invitations[id] == run[i].vaults[v].invitations[id]
    decreases j
  {
    if i < j {
      TerminalForever(run, clock, events, i, j - 1, v, id);
      assert Enabled(run[j - 1], events[j - 1]);
      hide Enabled, Next;
      TerminalStep(run[j - 1], clock[j - 1], events[j - 1], v, id);
    }
  }

  /**
   * The request approves the invitation as it should be: an active device other than the invited
   * one asks, in time, with the invitation's own version, device and keys and a well-formed envelope.
   */
  predicate Earns(v: Vault, now: Time, q: Request, id: Id) {
    && id in v.invitations && id in v.enrollments && v.invitations[id].state == Pending
    && Active(v, q.claimed) && q.claimed != id && now < v.invitations[id].expiresAt * SECOND
    && var c := q.message.call;
       && c.Transition? && c.target == id && c.verb == Approve && c.sealed.wellFormed
       && c.binding == Some(Binding(v.invitations[id].version, id, FingerprintOf(v.enrollments[id].device)))
  }

  predicate IsApproved(t: Tables, v: VaultId, id: Id) {
    v in t.vaults && id in t.vaults[v].invitations && t.vaults[v].invitations[id].state == Approved
  }

  lemma ApprovalStep(t: Tables, now: Time, e: Event, v: VaultId, id: Id)
    requires TablesOk(t) && Enabled(t, e) && IsApproved(Next(t, now, e), v, id) && !IsApproved(t, v, id)
    ensures e.Handle? && Accepts(t, now, e.request) && e.request.message.vault == v
              && Earns(t.vaults[v], now, e.request, id)
    ensures Joined(Next(t, now, e).vaults[v], id)
    ensures Next(t, now, e).vaults[v].enrollments[id].envelope == Some(e.request.message.call.sealed)
    ensures Next(t, now, e).vaults[v].devices[id].device == t.vaults[v].enrollments[id].device
  {
    hide VaultOk, Act;
    if e.Handle? && Accepts(t, now, e.request) {
      var q := e.request;
      InvitationsAreNotMade(t.vaults[q.message.vault], now, q.claimed, q.message.call, id);
      if q.message.vault == v { ApprovalIsEarned(t.vaults[v], now, q.claimed, q.message.call, id); }
    }
  }

  lemma InvitationsAreNotMade(v: Vault, now: Time, actor: Id, c: Call, id: Id)
    requires Act(v, now, actor, c).Some?
    ensures id in Act(v, now, actor, c).value.invitations <==> id in v.invitations
  {
  }

  /** Every approved invitation of a reachable state was earned by one request of the run. */
  lemma {:induction false} ApprovedWasEarned(run: seq<Tables>, clock: seq<Time>, events: seq<Event>, k: nat, v: VaultId,
                                             id: Id)
    returns (j: nat)
    requires IsRun(run, clock, events) && run[0] == Tables(map[], map[]) && k < |run| && IsApproved(run[k], v, id)
    ensures j < k && !IsApproved(run[j], v, id) && IsApproved(run[j + 1], v, id)
    ensures run[k].vaults[v].invitations[id] == run[j + 1].vaults[v].invitations[id]
    ensures events[j].Handle? && Accepts(run[j], clock[j], events[j].request) && events[j].request.message.vault == v
    ensures Earns(run[j].vaults[v], clock[j], events[j].request, id)
    ensures Joined(run[j + 1].vaults[v], id)
    ensures run[j + 1].vaults[v].enrollments[id].envelope == Some(events[j].request.message.call.sealed)
    ensures run[j + 1].vaults[v].devices[id].device == run[j].vaults[v].enrollments[id].device
  {
    assert k > 0;
    RunsStayOk(run, clock, events, k - 1);
    assert Enabled(run[k - 1], events[k - 1]);
    if IsApproved(run[k - 1], v, id) {
      j := ApprovedWasEarned(run, clock, events, k - 1, v, id);
      TerminalForever(run, clock, events, k - 1, k, v, id);
    } else {
      j := k - 1;
      hide TablesOk, Next, Accepts, Earns;
      ApprovalStep(run[j], clock[j], events[j], v, id);
    }
  }

  // ----- No request is accepted twice ----------------------------------------------------------

  predicate Gone(t: Tables, v: VaultId, id: Id) {
    v in t.vaults && id in t.vaults[v].devices && t.vaults[v].devices[id].revokedAt.Some?
  }

  /**
   * A nonce accepted at `at` can do no more harm: it is still known, or its device is revoked, or
   * the clock has passed every moment its timestamp could be timely.
   */
  predicate Spent(t: Tables, clock: Time, key: NonceKey, at: Time) {
    (key in t.nonces && t.nonces[key] >= Text(at)) || Gone(t, key.vault, key.device)
      || Text(clock - RETENTION * SECOND) > Text(at)
  }

  lemma ActKeepsGone(t: Tables, now: Time, e: Event, v: VaultId, id: Id)
    requires Enabled(t, e) && Gone(t, v, id)
    ensures Gone(Next(t, now, e), v, id)
  {
    match e
    case Handle(q) =>
      if Accepts(t, now, q) && q.message.vault == v {
        DevicesStay(t.vaults[v], now, q.claimed, q.message.call, id);
      }
    case _ =>
  }

  lemma StillSpent(t: Tables, before: Time, now: Time, e: Event, key: NonceKey, at: Time)
    requires Enabled(t, e) && before <= now && Spent(t, before, key, at)
    ensures Spent(Next(t, now, e), now, key, at)
  {
    if Gone(t, key.vault, key.device) {
      ActKeepsGone(t, now, e, key.vault, key.device);
    } else if Text(before - RETENTION * SECOND) > Text(at) {
    } else if e.Handle? && Authenticate(t, now, e.request) != Refused && !(Text(now - RETENTION * SECOND) > Text(at)) {
      NonceKept(t, now, e.request, key, at);
    }
  }

  /** Only pruning and the revocation of its device forget a nonce. */
  lemma NonceKept(t: Tables, now: Time, q: Request, key: NonceKey, at: Time)
    requires key in t.nonces && t.nonces[key] >= Text(at) && Text(now - RETENTION * SECOND) <= Text(at)
    ensures var after := Serve(t, now, q);
            (key in after.nonces && after.nonces[key] >= Text(at)) || Gone(after, key.vault, key.device)
  {
    if Accepts(t, now, q) && Revokes(t.vaults[q.message.vault], q.message.call) {
      var v := t.vaults[q.message.vault];
      assert Act(v, now, q.claimed, q.message.call) == Some(Revoked(v, now, q.message.call.target));
    }
  }

  lemma IdentityIs(v: Vault, id: Id)
    requires VaultOk(v)
    ensures Identity(v, id).Some? ==> Identity(v, id).value.id == id
  {
    if id in v.enrollments { assert EnrollmentOk(v, id); }
  }

  lemma AcceptanceSpends(t: Tables, now: Time, q: Request)
    requires Accepts(t, now, q) && TablesOk(t)
    ensures Spent(Serve(t, now, q), now, NonceKey(q.message.vault, q.claimed, q.message.nonce.value), now)
  {
    var v := t.vaults[q.message.vault];
    IdentityIs(v, q.claimed);
    var key := NonceKey(q.message.vault, q.claimed, q.message.nonce.value);
    assert key in Prune(t.nonces[key := Text(now)], now);
    if Revokes(v, q.message.call) && q.message.call.target == q.claimed {
      assert Act(v, now, q.claimed, q.message.call) == Some(Revoked(v, now, q.claimed));
    }
  }

  lemma SpentIsRefused(t: Tables, before: Time, now: Time, q: Request, key: NonceKey, at: Time)
    requires TablesOk(t) && before <= now && Spent(t, before, key, at)
    requires q.message.nonce.Some? && key == NonceKey(q.message.vault, q.claimed, q.message.nonce.value)
    requires Timely(q.message.timestamp, at)
    ensures !Accepts(t, now, q)
  {
    if q.message.vault in t.vaults { IdentityIs(t.vaults[q.message.vault], q.claimed); }
  }

  lemma {:induction false} SpentForever(run: seq<Tables>, clock: seq<Time>, events: seq<Event>, i: nat, j: nat,
                                        key: NonceKey)
    requires IsRun(run, clock, events) && i < j < |run|
    requires Spent(run[i + 1], clock[i], key, clock[i])
    ensures Spent(run[j], clock[j - 1], key, clock[i])
    decreases j
  {
    hide Spent, Enabled, Next;
    if i + 1 < j {
      SpentForever(run, clock, events, i, j - 1, key);
      assert Enabled(run[j - 1], events[j - 1]);
      StillSpent(run[j - 1], clock[j - 2], clock[j - 1], events[j - 1], key, clock[i]);
    }
  }

  /** A signed request claimed by one device is accepted at most once, ever. */
  lemma AcceptedOnce(run: seq<Tables>, clock: seq<Time>, events: seq<Event>, i: nat, j: nat)
    requires IsRun(run, clock, events) && run[0] == Tables(map[], map[]) && i < j < |events|
    requires events[i].Handle? && events[j].Handle? && Accepts(run[i], clock[i], events[i].request)
    requires events[j].request.message == events[i].request.message
               && events[j].request.claimed == events[i].request.claimed
    ensures !Accepts(run[j], clock[j], events[j].request)
  {
    var q := events[i].request;
    assert Enabled(run[i], events[i]);
    RunsStayOk(run, clock, events, i);
    RunsStayOk(run, clock, events, j);
    AcceptanceSpends(run[i], clock[i], q);
    var key := NonceKey(q.message.vault, q.claimed, q.message.nonce.value);
    assert run[i + 1] == Serve(run[i], clock[i], q);
    assert Timely(q.message.timestamp, clock[i]);
    hide Accepts, Spent, Enabled, Next, TablesOk;
    SpentForever(run, clock, events, i, j, key);
    SpentIsRefused(run[j], clock[j - 1], clock[j], events[j].request, key, clock[i]);
  }

  // ----- The device header is not signed -------------------------------------------------------

  /** Nobody's key is enrolled twice in a vault. */
  predicate DistinctKeys(v: Vault) {
    forall a, b :: a in v.devices.Keys + v.enrollments.Keys && b in v.devices.Keys + v.enrollments.Keys && a != b ==>
      Identity(v, a).value.signing != Identity(v, b).value.signing
  }

  lemma ActKeepsIdentity(v: Vault, now: Time, actor: Id, c: Call, id: Id)
    requires VaultOk(v) && Act(v, now, actor, c).Some? && Identity(v, id).Some?
    ensures Identity(Act(v, now, actor, c).value, id) == Identity(v, id)
  {
    hide VaultOk, Act;
    ActKeeps(v, now, actor, c);
    JoinedAlike(v, id);
    JoinedAlike(Act(v, now, actor, c).value, id);
    if id in v.devices { DevicesStay(v, now, actor, c, id); }
    if id in v.enrollments { EnrollmentsStay(v, now, actor, c, id); }
  }

  lemma IdentityStays(t: Tables, now: Time, e: Event, v: VaultId, id: Id)
    requires TablesOk(t) && Enabled(t, e) && v in t.vaults && Identity(t.vaults[v], id).Some?
    ensures v in Next(t, now, e).vaults && Identity(Next(t, now, e).vaults[v], id) == Identity(t.vaults[v], id)
  {
    hide VaultOk, Act;
    if e.Handle? && Accepts(t, now, e.request) && e.request.message.vault == v {
      ActKeepsIdentity(t.vaults[v], now, e.request.claimed, e.request.message.call, id);
    }
  }

  /** A device row repeats the keys of its enrollment. */
  lemma JoinedAlike(v: Vault, id: Id)
    requires VaultOk(v)
    ensures id in v.devices && id in v.enrollments ==> v.devices[id].device == v.enrollments[id].device
  {
    if id in v.enrollments { assert EnrollmentOk(v, id); }
  }

  lemma {:induction false} IdentityRemains(run: seq<Tables>, clock: seq<Time>, events: seq<Event>, i: nat, j: nat,
                                           v: VaultId, id: Id)
    requires IsRun(run, clock, events) && run[0] == Tables(map[], map[]) && i <= j < |run|
    requires v in run[i].vaults && Identity(run[i].vaults[v], id).Some?
    ensures v in run[j].vaults && Identity(run[j].vaults[v], id) == Identity(run[i].vaults[v], id)
    decreases j
  {
    if i < j {
      IdentityRemains(run, clock, events, i, j - 1, v, id);
      RunsStayOk(run, clock, events, j - 1);
      assert Enabled(run[j - 1], events[j - 1]);
      hide TablesOk, Enabled, Next, Identity;
      IdentityStays(run[j - 1], clock[j - 1], events[j - 1], v, id);
    }
  }

  /** While no key is enrolled twice, the signed bytes alone are accepted at most once. */
  lemma AcceptedOnceByKey(run: seq<Tables>, clock: seq<Time>, events: seq<Event>, i: nat, j: nat)
    requires IsRun(run, clock, events) && run[0] == Tables(map[], map[]) && i < j < |events|
    requires events[i].Handle? && events[j].Handle? && Accepts(run[i], clock[i], events[i].request)
    requires events[j].request.message == events[i].request.message
               && events[j].request.signer == events[i].request.signer
    requires events[i].request.message.vault in run[j].vaults ==>
               DistinctKeys(run[j].vaults[events[i].request.message.vault])
    ensures !Accepts(run[j], clock[j], events[j].request)
  {
    var q, r := events[i].request, events[j].request;
    if q.claimed == r.claimed {
      AcceptedOnce(run, clock, events, i, j);
    } else {
      IdentityRemains(run, clock, events, i, j, q.message.vault, q.claimed);
    }
  }

  /** Two identities of the vault with one signing key. */
  predicate ShareKey(v: Vault, a: Id, b: Id) {
    a != b && Identity(v, a).Some? && Identity(v, b).Some?
      && Identity(v, a).value.signing == Identity(v, b).value.signing
  }

  /** Nobody's nonces are forgotten by a request that revokes nobody, and pruning spares new ones. */
  lemma OtherNonceStays(t: Tables, now: Time, q: Request, key: NonceKey)
    requires Accepts(t, now, q) && key !in t.nonces
    requires key != NonceKey(q.message.vault, Identity(t.vaults[q.message.vault], q.claimed).value.id,
               q.message.nonce.value)
    ensures key !in Serve(t, now, q).nonces
  {
    hide Act;
  }

  /**
   * And only then: once a request is accepted from one identity, the same signed bytes are accepted
   * from another that shares the key, with a nonce it has not used, exactly if that identity may
   * make the call when the first transaction is done.
   */
  lemma AcceptedAgainExactly(t: Tables, now: Time, q: Request, other: Id)
    requires TablesOk(t) && Accepts(t, now, q) && ShareKey(t.vaults[q.message.vault], q.claimed, other) && other != ""
    requires NonceKey(q.message.vault, other, q.message.nonce.value) !in t.nonces
    ensures q.message.vault in Serve(t, now, q).vaults
    ensures Accepts(Serve(t, now, q), now, q.(claimed := other)) <==>
            Authorized(Serve(t, now, q).vaults[q.message.vault], other, q.message.call)
  {
    var m := q.message;
    var v := t.vaults[m.vault];
    var u := Serve(t, now, q);
    IdentityIs(v, other);
    IdentityIs(v, q.claimed);
    var key := NonceKey(m.vault, other, m.nonce.value);
    OtherNonceStays(t, now, q, key);
    ActKeeps(v, now, q.claimed, m.call);
    ActKeepsIdentity(v, now, q.claimed, m.call, other);
    assert u.vaults[m.vault] == Act(v, now, q.claimed, m.call).value;
    hide VaultOk, Act, Serve;
    if Authorized(u.vaults[m.vault], other, m.call) { ActKeeps(u.vaults[m.vault], now, other, m.call); }
  }

  /** One more event at time zero. */
  lemma RunsOn(run: seq<Tables>, clock: seq<Time>, events: seq<Event>, e: Event)
    requires IsRun(run, clock, events) && (forall k :: 0 <= k < |clock| ==> clock[k] == 0)
    requires Enabled(run[|events|], e)
    ensures IsRun(run + [Next(run[|events|], 0, e)], clock + [0], events + [e])
  {
    hide Enabled, Next;
    var longer, all := run + [Next(run[|events|], 0, e)], events + [e];
    forall k {:trigger all[k]} | 0 <= k < |all|
      ensures Enabled(longer[k], all[k]) && longer[k + 1] == Next(longer[k], (clock + [0])[k], all[k])
    {
      if k < |events| { assert all[k] == events[k]; }
    }
  }

  /** A founder "a", and an enrollment "b" with the very same signing key. */
  lemma FoundedAndEnrolled(one: Device, two: Device) returns (t: Tables, run: seq<Tables>, events: seq<Event>)
    requires one == Device("a", "key", "w1") && two == Device("b", "key", "w2")
    ensures |events| == 2 && IsRun(run, [0, 0], events) && run[0] == Tables(map[], map[]) && run[2] == t
    ensures TablesOk(t) && t == Tables(map["v" := Enrolled(Founded(one), two)], map[])
  {
    var t0 := Tables(map[], map[]);
    NextKeeps(t0, 0, Found("v", one));
    var t1 := Next(t0, 0, Found("v", one));
    assert t1.vaults == map["v" := Founded(one)];
    NextKeeps(t1, 0, Enroll("v", two));
    t := Next(t1, 0, Enroll("v", two));
    assert t.vaults == map["v" := Enrolled(Founded(one), two)];
    run, events := [t0, t1, t], [Found("v", one), Enroll("v", two)];
  }

  lemma ApprovalIsServed(t: Tables, one: Device, two: Device, q: Request)
    requires one == Device("a", "key", "w1") && two == Device("b", "key", "w2")
    requires t == Tables(map["v" := Enrolled(Founded(one), two)], map[])
    requires q == Request("a",
               Message("v", ServiceVault.ApproveEnrollment("b", Some(Envelope("sealed", true))), Some(0),
                                       Some("one")), Some("key"))
    ensures Accepts(t, 0, q) && Serve(t, 0, q).nonces == map[NonceKey("v", "a", "one") := 0]
    ensures Serve(t, 0, q).vaults == map["v" :=
              Admitted(Enrolled(Founded(one), two), "b", Envelope("sealed", true)).value]
  {
  }

  /** The founder admits the other: two active devices with one key. */
  lemma TwoWithOneKey() returns (t: Tables, approval: Request, run: seq<Tables>, events: seq<Event>)
    ensures |events| == 3 && IsRun(run, [0, 0, 0], events) && run[0] == Tables(map[], map[]) && run[3] == t
              && TablesOk(t)
    ensures events[2] == Handle(approval) && Accepts(run[2], 0, approval) && approval.message.call.ApproveEnrollment?
    ensures "v" in t.vaults && Active(t.vaults["v"], "a") && Active(t.vaults["v"], "b")
              && ShareKey(t.vaults["v"], "a", "b")
    ensures Identity(t.vaults["v"], "a") == Some(Device("a", "key", "w1"))
    ensures t.nonces == map[NonceKey("v", "a", "one") := 0]
  {
    var one, two := Device("a", "key", "w1"), Device("b", "key", "w2");
    var call := ServiceVault.ApproveEnrollment("b", Some(Envelope("sealed", true)));
    approval := Request("a", Message("v", call, Some(0), Some("one")), Some("key"));
    var u, start, first := FoundedAndEnrolled(one, two);
    ApprovalIsServed(u, one, two, approval);
    hide Serve, Accepts, IsRun, TablesOk;
    NextKeeps(u, 0, Handle(approval));
    RunsOn(start, [0, 0], first, Handle(approval));
    t := Serve(u, 0, approval);
    run, events := start + [t], first + [Handle(approval)];
    RunLength(run, [0, 0] + [0], events);
    assert [0, 0] + [0] == [0, 0, 0];
  }

  lemma RunLength(run: seq<Tables>, clock: seq<Time>, events: seq<Event>)
    requires IsRun(run, clock, events)
    ensures |run| == |events| + 1
  {
  }

  lemma OrdinaryIsServed(t: Tables, q: Request)
    requires q == Request("a", Message("v", Ordinary("put"), Some(0), Some("two")), Some("key"))
    requires "v" in t.vaults && Active(t.vaults["v"], "a") && t.nonces == map[NonceKey("v", "a", "one") := 0]
    requires Identity(t.vaults["v"], "a") == Some(Device("a", "key", "w1"))
    ensures Accepts(t, 0, q) && Serve(t, 0, q).vaults == t.vaults
  {
  }

  /** It happens in a run of the service: an ordinary request one device signs is served twice. */
  lemma SharedKeyServesTwice() returns (run: seq<Tables>, events: seq<Event>, q: Request)
    ensures |events| == 5 && IsRun(run, [0, 0, 0, 0, 0], events) && run[0] == Tables(map[], map[])
    ensures q.message.call.Ordinary? && q.claimed == "a"
    ensures events[3] == Handle(q) && events[4] == Handle(q.(claimed := "b"))
    ensures Accepts(run[3], 0, q) && Accepts(run[4], 0, q.(claimed := "b"))
  {
    var t, approval, start, first := TwoWithOneKey();
    q := Request("a", Message("v", Ordinary("put"), Some(0), Some("two")), Some("key"));
    var again := q.(claimed := "b");
    OrdinaryIsServed(t, q);
    hide Serve, Accepts, IsRun, TablesOk;
    AcceptedAgainExactly(t, 0, q, "b");
    var u := Serve(t, 0, q);
    RunsOn(start, [0, 0, 0], first, Handle(q));
    RunLength(start, [0, 0, 0], first);
    RunsOn(start + [u], [0, 0, 0] + [0], first + [Handle(q)], Handle(again));
    events := first + [Handle(q)] + [Handle(again)];
    run := start + [u] + [Serve(u, 0, again)];
    assert [0, 0, 0] + [0] + [0] == [0, 0, 0, 0, 0];
  }
}
