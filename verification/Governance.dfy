/** Who may do what, over whole runs: no lock-out, no escalation, and a freeze that holds. */
module Governance {
  import opened Words
  import opened Accounts
  import opened Introspection
  import opened Handlers
  import opened Machine
  import opened Runs

  // ---------- what a call does to permissions and oracles ----------

  /** Only permissions of the named controller change or appear. */
  ghost predicate PermissionsEffect(c: Call, m: map<Pubkey, PermissionData>, m': map<Pubkey, PermissionData>) {
    && (forall p :: p in m ==> p in m' && (m'[p] == m[p] || (m[p].controller == m'[p].controller == ControllerOf(c))))
    && (forall p :: p in m' && p !in m ==> m'[p].controller == ControllerOf(c))
  }

  /** An oracle's configuration; the rest is the price of the moment. */
  predicate SameOracle(o: OracleData, o': OracleData) {
    o' == o.(value := o'.value, lastUpdateSlot := o'.lastUpdateSlot)
  }

  /** Only the named controller's oracles are configured or appear. */
  ghost predicate OraclesEffect(c: Call, m: map<Pubkey, OracleData>, m': map<Pubkey, OracleData>) {
    && (forall p :: p in m ==>
          && p in m'
          && (SameOracle(m[p], m'[p]) || (NeedsOpen(c) && m[p].controller == m'[p].controller == ControllerOf(c))))
    && (forall p :: p in m' && p !in m ==> NeedsOpen(c) && m'[p].controller == ControllerOf(c))
  }

  lemma PermissionCalls(w: World, c: Call, w': World)
    requires Ready(w, c)
    requires (c.Disc() == 1 && InitializeControllerStep(w, c, w')) || (c.Disc() == 3 && ManagePermissionStep(w, c, w'))
    ensures PermissionsEffect(c, w.permissions, w'.permissions)
  {
    hide ValidWorld;
  }

  lemma OracleCalls(w: World, c: Call, w': World)
    requires Ready(w, c)
    requires (c.Disc() == 12 && InitializeOracleStep(w, c, w')) || (c.Disc() == 13 && UpdateOracleStep(w, c, w'))
             || (c.Disc() == 14 && RefreshOracleStep(w, c, w'))
    ensures OraclesEffect(c, w.oracles, w'.oracles)
  {
    hide ValidWorld;
  }

  lemma ExecutesGoverned(w: World, c: Call, w': World)
    requires Ready(w, c) && Executes(w, c, w') && Untouched(w, w', c)
    ensures PermissionsEffect(c, w.permissions, w'.permissions)
    ensures OraclesEffect(c, w.oracles, w'.oracles)
  {
    hide ValidWorld, PermissionsEffect, OraclesEffect, InitializeControllerStep, ManagePermissionStep,
      InitializeOracleStep, UpdateOracleStep, RefreshOracleStep;
    if c.Disc() in {1, 3} {
      PermissionCalls(w, c, w');
      NoOracles(c, w.oracles);
    } else if c.Disc() in {12, 13, 14} {
      OracleCalls(w, c, w');
      NoPermissions(c, w.permissions);
    } else {
      NoOracles(c, w.oracles);
      NoPermissions(c, w.permissions);
    }
  }

  lemma NoOracles(c: Call, m: map<Pubkey, OracleData>)
    ensures OraclesEffect(c, m, m)
  {
  }

  lemma NoPermissions(c: Call, m: map<Pubkey, PermissionData>)
    ensures PermissionsEffect(c, m, m)
  {
  }

  // ---------- no lock-out ----------

  ghost predicate HasManager(w: World, key: Pubkey) {
    exists p :: IsManager(w, p, key)
  }

  predicate IsManager(w: World, p: Pubkey, key: Pubkey) {
    p in w.permissions && w.permissions[p].controller == key && w.permissions[p].CanManagePermissions()
  }

  ghost predicate Governed(w: World) {
    forall key :: key in w.controllers ==> HasManager(w, key)
  }

  lemma ManagerStays(w: World, c: Call, w': World, key: Pubkey)
    requires Ready(w, c) && c.Disc() == 3 && ManagePermissionStep(w, c, w') && HasManager(w, key)
    ensures HasManager(w', key)
  {
    hide ValidWorld;
    var a := c.ix.accounts;
    var p :| IsManager(w, p, key);
    if p != a[6] {
      assert IsManager(w', p, key);
    } else {
      assert IsManager(w', a[4], key);
    }
  }

  lemma FoundingManager(w: World, c: Call, w': World)
    requires Ready(w, c) && c.Disc() == 1 && InitializeControllerStep(w, c, w') && Governed(w)
    ensures Governed(w')
  {
    hide ValidWorld;
    var a := c.ix.accounts;
    forall key | key in w'.controllers ensures HasManager(w', key) {
      if key == a[2] {
        assert IsManager(w', a[4], key);
      } else {
        var p :| IsManager(w, p, key);
        assert IsManager(w', p, key);
      }
    }
  }

  lemma StaysGoverned(w: World, c: Call, w': World)
    requires Ready(w, c) && Executes(w, c, w') && Governed(w)
    ensures Governed(w')
  {
    hide ValidWorld, Effects, Gated, Executes, Governed;
    ExecutesOk(w, c, w');
    ExecutesGated(w, c, w');
    if c.Disc() == 1 {
      assert InitializeControllerStep(w, c, w') by { GovernanceTaken(w, c, w'); }
      FoundingManager(w, c, w');
    } else {
      NoNewController(w, c, w');
      forall key | key in w'.controllers ensures HasManager(w', key) { ManagerKept(w, c, w', key); }
      assert Governed(w') by { AllGoverned(w'); }
    }
  }

  lemma AllGoverned(w: World)
    requires forall key :: key in w.controllers ==> HasManager(w, key)
    ensures Governed(w)
  {
  }

  lemma GovernanceTaken(w: World, c: Call, w': World)
    requires Ready(w, c) && Executes(w, c, w')
    ensures c.Disc() == 1 ==> InitializeControllerStep(w, c, w')
    ensures c.Disc() == 2 ==> ManageControllerStep(w, c, w')
    ensures c.Disc() == 3 ==> ManagePermissionStep(w, c, w')
    ensures c.Disc() == 17 ==> ResetStep(w, c, w')
  {
    hide ValidWorld, InitializeControllerStep, ManageControllerStep, ManagePermissionStep, ResetStep;
  }

  lemma NoNewController(w: World, c: Call, w': World)
    requires c.cur < |c.ixs| && Effects(w, w', c) && Gated(w, c, w') && c.Disc() != 1
    ensures forall key :: key in w'.controllers ==> key in w.controllers
  {
  }

  lemma ManagerKept(w: World, c: Call, w': World, key: Pubkey)
    requires Ready(w, c) && Executes(w, c, w') && Effects(w, w', c) && c.Disc() != 1
    requires key in w.controllers && Governed(w)
    ensures HasManager(w', key)
  {
    hide ValidWorld, Executes, ManagePermissionStep;
    assert HasManager(w, key);
    if c.Disc() == 3 {
      GovernanceTaken(w, c, w');
      ManagerStays(w, c, w', key);
    } else {
      var p :| IsManager(w, p, key);
      assert IsManager(w', p, key);
    }
  }

  /** No lock-out: in every run from a world where each controller has an active manager of permissions,
      and so from the empty one, each controller always has one. */
  lemma {:induction false} NoLockOut(worlds: seq<World>, moves: seq<Move>, n: nat)
    requires IsRun(worlds, moves) && n < |worlds| && Governed(worlds[0])
    ensures Governed(worlds[n])
  {
    hide Executes, ValidWorld, Governed;
    if n > 0 {
      NoLockOut(worlds, moves, n - 1);
      assert Leads(worlds[n - 1], moves[n - 1], worlds[n]);
      match moves[n - 1]
      case Did(c) => StaysGoverned(worlds[n - 1], c, worlds[n]);
      case _ => SameGoverned(worlds[n - 1], worlds[n]);
    }
  }

  lemma SameGoverned(w: World, w': World)
    requires w' == w.(tokens := w'.tokens, clock := w'.clock) && Governed(w)
    ensures Governed(w')
  {
    forall key | key in w'.controllers ensures HasManager(w', key) {
      var p :| IsManager(w, p, key);
      assert IsManager(w', p, key);
    }
  }

  // ---------- no escalation ----------

  /** Every permission of the controller was there in `start`, and can do no more than it could then. */
  ghost predicate NoMoreThan(start: World, w: World, key: Pubkey) {
    && key in w.controllers
    && forall p :: p in w.permissions && w.permissions[p].controller == key ==> CanNoMore(start, w, p)
  }

  ghost predicate CanNoMore(start: World, w: World, p: Pubkey)
    requires p in w.permissions
  {
    && p in start.permissions && start.permissions[p].controller == w.permissions[p].controller
    && start.permissions[p].authority == w.permissions[p].authority
    && w.permissions[p].Effective().Within(start.permissions[p].Effective())
  }

  /** A call that manages the controller's permissions is signed by someone who could not manage them in `start`. */
  ghost predicate SignedByNonManager(start: World, m: Move, key: Pubkey) {
    m.Did? && m.call.Disc() == 3 && ControllerOf(m.call) == key && |m.call.ix.accounts| > 3 ==>
      forall p :: IsManager(start, p, key) ==> start.permissions[p].authority != m.call.ix.accounts[3]
  }

  lemma SuspensionShrinks(start: World, w: World, c: Call, w': World, key: Pubkey)
    requires Ready(w, c) && c.Disc() == 3 && ManagePermissionStep(w, c, w')
    requires NoMoreThan(start, w, key) && SignedByNonManager(start, Did(c), key)
    ensures NoMoreThan(start, w', key)
  {
    hide ValidWorld;
    var a := c.ix.accounts;
    forall p | p in w'.permissions && w'.permissions[p].controller == key ensures CanNoMore(start, w', p) {
      if p != a[6] {
        assert CanNoMore(start, w, p);
      } else if a[1] == key {
        assert CanNoMore(start, w, a[4]);
        assert !IsManager(start, a[4], key);
        assert CanNoMore(start, w, p);
      }
    }
  }

  lemma OthersShrink(start: World, w: World, c: Call, w': World, key: Pubkey)
    requires c.cur < |c.ixs| && Effects(w, w', c) && Gated(w, c, w') && PermissionsEffect(c, w.permissions, w'.permissions)
    requires c.Disc() != 3 && NoMoreThan(start, w, key)
    ensures NoMoreThan(start, w', key)
  {
    forall p | p in w'.permissions && w'.permissions[p].controller == key ensures CanNoMore(start, w', p) {
      assert p in w.permissions && w'.permissions[p] == w.permissions[p];
      assert CanNoMore(start, w, p);
    }
  }

  /** No escalation: as long as only those sign who cannot manage permissions at the start, nobody can
      ever do more than at the start, whatever else happens. */
  lemma {:induction false} NoEscalation(worlds: seq<World>, moves: seq<Move>, key: Pubkey, n: nat)
    requires IsRun(worlds, moves) && n < |worlds| && key in worlds[0].controllers
    requires forall k :: 0 <= k < |moves| ==> SignedByNonManager(worlds[0], moves[k], key)
    ensures NoMoreThan(worlds[0], worlds[n], key)
  {
    hide Executes, ValidWorld, NoMoreThan, Effects, Gated, PermissionsEffect, OraclesEffect, SignedByNonManager;
    if n == 0 {
      AtFirst(worlds[0], key);
    } else {
      NoEscalation(worlds, moves, key, n - 1);
      var w, w' := worlds[n - 1], worlds[n];
      assert Leads(w, moves[n - 1], w') && SignedByNonManager(worlds[0], moves[n - 1], key);
      match moves[n - 1]
      case Did(c) => CallShrinks(worlds[0], w, c, w', key);
      case _ => StillNoMore(worlds[0], w, w', key);
    }
  }

  lemma CallShrinks(start: World, w: World, c: Call, w': World, key: Pubkey)
    requires Ready(w, c) && Executes(w, c, w') && NoMoreThan(start, w, key) && SignedByNonManager(start, Did(c), key)
    ensures NoMoreThan(start, w', key)
  {
    hide ValidWorld, Executes, NoMoreThan, Effects, Gated, PermissionsEffect, OraclesEffect, SignedByNonManager,
      ManagePermissionStep;
    if c.Disc() == 3 {
      GovernanceTaken(w, c, w');
      SuspensionShrinks(start, w, c, w', key);
    } else {
      ExecutesOk(w, c, w');
      ExecutesGated(w, c, w');
      EffectsUntouched(w, w', c);
      ExecutesGoverned(w, c, w');
      OthersShrink(start, w, c, w', key);
    }
  }

  lemma AtFirst(w: World, key: Pubkey)
    requires key in w.controllers
    ensures NoMoreThan(w, w, key)
  {
  }

  lemma StillNoMore(start: World, w: World, w': World, key: Pubkey)
    requires NoMoreThan(start, w, key) && w' == w.(tokens := w'.tokens, clock := w'.clock)
    ensures NoMoreThan(start, w', key)
  {
    forall p | p in w'.permissions && w'.permissions[p].controller == key ensures CanNoMore(start, w', p) {
      assert CanNoMore(start, w, p);
    }
  }

  // ---------- freeze ----------

  predicate IsFrozen(w: World, key: Pubkey) {
    key in w.controllers && w.controllers[key].status.Frozen?
  }

  /** An integration as it was, save that its bridge push may have been taken out of flight. */
  predicate SameIntegration(i: IntegrationData, i': IntegrationData) {
    i' == i || (i.state.LzBridgeState? && i' == i.(state := LzBridgeState(false)))
  }

  ghost predicate PermissionsPreserved(m: map<Pubkey, PermissionData>, m': map<Pubkey, PermissionData>, key: Pubkey) {
    && (forall p :: p in m && m[p].controller == key ==> p in m' && m'[p] == m[p])
    && (forall p :: p in m' && m'[p].controller == key ==> p in m && m[p].controller == key)
  }

  ghost predicate ReservesPreserved(m: map<Pubkey, ReserveData>, m': map<Pubkey, ReserveData>, key: Pubkey) {
    && (forall p :: p in m && m[p].controller == key ==> p in m' && m'[p] == m[p])
    && (forall p :: p in m' && m'[p].controller == key ==> p in m && m[p].controller == key)
  }

  ghost predicate IntegrationsPreserved(m: map<Pubkey, IntegrationData>, m': map<Pubkey, IntegrationData>,
                                        key: Pubkey) {
    && (forall p :: p in m && m[p].controller == key ==> p in m' && SameIntegration(m[p], m'[p]))
    && (forall p :: p in m' && m'[p].controller == key ==> p in m && m[p].controller == key)
  }

  ghost predicate OraclesPreserved(m: map<Pubkey, OracleData>, m': map<Pubkey, OracleData>, key: Pubkey) {
    && (forall p :: p in m && m[p].controller == key ==> p in m' && SameOracle(m[p], m'[p]))
    && (forall p :: p in m' && m'[p].controller == key ==> p in m && m[p].controller == key)
  }

  /** What the controller owned it owns, as it was; and it owns nothing new. */
  ghost predicate Preserved(w: World, w': World, key: Pubkey) {
    && PermissionsPreserved(w.permissions, w'.permissions, key)
    && ReservesPreserved(w.reserves, w'.reserves, key)
    && IntegrationsPreserved(w.integrations, w'.integrations, key)
    && OraclesPreserved(w.oracles, w'.oracles, key)
  }

  /** While frozen: a call on the controller is a refresh, a reset, or the way out. */
  lemma FrozenPreserved(w: World, c: Call, w': World, key: Pubkey)
    requires c.cur < |c.ixs| && Effects(w, w', c) && Gated(w, c, w')
    requires PermissionsEffect(c, w.permissions, w'.permissions) && OraclesEffect(c, w.oracles, w'.oracles)
    requires c.IsReset() ==> ResetOnly(w, w', c)
    requires IsFrozen(w, key)
    ensures Preserved(w, w', key)
  {
    hide PermissionsPreserved, ReservesPreserved, IntegrationsPreserved, OraclesPreserved, PermissionsEffect,
      OraclesEffect, ReservesEffect, IntegrationsEffect, ControllersEffect, ResetOnly;
    FrozenReserves(w, c, w', key);
    FrozenIntegrations(w, c, w', key);
    FrozenPermissions(w, c, w', key);
    FrozenOracles(w, c, w', key);
  }

  lemma FrozenReserves(w: World, c: Call, w': World, key: Pubkey)
    requires c.cur < |c.ixs| && Untouched(w, w', c) && ReservesEffect(c, w.reserves, w'.reserves)
    requires Gated(w, c, w') && IsFrozen(w, key)
    ensures ReservesPreserved(w.reserves, w'.reserves, key)
  {
  }

  lemma FrozenIntegrations(w: World, c: Call, w': World, key: Pubkey)
    requires c.cur < |c.ixs| && Untouched(w, w', c) && IntegrationsEffect(c, w.integrations, w'.integrations)
    requires Gated(w, c, w') && IsFrozen(w, key) && (c.IsReset() ==> ResetOnly(w, w', c))
    ensures IntegrationsPreserved(w.integrations, w'.integrations, key)
  {
  }

  lemma FrozenPermissions(w: World, c: Call, w': World, key: Pubkey)
    requires c.cur < |c.ixs| && Untouched(w, w', c) && PermissionsEffect(c, w.permissions, w'.permissions)
    requires Gated(w, c, w') && IsFrozen(w, key)
    ensures PermissionsPreserved(w.permissions, w'.permissions, key)
  {
  }

  lemma FrozenOracles(w: World, c: Call, w': World, key: Pubkey)
    requires c.cur < |c.ixs| && OraclesEffect(c, w.oracles, w'.oracles)
    requires Gated(w, c, w') && IsFrozen(w, key)
    ensures OraclesPreserved(w.oracles, w'.oracles, key)
  {
  }

  ghost predicate ResetOnly(w: World, w': World, c: Call) {
    && (forall k :: k in w.integrations ==> k in w'.integrations && SameIntegration(w.integrations[k], w'.integrations[k]))
    && (forall k :: k in w'.integrations ==> k in w.integrations)
  }

  lemma ResetIsOnly(w: World, c: Call, w': World)
    requires Ready(w, c) && ResetStep(w, c, w')
    ensures ResetOnly(w, w', c)
  {
    hide ValidWorld;
  }

  /** `authority` signed with an active permission of the controller that may unfreeze it. */
  ghost predicate UnfreezeSigned(w: World, c: Call, key: Pubkey) {
    && c.Disc() == 2 && |c.ix.accounts| >= 5 && c.ix.accounts[0] == key
    && PermissionLoaded(w, c.ix.accounts[3], key, c.ix.accounts[2])
    && w.permissions[c.ix.accounts[3]].CanUnfreezeController()
  }

  lemma ThawIsSigned(w: World, c: Call, w': World, key: Pubkey)
    requires Ready(w, c) && Executes(w, c, w') && IsFrozen(w, key) && !IsFrozen(w', key)
    requires Effects(w, w', c) && Gated(w, c, w')
    ensures key in w'.controllers && w'.controllers[key].status.Active? && UnfreezeSigned(w, c, key)
  {
    hide ValidWorld, Executes;
    GovernanceTaken(w, c, w');
  }

  /** Freeze, call by call: nothing the controller owns changes, save a bridge push taken out of flight
      and the prices of its oracles; and the only way out is to Active, by someone who may unfreeze. */
  lemma FreezeHolds(w: World, c: Call, w': World, key: Pubkey)
    requires Ready(w, c) && Executes(w, c, w') && IsFrozen(w, key)
    ensures Preserved(w, w', key)
    ensures !IsFrozen(w', key) ==>
              key in w'.controllers && w'.controllers[key].status.Active? && UnfreezeSigned(w, c, key)
  {
    hide ValidWorld, Executes, Effects, Gated, PermissionsEffect, OraclesEffect, ResetOnly, ResetStep, Preserved,
      UnfreezeSigned;
    ExecutesOk(w, c, w');
    ExecutesGated(w, c, w');
    EffectsUntouched(w, w', c);
    ExecutesGoverned(w, c, w');
    if c.IsReset() {
      GovernanceTaken(w, c, w');
      ResetIsOnly(w, c, w');
    }
    FrozenPreserved(w, c, w', key);
    if !IsFrozen(w', key) { ThawIsSigned(w, c, w', key); }
  }

  ghost predicate NobodyUnfreezes(w: World, key: Pubkey) {
    forall p :: p in w.permissions && w.permissions[p].controller == key ==> !w.permissions[p].CanUnfreezeController()
  }

  lemma PreservedTwice(w0: World, w1: World, w2: World, key: Pubkey)
    requires Preserved(w0, w1, key) && Preserved(w1, w2, key)
    ensures Preserved(w0, w2, key)
    ensures NobodyUnfreezes(w0, key) ==> NobodyUnfreezes(w1, key)
  {
  }

  /** A frozen controller whom nobody may unfreeze stays frozen, and everything it owns stays, for ever. */
  lemma {:induction false} FrozenForever(worlds: seq<World>, moves: seq<Move>, key: Pubkey, n: nat)
    requires IsRun(worlds, moves) && n < |worlds| && IsFrozen(worlds[0], key) && NobodyUnfreezes(worlds[0], key)
    ensures IsFrozen(worlds[n], key) && Preserved(worlds[0], worlds[n], key)
  {
    hide Executes, ValidWorld, Preserved, NobodyUnfreezes, UnfreezeSigned;
    if n == 0 {
      PreservedItself(worlds[0], worlds[0], key);
    } else {
      FrozenForever(worlds, moves, key, n - 1);
      var w, w' := worlds[n - 1], worlds[n];
      assert Leads(w, moves[n - 1], w');
      if moves[n - 1].Did? {
        FreezeHolds(w, moves[n - 1].call, w', key);
      } else {
        PreservedItself(w, w', key);
      }
      PreservedTwice(worlds[0], w, w', key);
      if moves[n - 1].Did? { NotSigned(w, moves[n - 1].call, key); }
    }
  }

  lemma NotSigned(w: World, c: Call, key: Pubkey)
    requires NobodyUnfreezes(w, key)
    ensures !UnfreezeSigned(w, c, key)
  {
  }

  lemma PreservedItself(w: World, w': World, key: Pubkey)
    requires w' == w.(tokens := w'.tokens, clock := w'.clock)
    ensures Preserved(w, w', key)
  {
  }
}
